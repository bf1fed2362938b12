/**
 One name everywhere: the hosts of the inventory are the instances that Terraform reports, with their
 addresses, and each is called like the Kubernetes node of its configured machine.
 */
module Hosts {
  import opened Wrappers
  import opened Fleet
  import opened Names
  import opened Inventory

  function Group(g: Groups, t: NodeType): seq<Host> {
    match t case Master => g.masters case Worker => g.workers case LoadBalancer => g.loadBalancers
  }

  function KeysOf(o: Orders, t: NodeType): seq<Name> {
    match t case Master => Sort(o.masters) case Worker => Sort(o.workers) case LoadBalancer => Sort(o.lbs)
  }

  lemma InListing(cluster: string, s: States, keys: seq<Name>, h: Host)
    requires forall n :: n in keys ==> n in s
    ensures h in Listing(cluster, s, keys) <==>
              exists n :: n in keys && h == Host(InstanceName(cluster, n), Some(s[n].address))
  {
    var hs := Listing(cluster, s, keys);
    if h in hs {
      var i :| 0 <= i < |hs| && hs[i] == h;
      assert keys[i] in keys;
    }
    if n :| n in keys && h == Host(InstanceName(cluster, n), Some(s[n].address)) {
      var i :| 0 <= i < |keys| && keys[i] == n;
      assert hs[i] == h;
    }
  }

  /** The hosts of a group are its configured machines, under their node names. */
  ghost predicate NodesOf(g: seq<Host>, cluster: string, f: Fleet, a: Addresses, t: NodeType)
    requires f.Keys <= a.Keys
  {
    && (forall n :: Configured(f, t, n) ==> Host(FullNodeName(cluster, n), Some(a[n])) in g)
    && (forall h :: h in g ==> exists n :: Configured(f, t, n) && h == Host(FullNodeName(cluster, n), Some(a[n])))
  }

  lemma KeysConfigured(m: States, o: Orders, f: Fleet, a: Addresses, t: NodeType, n: Name)
    requires f.Keys <= a.Keys && Expected(f, a, m) && OrdersOf(o, m)
    ensures n in KeysOf(o, t) <==> Configured(f, t, n)
    ensures Configured(f, t, n) ==> n in m && m[n].address == a[n]
  {
    SortAllOf(o, m);
    hide Sort, OrdersOf;
  }

  lemma GroupListed(cluster: string, m: States, v: Settings, o: Orders, t: NodeType)
    requires Clean(cluster, m, v) && OrdersOf(o, m)
    ensures forall n :: n in KeysOf(o, t) ==> n in m
    ensures Group(Read(Render(cluster, m, v, o)), t) == Listing(cluster, m, KeysOf(o, t))
  {
    ReadUndoesRender(cluster, m, v, o);
    hide Read, Render, Listing, Sort;
  }

  lemma GroupNodes(cluster: string, m: States, v: Settings, o: Orders, f: Fleet, a: Addresses, t: NodeType)
    requires f.Keys <= a.Keys && Expected(f, a, m) && Clean(cluster, m, v) && OrdersOf(o, m)
    ensures NodesOf(Group(Read(Render(cluster, m, v, o)), t), cluster, f, a, t)
  {
    hide Read, Render, Clean, OrdersOf, KeysOf, Group, Listing, Expected, InstanceName, FullNodeName;
    GroupListed(cluster, m, v, o, t);
    var g, keys := Group(Read(Render(cluster, m, v, o)), t), KeysOf(o, t);
    forall n | Configured(f, t, n) ensures Host(FullNodeName(cluster, n), Some(a[n])) in g {
      SameName(cluster, n);
      KeysConfigured(m, o, f, a, t, n);
      InListing(cluster, m, keys, Host(InstanceName(cluster, n), Some(a[n])));
    }
    forall h | h in g ensures exists n :: Configured(f, t, n) && h == Host(FullNodeName(cluster, n), Some(a[n])) {
      InListing(cluster, m, keys, h);
      var n :| n in keys && h == Host(InstanceName(cluster, n), Some(m[n].address));
      SameName(cluster, n);
      KeysConfigured(m, o, f, a, t, n);
      assert Configured(f, t, n);
    }
  }

  lemma SameName(cluster: string, n: Name)
    ensures InstanceName(cluster, n) == FullNodeName(cluster, n)
  {}

  /** The hosts of a group are the instances reported for its type, with their addresses. */
  ghost predicate InstancesOf(g: seq<Host>, ips: Addresses) {
    forall h :: h in g <==> h.name in ips && h.address == Some(ips[h.name])
  }

  lemma NodeIsInstance(cluster: string, ips: Addresses, f: Fleet, a: Addresses, t: NodeType, h: Host)
    requires f.Keys <= a.Keys && Reports(ips, cluster, f, a, t)
    ensures (exists n :: Configured(f, t, n) && h == Host(FullNodeName(cluster, n), Some(a[n])))
       <==> h.name in ips && h.address == Some(ips[h.name])
  {
    hide InstanceName, FullNodeName;
    if n :| Configured(f, t, n) && h == Host(FullNodeName(cluster, n), Some(a[n])) {
      SameName(cluster, n);
    }
    if h.name in ips && h.address == Some(ips[h.name]) {
      var n :| Configured(f, t, n) && h.name == InstanceName(cluster, n);
      SameName(cluster, n);
      assert h == Host(FullNodeName(cluster, n), Some(a[n]));
    }
  }

  lemma NodesAreInstances(g: seq<Host>, cluster: string, ips: Addresses, f: Fleet, a: Addresses, t: NodeType)
    requires f.Keys <= a.Keys && NodesOf(g, cluster, f, a, t) && Reports(ips, cluster, f, a, t)
    ensures InstancesOf(g, ips)
  {
    hide InstanceName, FullNodeName, Reports, Configured;
    forall h ensures h in g <==> h.name in ips && h.address == Some(ips[h.name]) {
      NodeIsInstance(cluster, ips, f, a, t, h);
    }
  }

  lemma ExpectedHosts(o: TerraformOutput, f: Fleet, a: Addresses, m: States, v: Settings, orders: Orders,
      t: NodeType)
    requires f.Keys <= a.Keys && Expected(f, a, m) && Reports(o.IPs(t), o.clusterName, f, a, t)
    requires Clean(o.clusterName, m, v) && OrdersOf(orders, m)
    ensures var g := Group(Read(Render(o.clusterName, m, v, orders)), t);
            InstancesOf(g, o.IPs(t)) && NodesOf(g, o.clusterName, f, a, t)
  {
    hide Reports, Clean, OrdersOf, Expected;
    GroupNodes(o.clusterName, m, v, orders, f, a, t);
    hide Read, Render, Group, InstancesOf, NodesOf;
    NodesAreInstances(Group(Read(Render(o.clusterName, m, v, orders)), t), o.clusterName, o.IPs(t), f, a, t);
  }

  /** From the configuration through Terraform, the machine states and the rendered inventory, where load
      balancers are machines: for every node type the hosts a reader of the inventory finds are exactly the
      instances Terraform reports, with their addresses, and exactly the configured machines, under the names
      kubectl gives their nodes. */
  lemma HostsAreInstances(o: TerraformOutput, f: Fleet, a: Addresses, m: States, v: Settings, orders: Orders,
      t: NodeType)
    requires o.DescribesAll(f, a) && o.NodesAndLoadBalancers(m)
    requires Clean(o.clusterName, m, v) && OrdersOf(orders, m)
    ensures var g := Group(Read(Render(o.clusterName, m, v, orders)), t);
            InstancesOf(g, o.IPs(t)) && NodesOf(g, o.clusterName, f, a, t)
  {
    NamesComeBack(o, f, a, m);
    AllReport(o, f, a, t);
    hide TerraformOutput.NodesAndLoadBalancers, TerraformOutput.DescribesAll, Expected;
    ExpectedHosts(o, f, a, m, v, orders, t);
  }

  lemma AllReport(o: TerraformOutput, f: Fleet, a: Addresses, t: NodeType)
    requires o.DescribesAll(f, a)
    ensures f.Keys <= a.Keys && Reports(o.IPs(t), o.clusterName, f, a, t)
  {
    hide Reports, TerraformOutput.IPs;
    match t case Master => case Worker => case LoadBalancer =>
  }

  /** The same where load balancers are no machines, whatever Terraform reports of them: so it is for masters and
      workers, and no host is listed as a load balancer. */
  lemma NodeHostsAreInstances(o: TerraformOutput, f: Fleet, a: Addresses, m: States, v: Settings, orders: Orders,
      t: NodeType)
    requires o.Describes(f, a) && o.Nodes(m)
    requires Clean(o.clusterName, m, v) && OrdersOf(orders, m)
    ensures var g := Group(Read(Render(o.clusterName, m, v, orders)), t);
            if t.LoadBalancer? then forall h :: h !in g
            else InstancesOf(g, o.IPs(t)) && NodesOf(g, o.clusterName, f, a, t)
  {
    NodesComeBack(o, f, a, m);
    hide TerraformOutput.Nodes, Expected;
    if t.LoadBalancer? {
      hide TerraformOutput.Describes;
      GroupNodes(o.clusterName, m, v, orders, Servers(f), a, t);
      hide Group, Read, Render, Clean, OrdersOf;
      NoHosts(Group(Read(Render(o.clusterName, m, v, orders)), t), o.clusterName, f, a);
    } else {
      ServersReport(o, f, a, t);
      hide TerraformOutput.Describes;
      ExpectedHosts(o, Servers(f), a, m, v, orders, t);
      hide Group, Read, Render, Clean, OrdersOf, InstancesOf;
      ServersNodes(Group(Read(Render(o.clusterName, m, v, orders)), t), o.clusterName, f, a, t);
    }
  }

  lemma NoHosts(g: seq<Host>, cluster: string, f: Fleet, a: Addresses)
    requires f.Keys <= a.Keys && NodesOf(g, cluster, Servers(f), a, LoadBalancer)
    ensures forall h :: h !in g
  {}

  lemma ServersNodes(g: seq<Host>, cluster: string, f: Fleet, a: Addresses, t: NodeType)
    requires f.Keys <= a.Keys && !t.LoadBalancer? && NodesOf(g, cluster, Servers(f), a, t)
    ensures NodesOf(g, cluster, f, a, t)
  {
    assert forall n :: Configured(f, t, n) <==> Configured(Servers(f), t, n);
    hide Configured, FullNodeName;
  }

  lemma ServersReport(o: TerraformOutput, f: Fleet, a: Addresses, t: NodeType)
    requires o.Describes(f, a) && !t.LoadBalancer?
    ensures Servers(f).Keys <= a.Keys && Reports(o.IPs(t), o.clusterName, Servers(f), a, t)
  {
    assert forall n :: Configured(f, t, n) <==> Configured(Servers(f), t, n);
    hide Configured, InstanceName, TerraformOutput.IPs;
    match t case Master => case Worker => case LoadBalancer =>
  }
}
