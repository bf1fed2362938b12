/**
 Machine names on their way from the configuration to Terraform instances, back into the machine
 states, and on to inventory hosts and Kubernetes nodes.
 */
module Names {
  import opened Wrappers
  import opened Text
  import opened Fleet

  datatype Address = Address(publicIP: string, privateIP: string)

  datatype MachineState = MachineState(nodeType: NodeType, address: Address)

  type States = map<Name, MachineState>
  type Addresses = map<string, Address>

  /******* Terraform's side *******/

  /** The name the modules give an instance; `cluster` is the cluster name, their prefix. */
  function InstanceName(cluster: string, n: Name): string {
    cluster + "-" + n
  }

  lemma InstanceNamesDiffer(cluster: string, n: Name, m: Name)
    ensures InstanceName(cluster, n) == InstanceName(cluster, m) ==> n == m
    ensures TrimPrefix(InstanceName(cluster, n), cluster + "-") == n
  {
    assert InstanceName(cluster, n)[|cluster| + 1..] == n;
    assert InstanceName(cluster, m)[|cluster| + 1..] == m;
    assert InstanceName(cluster, n)[..|cluster| + 1] == cluster + "-";
  }

  ghost predicate Configured(f: Fleet, t: NodeType, n: Name) {
    n in f && f[n].nodeType == t
  }

  /** The output of the module for one node type: instance names with their addresses. */
  ghost predicate Reports(ips: Addresses, cluster: string, f: Fleet, a: Addresses, t: NodeType)
    requires f.Keys <= a.Keys
  {
    && (forall n :: Configured(f, t, n) ==> InstanceName(cluster, n) in ips && ips[InstanceName(cluster, n)] == a[n])
    && (forall k :: k in ips ==> exists n :: Configured(f, t, n) && k == InstanceName(cluster, n))
  }

  /** The AWS modules report the configured names without a prefix. */
  ghost predicate ReportsBare(ips: Addresses, f: Fleet, a: Addresses, t: NodeType)
    requires f.Keys <= a.Keys
  {
    forall n :: (n in ips <==> Configured(f, t, n)) && (n in ips ==> ips[n] == a[n])
  }

  /******* Filling the map of states *******/

  ghost predicate From(cluster: string, t: NodeType, ips: Addresses, done: set<string>, n: Name, s: MachineState) {
    exists k :: k in done && k in ips && TrimPrefix(k, cluster + "-") == n && s == MachineState(t, ips[k])
  }

  /** The entries `done` were trimmed and stored; where names collide, one of them won. */
  ghost predicate Filled(before: States, cluster: string, t: NodeType, ips: Addresses, done: set<string>,
      after: States) {
    && (forall n :: n in before ==> n in after)
    && (forall k :: k in done && k in ips ==> TrimPrefix(k, cluster + "-") in after)
    && (forall n :: n in after ==> (n in before && before[n] == after[n]) || From(cluster, t, ips, done, n, after[n]))
    && (forall k :: k in done && k in ips ==>
          var n := TrimPrefix(k, cluster + "-"); From(cluster, t, ips, done, n, after[n]))
  }

  /** The masters and workers of a configuration. */
  function Servers(f: Fleet): Fleet { map n | n in f && !f[n].nodeType.LoadBalancer? :: f[n] }

  class StateMap {
    var m: States

    constructor ()
      ensures m == map[]
    {
      m := map[];
    }
  }

  class TerraformOutput {
    const clusterType: ClusterType
    const clusterName: string
    const scMasterIPs: Addresses
    const scWorkerIPs: Addresses
    const wcMasterIPs: Addresses
    const wcWorkerIPs: Addresses
    const scControlPlaneLBIPs: Addresses
    const wcControlPlaneLBIPs: Addresses

    constructor (clusterType: ClusterType, clusterName: string, sc: (Addresses, Addresses, Addresses),
                 wc: (Addresses, Addresses, Addresses))
      ensures this.clusterType == clusterType && this.clusterName == clusterName
      ensures (scMasterIPs, scWorkerIPs, scControlPlaneLBIPs) == sc
      ensures (wcMasterIPs, wcWorkerIPs, wcControlPlaneLBIPs) == wc
    {
      this.clusterType, this.clusterName := clusterType, clusterName;
      scMasterIPs, scWorkerIPs, scControlPlaneLBIPs := sc.0, sc.1, sc.2;
      wcMasterIPs, wcWorkerIPs, wcControlPlaneLBIPs := wc.0, wc.1, wc.2;
    }

    ghost function IPs(t: NodeType): Addresses {
      match (clusterType, t)
      case (ServiceCluster, Master) => scMasterIPs
      case (ServiceCluster, Worker) => scWorkerIPs
      case (ServiceCluster, LoadBalancer) => scControlPlaneLBIPs
      case (WorkloadCluster, Master) => wcMasterIPs
      case (WorkloadCluster, Worker) => wcWorkerIPs
      case (WorkloadCluster, LoadBalancer) => wcControlPlaneLBIPs
    }

    /** Range over the map, in any order. */
    method GetMachinesState(machines: StateMap, t: NodeType, ips: Addresses)
      modifies machines
      ensures Filled(old(machines.m), clusterName, t, ips, ips.Keys, machines.m)
    {
      var todo := ips.Keys;
      while todo != {}
        invariant todo <= ips.Keys
        invariant Filled(old(machines.m), clusterName, t, ips, ips.Keys - todo, machines.m)
        decreases |todo|
      {
        var k :| k in todo;
        ghost var done, filled := ips.Keys - todo, machines.m;
        var name := TrimPrefix(k, clusterName + "-");
        machines.m := machines.m[name := MachineState(t, ips[k])];
        todo := todo - {k};
        FillOne(old(machines.m), clusterName, t, ips, done, filled, k);
        assert ips.Keys - todo == done + {k};
      }
      assert ips.Keys - todo == ips.Keys;
    }

    /** What `Machines` may return: the outputs for masters and workers filled in one after the other. */
    ghost predicate Nodes(m: States) {
      exists m1 :: Filled(map[], clusterName, Master, IPs(Master), IPs(Master).Keys, m1)
                && Filled(m1, clusterName, Worker, IPs(Worker), IPs(Worker).Keys, m)
    }

    ghost predicate NodesAndLoadBalancers(m: States) {
      exists m1 :: Nodes(m1) && Filled(m1, clusterName, LoadBalancer, IPs(LoadBalancer), IPs(LoadBalancer).Keys, m)
    }

    /** Masters and workers of the current cluster. */
    method Machines() returns (m: States)
      ensures Nodes(m)
    {
      var machines := new StateMap();
      GetMachinesState(machines, Master, if clusterType.ServiceCluster? then scMasterIPs else wcMasterIPs);
      ghost var m1 := machines.m;
      GetMachinesState(machines, Worker, if clusterType.ServiceCluster? then scWorkerIPs else wcWorkerIPs);
      m := machines.m;
      assert Filled(map[], clusterName, Master, IPs(Master), IPs(Master).Keys, m1);
    }

    /** Safespring's override: its load balancers are machines too. */
    method MachinesAndLoadBalancers() returns (m: States)
      ensures NodesAndLoadBalancers(m)
    {
      var machines := new StateMap();
      GetMachinesState(machines, Master, if clusterType.ServiceCluster? then scMasterIPs else wcMasterIPs);
      ghost var m1 := machines.m;
      GetMachinesState(machines, Worker, if clusterType.ServiceCluster? then scWorkerIPs else wcWorkerIPs);
      ghost var m2 := machines.m;
      assert Filled(map[], clusterName, Master, IPs(Master), IPs(Master).Keys, m1);
      assert Nodes(m2);
      GetMachinesState(machines, LoadBalancer,
                       if clusterType.ServiceCluster? then scControlPlaneLBIPs else wcControlPlaneLBIPs);
      m := machines.m;
    }

    /** What this output says about the masters and workers configured for the current cluster. Nothing is asked of
        the load balancers: CityCloud reports one that is no machine. */
    ghost predicate Describes(f: Fleet, a: Addresses) {
      && f.Keys <= a.Keys
      && Reports(IPs(Master), clusterName, f, a, Master)
      && Reports(IPs(Worker), clusterName, f, a, Worker)
    }

    /** Safespring's load balancers are machines. */
    ghost predicate DescribesAll(f: Fleet, a: Addresses) {
      Describes(f, a) && Reports(IPs(LoadBalancer), clusterName, f, a, LoadBalancer)
    }

    /** Look up one machine by its configured name. */
    method Machine(name: Name, ghost f: Fleet, ghost a: Addresses) returns (r: Option<MachineState>)
      requires Describes(f, a)
      ensures r == if name in Servers(f) then Some(MachineState(f[name].nodeType, a[name])) else None
    {
      var m := Machines();
      NodesComeBack(this, f, a, m);
      r := if name in m then Some(m[name]) else None;
    }

    /** Safespring's override. */
    method MachineOrLoadBalancer(name: Name, ghost f: Fleet, ghost a: Addresses) returns (r: Option<MachineState>)
      requires DescribesAll(f, a)
      ensures r == if name in f then Some(MachineState(f[name].nodeType, a[name])) else None
    {
      var m := MachinesAndLoadBalancers();
      NamesComeBack(this, f, a, m);
      r := if name in m then Some(m[name]) else None;
    }
  }

  lemma FillOne(before: States, cluster: string, t: NodeType, ips: Addresses, done: set<string>, m: States, k: string)
    requires Filled(before, cluster, t, ips, done, m) && k in ips
    ensures Filled(before, cluster, t, ips, done + {k}, m[TrimPrefix(k, cluster + "-") := MachineState(t, ips[k])])
  {
    var n := TrimPrefix(k, cluster + "-");
    var after := m[n := MachineState(t, ips[k])];
    assert From(cluster, t, ips, done + {k}, n, after[n]) by { assert k in done + {k}; }
    forall j, s | From(cluster, t, ips, done, j, s) ensures From(cluster, t, ips, done + {k}, j, s) {
      var i :| i in done && i in ips && TrimPrefix(i, cluster + "-") == j && s == MachineState(t, ips[i]);
      assert i in done + {k};
    }
  }

  /******* Names come back *******/

  /** What comes from module output is a configured machine with its own address. */
  lemma FromConfigured(cluster: string, t: NodeType, ips: Addresses, f: Fleet, a: Addresses, n: Name, s: MachineState)
    requires f.Keys <= a.Keys && Reports(ips, cluster, f, a, t)
    requires From(cluster, t, ips, ips.Keys, n, s)
    ensures Configured(f, t, n) && s == MachineState(t, a[n])
  {
    var k :| k in ips && TrimPrefix(k, cluster + "-") == n && s == MachineState(t, ips[k]);
    var j :| Configured(f, t, j) && k == InstanceName(cluster, j);
    InstanceNamesDiffer(cluster, j, n);
  }

  lemma ConfiguredFrom(before: States, cluster: string, t: NodeType, ips: Addresses, after: States, f: Fleet,
      a: Addresses, n: Name)
    requires f.Keys <= a.Keys && Reports(ips, cluster, f, a, t)
    requires Filled(before, cluster, t, ips, ips.Keys, after) && Configured(f, t, n)
    ensures n in after && after[n] == MachineState(t, a[n])
  {
    var k := InstanceName(cluster, n);
    InstanceNamesDiffer(cluster, n, n);
    assert k in ips;
    hide InstanceName;
    hide TrimPrefix;
    assert TrimPrefix(k, cluster + "-") == n;
    assert From(cluster, t, ips, ips.Keys, n, after[n]);
    FromConfigured(cluster, t, ips, f, a, n, after[n]);
  }

  ghost predicate Added(before: States, t: NodeType, f: Fleet, a: Addresses, after: States)
    requires f.Keys <= a.Keys
  {
    forall n :: (n in after <==> n in before || Configured(f, t, n))
             && (n in after ==> after[n] == if Configured(f, t, n) then MachineState(t, a[n]) else before[n])
  }

  /** With module output the filling has one outcome, whatever the order: the configured names of that
      type are added with their own addresses. */
  lemma FillsExactly(before: States, cluster: string, t: NodeType, ips: Addresses, after: States, f: Fleet,
      a: Addresses)
    requires f.Keys <= a.Keys && Reports(ips, cluster, f, a, t)
    requires Filled(before, cluster, t, ips, ips.Keys, after)
    ensures Added(before, t, f, a, after)
  {
    forall n ensures Configured(f, t, n) ==> n in after && after[n] == MachineState(t, a[n]) {
      if Configured(f, t, n) { ConfiguredFrom(before, cluster, t, ips, after, f, a, n); }
    }
    forall n ensures n in after ==> (n in before && before[n] == after[n]) || Configured(f, t, n) {
      if n in after && From(cluster, t, ips, ips.Keys, n, after[n]) {
        FromConfigured(cluster, t, ips, f, a, n, after[n]);
      }
    }
    hide From, Reports, InstanceName, TrimPrefix;
  }

  /** A map that holds each configured machine once, with its own node type and address. */
  ghost predicate Expected(f: Fleet, a: Addresses, m: States)
    requires f.Keys <= a.Keys
  {
    m == map n | n in f :: MachineState(f[n].nodeType, a[n])
  }

  ghost predicate Has(f: Fleet, a: Addresses, types: set<NodeType>, m: States)
    requires f.Keys <= a.Keys
  {
    forall n :: (n in m <==> n in f && f[n].nodeType in types) && (n in m ==> m[n] == MachineState(f[n].nodeType, a[n]))
  }

  lemma AddedHas(before: States, types: set<NodeType>, t: NodeType, f: Fleet, a: Addresses, after: States)
    requires f.Keys <= a.Keys && Has(f, a, types, before) && Added(before, t, f, a, after)
    ensures Has(f, a, types + {t}, after)
  {}

  /** One more node type's output filled in. */
  lemma FillHas(o: TerraformOutput, before: States, types: set<NodeType>, t: NodeType, f: Fleet, a: Addresses,
      after: States)
    requires f.Keys <= a.Keys && Reports(o.IPs(t), o.clusterName, f, a, t) && Has(f, a, types, before)
    requires Filled(before, o.clusterName, t, o.IPs(t), o.IPs(t).Keys, after)
    ensures Has(f, a, types + {t}, after)
  {
    hide Filled, Reports, Has;
    FillsExactly(before, o.clusterName, t, o.IPs(t), after, f, a);
    AddedHas(before, types, t, f, a, after);
  }

  lemma NodesHave(o: TerraformOutput, f: Fleet, a: Addresses, m: States)
    requires o.Describes(f, a) && o.Nodes(m)
    ensures Has(f, a, {Master, Worker}, m)
  {
    hide Filled, Reports, TerraformOutput.IPs;
    var m1 :| Filled(map[], o.clusterName, Master, o.IPs(Master), o.IPs(Master).Keys, m1)
           && Filled(m1, o.clusterName, Worker, o.IPs(Worker), o.IPs(Worker).Keys, m);
    assert Has(f, a, {}, map[]);
    hide Has;
    FillHas(o, map[], {}, Master, f, a, m1);
    FillHas(o, m1, {} + {Master}, Worker, f, a, m);
    assert {} + {Master} + {Worker} == {Master, Worker};
  }

  /** Where load balancers are no machines: for every configuration, every cluster name, and whatever is reported
      of load balancers, the states carry exactly the configured masters and workers, each with its own node type
      and addresses. */
  lemma NodesComeBack(o: TerraformOutput, f: Fleet, a: Addresses, m: States)
    requires o.Describes(f, a) && o.Nodes(m)
    ensures Expected(Servers(f), a, m)
  {
    hide TerraformOutput.Nodes, Reports;
    NodesHave(o, f, a, m);
    hide TerraformOutput.Describes;
    forall n | n in f ensures f[n].nodeType in {Master, Worker} <==> n in Servers(f) {
      match f[n].nodeType case Master => case Worker => case LoadBalancer =>
    }
  }

  /** With load balancers among the machines. */
  lemma NamesComeBack(o: TerraformOutput, f: Fleet, a: Addresses, m: States)
    requires o.DescribesAll(f, a) && o.NodesAndLoadBalancers(m)
    ensures Expected(f, a, m)
  {
    hide Filled, Reports, TerraformOutput.IPs, TerraformOutput.Nodes;
    var m1 :| o.Nodes(m1)
           && Filled(m1, o.clusterName, LoadBalancer, o.IPs(LoadBalancer), o.IPs(LoadBalancer).Keys, m);
    NodesHave(o, f, a, m1);
    FillHas(o, m1, {Master, Worker}, LoadBalancer, f, a, m);
    forall n | n in f ensures f[n].nodeType in {Master, Worker} + {LoadBalancer} {
      match f[n].nodeType case Master => case Worker => case LoadBalancer =>
    }
  }

  /******* One name everywhere *******/

  /** kubectl puts the cluster name before a node name. */
  function FullNodeName(prefix: string, name: Name): string {
    prefix + "-" + name
  }

  /******* Unprefixed names *******/

  lemma {:induction false} Longest(names: set<string>) returns (n: string)
    requires names != {}
    ensures n in names && forall m :: m in names ==> |m| <= |n|
    decreases |names|
  {
    n :| n in names;
    if names != {n} {
      var other := Longest(names - {n});
      if |other| > |n| { n := other; }
    }
  }

  lemma BareNamesKept(cluster: string, t: NodeType, ips: Addresses, m: States, n: Name)
    requires Filled(map[], cluster, t, ips, ips.Keys, m)
    requires forall k :: k in ips ==> !HasPrefix(k, cluster + "-")
    ensures n in m <==> n in ips
    ensures n in m ==> m[n] == MachineState(t, ips[n])
  {
    var prefix := cluster + "-";
    if n in ips {
      assert TrimPrefix(n, prefix) == n;
      assert n in m && From(cluster, t, ips, ips.Keys, n, m[n]);
    }
    if n in m {
      var k :| k in ips && TrimPrefix(k, prefix) == n && m[n] == MachineState(t, ips[k]);
      assert k == n;
    }
  }

  /** The longest name with the prefix is lost: a name trimmed to it would be longer still. */
  lemma BareNameLost(cluster: string, t: NodeType, ips: Addresses, m: States) returns (n: Name)
    requires Filled(map[], cluster, t, ips, ips.Keys, m)
    requires exists k :: k in ips && HasPrefix(k, cluster + "-")
    ensures n in ips && n !in m
  {
    var prefix := cluster + "-";
    var prefixed := set k | k in ips && HasPrefix(k, prefix);
    var some :| some in ips && HasPrefix(some, prefix);
    assert some in prefixed;
    n := Longest(prefixed);
    forall k | k in ips ensures TrimPrefix(k, prefix) != n {
      if HasPrefix(k, prefix) {
        assert k in prefixed && |TrimPrefix(k, prefix)| < |k| <= |n|;
      }
    }
    hide TrimPrefix;
  }

  /** With unprefixed names (AWS), one node type's states carry the configured names exactly if none of
      them starts with the cluster name and a dash. */
  lemma BareNamesComeBack(cluster: string, t: NodeType, ips: Addresses, f: Fleet, a: Addresses, m: States)
    requires f.Keys <= a.Keys && ReportsBare(ips, f, a, t)
    requires Filled(map[], cluster, t, ips, ips.Keys, m)
    ensures (m == map n | n in ips :: MachineState(t, a[n])) <==> forall n :: n in ips ==> !HasPrefix(n, cluster + "-")
  {
    hide Filled, HasPrefix, Configured;
    if forall n :: n in ips ==> !HasPrefix(n, cluster + "-") {
      forall n ensures (n in m <==> n in ips) && (n in m && n in ips ==> m[n] == MachineState(t, ips[n])) {
        BareNamesKept(cluster, t, ips, m, n);
      }
    } else {
      var n := BareNameLost(cluster, t, ips, m);
    }
  }
}
