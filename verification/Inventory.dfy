/**
 The Ansible inventory: the text rendered from the machine states, and a reader of INI inventories
 that gets the groups and addresses back.
 */
module Inventory {
  import opened Wrappers
  import opened Text
  import opened Fleet
  import opened Names

  /******* The order of a template's `range` over a map *******/

  predicate Less(a: string, b: string) {
    b != "" && (a == "" || a[0] < b[0] || (a[0] == b[0] && Less(a[1..], b[1..])))
  }

  /** The order is lexicographic by character: the first difference decides, and a prefix comes first. */
  lemma {:induction false} LessExactly(a: string, b: string)
    ensures Less(a, b) <==> exists k :: 0 <= k <= |a| && k < |b| && a[..k] == b[..k] && (k == |a| || a[k] < b[k])
    decreases |a|
  {
    if a != "" && b != "" && a[0] == b[0] {
      var a', b' := a[1..], b[1..];
      LessExactly(a', b');
      if k :| 0 <= k <= |a'| && k < |b'| && a'[..k] == b'[..k] && (k == |a'| || a'[k] < b'[k]) {
        assert a[..k + 1] == [a[0]] + a'[..k] && b[..k + 1] == [b[0]] + b'[..k];
      }
      if k :| 0 <= k <= |a| && k < |b| && a[..k] == b[..k] && (k == |a| || a[k] < b[k]) {
        assert k > 0 && a'[..k - 1] == a[..k][1..] && b'[..k - 1] == b[..k][1..];
      }
    } else if b != "" && (a == "" || a[0] < b[0]) {
      assert a[..0] == b[..0];
    } else {
      forall k | 0 <= k <= |a| && k < |b| && a[..k] == b[..k] ensures k == 0 || a[0] == b[0] { SameStart(a, b, k); }
    }
  }

  lemma SameStart(a: string, b: string, k: nat)
    requires k <= |a| && k <= |b| && a[..k] == b[..k]
    ensures k == 0 || a[0] == b[0]
  {
    if k > 0 { assert a[..k][0] == a[0] && b[..k][0] == b[0]; }
  }

  lemma {:induction false} LessTotal(a: string, b: string)
    ensures a == b || Less(a, b) || Less(b, a)
    ensures !(Less(a, b) && Less(b, a)) && !Less(a, a)
  {
    if a != "" { LessTotal(a[1..], a[1..]); }
    if a != "" && b != "" {
      LessTotal(a[1..], b[1..]);
      assert a[0] == b[0] && a[1..] == b[1..] ==> a == b by { assert a == [a[0]] + a[1..] && b == [b[0]] + b[1..]; }
    }
  }

  lemma {:induction false} LessTransitive(a: string, b: string, c: string)
    requires Less(a, b) && Less(b, c)
    ensures Less(a, c)
  {
    if a != "" && a[0] == b[0] == c[0] { LessTransitive(a[1..], b[1..], c[1..]); }
  }

  function Insert(n: Name, s: seq<Name>): seq<Name> {
    if s == [] || Less(n, s[0]) then [n] + s else [s[0]] + Insert(n, s[1..])
  }

  /** The keys as the map yields them, sorted. */
  function Sort(order: seq<Name>): seq<Name> {
    if order == [] then [] else Insert(order[0], Sort(order[1..]))
  }

  ghost predicate Increasing(s: seq<Name>) {
    forall i, j :: 0 <= i < j < |s| ==> Less(s[i], s[j])
  }

  /** An iteration order of a map with these keys. */
  ghost predicate Enumerates(order: seq<Name>, keys: set<Name>) {
    && (forall n :: n in order <==> n in keys)
    && (forall i, j :: 0 <= i < j < |order| ==> order[i] != order[j])
  }

  lemma {:induction false} Inserted(n: Name, s: seq<Name>)
    requires Increasing(s) && n !in s
    ensures Increasing(Insert(n, s)) && forall m :: m in Insert(n, s) <==> m == n || m in s
    decreases |s|
  {
    if s != [] {
      LessTotal(n, s[0]);
      if Less(n, s[0]) {
        forall j | 0 < j < |s| ensures Less(n, s[j]) { LessTransitive(n, s[0], s[j]); }
      } else {
        var rest := Insert(n, s[1..]);
        Inserted(n, s[1..]);
        forall j | 0 <= j < |rest| ensures Less(s[0], rest[j]) {
          assert rest[j] in rest;
          assert rest[j] in s[1..] ==> exists i :: 0 < i < |s| && s[i] == rest[j];
        }
      }
    }
  }

  lemma {:induction false} Sorted(order: seq<Name>, keys: set<Name>)
    requires Enumerates(order, keys)
    ensures Increasing(Sort(order)) && forall n :: n in Sort(order) <==> n in keys
    decreases |order|
  {
    if order != [] {
      assert forall n :: n in order <==> n == order[0] || n in order[1..];
      Sorted(order[1..], keys - {order[0]});
      Inserted(order[0], Sort(order[1..]));
    }
  }

  lemma NoElements(s: seq<Name>)
    ensures (forall n :: n !in s) ==> s == []
  {
    assert s != [] ==> s[0] in s;
  }

  lemma {:induction false} OneIncreasing(s: seq<Name>, t: seq<Name>)
    requires Increasing(s) && Increasing(t) && forall n :: n in s <==> n in t
    ensures s == t
    decreases |s|
  {
    if s == [] || t == [] {
      NoElements(s);
      NoElements(t);
    } else {
      assert s[0] in t && t[0] in s;
      LessTotal(s[0], t[0]);
      assert s[0] == t[0];
      forall n ensures n in s[1..] <==> n in t[1..] {
        LessTotal(n, n);
        assert n in s <==> n == s[0] || n in s[1..];
        assert n in t <==> n == t[0] || n in t[1..];
        assert s[0] !in s[1..] && t[0] !in t[1..] by { LessTotal(s[0], s[0]); }
      }
      OneIncreasing(s[1..], t[1..]);
      assert s == [s[0]] + s[1..] && t == [t[0]] + t[1..];
    }
  }

  /** Sorting makes the iteration order irrelevant. */
  lemma OrderIrrelevant(order: seq<Name>, order': seq<Name>, keys: set<Name>)
    requires Enumerates(order, keys) && Enumerates(order', keys)
    ensures Sort(order) == Sort(order')
  {
    Sorted(order, keys);
    Sorted(order', keys);
    OneIncreasing(Sort(order), Sort(order'));
  }

  /******* The template *******/

  function OfType(s: States, t: NodeType): States {
    map n | n in s && s[n].nodeType == t :: s[n]
  }

  /** The template's function, a loop over the states in any order. */
  method MachinesByNodeType(states: States, t: NodeType) returns (machines: States)
    ensures machines == OfType(states, t)
  {
    machines := map[];
    var todo := states.Keys;
    while todo != {}
      invariant todo <= states.Keys
      invariant machines == map n | n in states && n !in todo && states[n].nodeType == t :: states[n]
      decreases |todo|
    {
      var n :| n in todo;
      if states[n].nodeType == t {
        machines := machines[n := states[n]];
      }
      todo := todo - {n};
    }
  }

  /** The settings that reach the section of variables. */
  datatype Settings = Settings(
    controlPlaneEndpoint: string,
    controlPlanePort: string,       // empty for port 0
    controlPlanePublicIP: string,
    privateNetworkCIDR: string,
    cloudProvider: string,
    cloudConfig: string,
    cloudProviderVars: string,
    oidcIssuerURL: string,
    oidcClientID: string,
    oidcUsernameClaim: string,
    oidcGroupsClaim: string,
    calicoMTU: string,
    extraArgs: string,
    internalLBGroups: seq<string>)

  function HostLine(cluster: string, n: Name, a: Address): string {
    Join([InstanceName(cluster, n), "ansible_host=" + a.publicIP, "private_ip=" + a.privateIP], ' ')
  }

  function HostLines(cluster: string, s: States, keys: seq<Name>): (ls: seq<string>)
    requires forall n :: n in keys ==> n in s
    ensures |ls| == |keys| && forall i :: 0 <= i < |keys| ==> ls[i] == HostLine(cluster, keys[i], s[keys[i]].address)
  {
    seq(|keys|, i requires 0 <= i < |keys| => HostLine(cluster, keys[i], s[keys[i]].address))
  }

  function NameLines(cluster: string, keys: seq<Name>): (ls: seq<string>)
    ensures |ls| == |keys| && forall i :: 0 <= i < |keys| ==> ls[i] == InstanceName(cluster, keys[i])
  {
    seq(|keys|, i requires 0 <= i < |keys| => InstanceName(cluster, keys[i]))
  }

  function Var(key: string, value: string): string {
    key + "='" + value + "'"
  }

  function IfSet(key: string, value: string): seq<string> {
    if value == "" then [] else [Var(key, value)]
  }

  function KubernetesVars(): seq<string> {
    ["k8s_pod_cidr=192.168.0.0/16", "k8s_service_cidr=10.96.0.0/12", ""]
  }

  function SSHVars(): seq<string> {
    ["ansible_user='ubuntu'", "ansible_port=22",
     "# TODO: move this to ansible.cfg" + " when upgraded to ansible 2.8",
     "ansible_python_interpreter=/usr/bin/python3", ""]
  }

  function ControlPlaneVars(s: Settings): seq<string> {
    IfSet("control_plane_endpoint", s.controlPlaneEndpoint)
      + (IfSet("control_plane_port", s.controlPlanePort)
        + (IfSet("public_endpoint", s.controlPlanePublicIP)
          + IfSet("private_network_cidr", s.privateNetworkCIDR)))
  }

  function CloudVars(s: Settings): seq<string> {
    IfSet("cloud_provider", s.cloudProvider)
      + (IfSet("cloud_config", s.cloudConfig) + IfSet("cloud_provider_vars", s.cloudProviderVars))
  }

  function OIDCVars(s: Settings): seq<string> {
    [Var("oidc_issuer_url", s.oidcIssuerURL), Var("oidc_client_id", s.oidcClientID),
     Var("oidc_username_claim", s.oidcUsernameClaim), Var("oidc_groups_claim", s.oidcGroupsClaim), ""]
  }

  function NetworkVars(s: Settings): seq<string> {
    [Var("calico_mtu", s.calicoMTU), "", Var("kubeadm_init_extra_args", s.extraArgs), ""]
  }

  function AllVars(cluster: string, s: Settings): seq<string> {
    KubernetesVars() + (SSHVars() + (ControlPlaneVars(s) + (CloudVars(s) +
        ([Var("cluster_name", cluster), ""] + (OIDCVars(s) + NetworkVars(s))))))
  }

  const ALL_VARS := "[all:vars]"
  const MASTERS := "[masters]"
  const WORKERS := "[workers]"
  const LOAD_BALANCERS := "[loadbalancers]"
  const INTERNAL_LB := "[internal_lb:children]"
  const NODES := "[nodes:children]"

  /** A section: its header, empty for the lines before the first one, and its lines. */
  datatype Block = Block(header: string, body: seq<string>)

  type Doc = seq<Block>

  /** The iteration orders met in the five `range`s over machines. */
  datatype Orders = Orders(masters: seq<Name>, workers: seq<Name>, masters2: seq<Name>, workers2: seq<Name>,
      lbs: seq<Name>)

  ghost predicate OrdersOf(o: Orders, s: States) {
    && Enumerates(o.masters, OfType(s, Master).Keys) && Enumerates(o.masters2, OfType(s, Master).Keys)
    && Enumerates(o.workers, OfType(s, Worker).Keys) && Enumerates(o.workers2, OfType(s, Worker).Keys)
    && Enumerates(o.lbs, OfType(s, LoadBalancer).Keys)
  }

  function LoadBalancerBlock(cluster: string, s: States, lbs: seq<Name>): Doc
    requires forall n :: n in lbs ==> n in s
  {
    if lbs == [] then [] else [Block(LOAD_BALANCERS, HostLines(cluster, s, lbs) + ["", ""])]
  }

  function InternalBlock(groups: seq<string>): Doc {
    if groups == [] then [] else [Block(INTERNAL_LB, groups + [""])]
  }

  /** The sections after the first lines. */
  function Sections(cluster: string, s: States, v: Settings, k: Orders): Doc
    requires forall n :: n in k.lbs ==> n in s
  {
    [Block(ALL_VARS, AllVars(cluster, v))]
    + ([Block(MASTERS, NameLines(cluster, k.masters2) + ["", ""])]
      + ([Block(WORKERS, NameLines(cluster, k.workers2) + (["", ""] + if k.lbs == [] then [""] else []))]
        + (LoadBalancerBlock(cluster, s, k.lbs)
          + (InternalBlock(v.internalLBGroups) + [Block(NODES, ["masters", "workers"])]))))
  }

  /** The template, given the sorted keys of each `range`. */
  function Template(cluster: string, s: States, v: Settings, k: Orders): Doc
    requires forall n :: n in k.masters || n in k.workers || n in k.lbs ==> n in s
  {
    [Block("", HostLines(cluster, s, k.masters) + ([""] + (HostLines(cluster, s, k.workers) + ["", ""])))]
    + Sections(cluster, s, v, k)
  }

  function Flat(d: Doc): seq<string> {
    if d == [] then []
    else (if d[0].header == "" then d[0].body else [d[0].header] + d[0].body) + Flat(d[1..])
  }

  function Unlines(ls: seq<string>): string {
    if ls == [] then "" else ls[0] + "\n" + Unlines(ls[1..])
  }

  function SortAll(o: Orders): Orders {
    Orders(Sort(o.masters), Sort(o.workers), Sort(o.masters2), Sort(o.workers2), Sort(o.lbs))
  }

  lemma SortAllOf(o: Orders, s: States)
    requires OrdersOf(o, s)
    ensures var k := SortAll(o);
            && k.masters2 == k.masters && k.workers2 == k.workers
            && (forall n :: n in k.masters <==> n in s && s[n].nodeType == Master)
            && (forall n :: n in k.workers <==> n in s && s[n].nodeType == Worker)
            && (forall n :: n in k.lbs <==> n in s && s[n].nodeType == LoadBalancer)
  {
    OrderIrrelevant(o.masters, o.masters2, OfType(s, Master).Keys);
    OrderIrrelevant(o.workers, o.workers2, OfType(s, Worker).Keys);
    Sorted(o.masters, OfType(s, Master).Keys);
    Sorted(o.workers, OfType(s, Worker).Keys);
    Sorted(o.lbs, OfType(s, LoadBalancer).Keys);
  }

  /** The rendered text for given iteration orders. */
  ghost function Render(cluster: string, s: States, v: Settings, o: Orders): string
    requires OrdersOf(o, s)
  {
    SortAllOf(o, s);
    Unlines(Flat(Template(cluster, s, v, SortAll(o))))
  }

  /** The text does not depend on how the maps happen to be iterated. */
  lemma RenderIsDeterministic(cluster: string, s: States, v: Settings, o: Orders, o': Orders)
    requires OrdersOf(o, s) && OrdersOf(o', s)
    ensures Render(cluster, s, v, o) == Render(cluster, s, v, o')
  {
    OrderIrrelevant(o.masters, o'.masters, OfType(s, Master).Keys);
    OrderIrrelevant(o.masters2, o'.masters2, OfType(s, Master).Keys);
    OrderIrrelevant(o.workers, o'.workers, OfType(s, Worker).Keys);
    OrderIrrelevant(o.workers2, o'.workers2, OfType(s, Worker).Keys);
    OrderIrrelevant(o.lbs, o'.lbs, OfType(s, LoadBalancer).Keys);
  }

  /******* A reader of INI inventories *******/

  function LinesOf(text: string): seq<string>
    decreases |text|
  {
    if text == "" then []
    else
      var i := Index(text, '\n');
      [text[..i]] + LinesOf(text[if i < |text| then i + 1 else i..])
  }

  predicate IsHeader(line: string) { line != "" && line[0] == '[' }

  predicate Ignored(line: string) { line == "" || line[0] == '#' || line[0] == ';' }

  /** The lines that count in the sections headed `want`, reading on in section `at`. */
  function Section(ls: seq<string>, at: string, want: string): seq<string> {
    if ls == [] then []
    else if IsHeader(ls[0]) then Section(ls[1..], ls[0], want)
    else (if at == want && !Ignored(ls[0]) then [ls[0]] else []) + Section(ls[1..], at, want)
  }

  datatype Host = Host(name: string, address: Option<Address>)

  /** A line `name ansible_host=A private_ip=B`. */
  function ParseHost(line: string): Host {
    var parts := Split(line, ' ');
    if |parts| == 3 && HasPrefix(parts[1], "ansible_host=") && HasPrefix(parts[2], "private_ip=")
    then Host(parts[0], Some(Address(parts[1][13..], parts[2][11..])))
    else Host(line, None)
  }

  /** The address given where the host was introduced. */
  function Find(hosts: seq<string>, name: string): Option<Address> {
    if hosts == [] then None
    else if ParseHost(hosts[0]).name == name then ParseHost(hosts[0]).address
    else Find(hosts[1..], name)
  }

  function Members(names: seq<string>, hosts: seq<string>): (ms: seq<Host>)
    ensures |ms| == |names| && forall i :: 0 <= i < |names| ==> ms[i] == Host(names[i], Find(hosts, names[i]))
  {
    seq(|names|, i requires 0 <= i < |names| => Host(names[i], Find(hosts, names[i])))
  }

  function ParseHosts(ls: seq<string>): (hs: seq<Host>)
    ensures |hs| == |ls| && forall i :: 0 <= i < |ls| ==> hs[i] == ParseHost(ls[i])
  {
    seq(|ls|, i requires 0 <= i < |ls| => ParseHost(ls[i]))
  }

  datatype Groups = Groups(masters: seq<Host>, workers: seq<Host>, loadBalancers: seq<Host>)

  function Read(text: string): Groups {
    var ls := LinesOf(text);
    var hosts := Section(ls, "", "");
    Groups(Members(Section(ls, "", MASTERS), hosts), Members(Section(ls, "", WORKERS), hosts),
           ParseHosts(Section(ls, "", LOAD_BALANCERS)))
  }

  /******* Reading undoes rendering *******/

  predicate Word(s: string) { ' ' !in s && '\n' !in s }

  function Values(v: Settings): seq<string> {
    [v.controlPlaneEndpoint, v.controlPlanePort, v.controlPlanePublicIP, v.privateNetworkCIDR, v.cloudProvider,
     v.cloudConfig, v.cloudProviderVars, v.oidcIssuerURL, v.oidcClientID, v.oidcUsernameClaim, v.oidcGroupsClaim,
     v.calicoMTU, v.extraArgs]
  }

  /** Names and addresses are words, the cluster name does not look like a header or a comment, and no
      setting breaks its line. */
  ghost predicate Clean(cluster: string, s: States, v: Settings) {
    && Word(cluster) && !IsHeader(cluster) && (cluster != "" ==> !Ignored(cluster))
    && (forall n :: n in s ==> Word(n) && Word(s[n].address.publicIP) && Word(s[n].address.privateIP))
    && (forall x :: x in Values(v) ==> '\n' !in x)
    && (forall l :: l in v.internalLBGroups ==> BodyLine(l))
  }

  predicate BodyLine(l: string) { '\n' !in l && !IsHeader(l) }

  ghost predicate Body(ls: seq<string>) {
    forall l :: l in ls ==> BodyLine(l)
  }

  lemma {:induction false} LinesOfUnlines(ls: seq<string>)
    requires forall l :: l in ls ==> '\n' !in l
    ensures LinesOf(Unlines(ls)) == ls
    decreases |ls|
  {
    if ls != [] {
      var text := Unlines(ls);
      IndexOf(ls[0], '\n', Unlines(ls[1..]));
      assert text[..|ls[0]|] == ls[0] && text[|ls[0]| + 1..] == Unlines(ls[1..]);
      LinesOfUnlines(ls[1..]);
    }
  }

  function Kept(ls: seq<string>): seq<string> {
    if ls == [] then [] else (if Ignored(ls[0]) then [] else [ls[0]]) + Kept(ls[1..])
  }

  lemma {:induction false} SectionBody(ls: seq<string>, rest: seq<string>, at: string, want: string)
    requires Body(ls)
    ensures Section(ls + rest, at, want) == (if at == want then Kept(ls) else []) + Section(rest, at, want)
    decreases |ls|
  {
    if ls == [] {
      assert ls + rest == rest;
    } else {
      assert (ls + rest)[1..] == ls[1..] + rest;
      assert ls[0] in ls && !IsHeader(ls[0]);
      SectionBody(ls[1..], rest, at, want);
      hide IsHeader, Ignored, BodyLine;
    }
  }

  lemma {:induction false} KeptConcat(a: seq<string>, b: seq<string>)
    ensures Kept(a + b) == Kept(a) + Kept(b)
    decreases |a|
  {
    if a == [] {
      assert a + b == b;
    } else {
      assert (a + b)[1..] == a[1..] + b;
      KeptConcat(a[1..], b);
    }
  }

  lemma {:induction false} KeptAll(ls: seq<string>)
    requires forall l :: l in ls ==> !Ignored(l)
    ensures Kept(ls) == ls
    decreases |ls|
  {
    if ls != [] { KeptAll(ls[1..]); }
  }

  /** What the blocks with this header keep. */
  function InDoc(d: Doc, want: string): seq<string> {
    if d == [] then [] else (if d[0].header == want then Kept(d[0].body) else []) + InDoc(d[1..], want)
  }

  ghost predicate ProperBlock(b: Block) {
    IsHeader(b.header) && '\n' !in b.header && Body(b.body)
  }

  lemma {:induction false} SectionDoc(d: Doc, at: string, want: string)
    requires forall b :: b in d ==> ProperBlock(b)
    ensures Section(Flat(d), at, want) == InDoc(d, want)
    decreases |d|
  {
    if d != [] {
      assert ProperBlock(d[0]);
      SectionDoc(d[1..], d[0].header, want);
      var rest := d[0].body + Flat(d[1..]);
      assert Flat(d) == [d[0].header] + rest;
      assert Section(Flat(d), at, want) == Section(rest, d[0].header, want);
      SectionBody(d[0].body, Flat(d[1..]), d[0].header, want);
    }
  }

  lemma {:induction false} FlatLines(d: Doc)
    requires forall b :: b in d ==> '\n' !in b.header && Body(b.body)
    ensures forall l :: l in Flat(d) ==> '\n' !in l
    decreases |d|
  {
    if d != [] {
      assert d[0] in d;
      FlatLines(d[1..]);
    }
  }

  /** Reading the sections of a rendered document. */
  lemma ReadDoc(first: seq<string>, d: Doc, want: string)
    requires Body(first) && forall b :: b in d ==> ProperBlock(b)
    ensures Section(LinesOf(Unlines(Flat([Block("", first)] + d))), "", want)
              == (if want == "" then Kept(first) else []) + InDoc(d, want)
  {
    var all := [Block("", first)] + d;
    assert all[1..] == d;
    assert Flat(all) == first + Flat(d);
    forall b | b in all ensures '\n' !in b.header && Body(b.body) {
      if b in d { assert ProperBlock(b); }
    }
    FlatLines(all);
    LinesOfUnlines(Flat(all));
    SectionBody(first, Flat(d), "", want);
    SectionDoc(d, "", want);
  }

  /******* The rendered blocks *******/

  lemma PartsParse(host: string, a: Address)
    requires Word(host) && Word(a.publicIP) && Word(a.privateIP)
    ensures var line := Join([host, "ansible_host=" + a.publicIP, "private_ip=" + a.privateIP], ' ');
            ParseHost(line) == Host(host, Some(a)) && '\n' !in line && host + [' '] <= line
  {
    var public, private := "ansible_host=" + a.publicIP, "private_ip=" + a.privateIP;
    var parts := [host, public, private];
    assert Word(public) && Word(private);
    SplitJoin(parts, ' ');
    JoinLacks(parts, ' ', '\n');
    assert Join(parts, ' ') == host + [' '] + Join(parts[1..], ' ');
    hide Split, Join;
    assert public[..13] == "ansible_host=" && public[13..] == a.publicIP;
    assert private[..11] == "private_ip=" && private[11..] == a.privateIP;
  }

  lemma HostLineParses(cluster: string, n: Name, a: Address)
    requires Word(cluster) && Word(n) && Word(a.publicIP) && Word(a.privateIP)
    requires !IsHeader(cluster) && (cluster != "" ==> !Ignored(cluster))
    ensures ParseHost(HostLine(cluster, n, a)) == Host(InstanceName(cluster, n), Some(a))
    ensures BodyLine(HostLine(cluster, n, a)) && !Ignored(HostLine(cluster, n, a))
  {
    var host := InstanceName(cluster, n);
    NameLineReads(cluster, n);
    PartsParse(host, a);
    hide ParseHost, Join;
    assert HostLine(cluster, n, a)[0] == (host + [' '])[0];
  }

  lemma NameLineReads(cluster: string, n: Name)
    requires Word(cluster) && Word(n) && !IsHeader(cluster) && (cluster != "" ==> !Ignored(cluster))
    ensures Word(InstanceName(cluster, n)) && BodyLine(InstanceName(cluster, n)) && !Ignored(InstanceName(cluster, n))
  {
    assert InstanceName(cluster, n)[0] == (cluster + "-")[0];
  }

  lemma HostBlock(cluster: string, s: States, v: Settings, keys: seq<Name>)
    requires Clean(cluster, s, v) && forall n :: n in keys ==> n in s
    ensures Body(HostLines(cluster, s, keys)) && Kept(HostLines(cluster, s, keys)) == HostLines(cluster, s, keys)
  {
    var ls := HostLines(cluster, s, keys);
    forall l | l in ls ensures BodyLine(l) && !Ignored(l) {
      var i :| 0 <= i < |ls| && l == ls[i];
      HostLineParses(cluster, keys[i], s[keys[i]].address);
    }
    KeptAll(ls);
  }

  lemma NameBlock(cluster: string, s: States, v: Settings, keys: seq<Name>)
    requires Clean(cluster, s, v) && forall n :: n in keys ==> n in s
    ensures Body(NameLines(cluster, keys)) && Kept(NameLines(cluster, keys)) == NameLines(cluster, keys)
  {
    var ls := NameLines(cluster, keys);
    forall l | l in ls ensures BodyLine(l) && !Ignored(l) {
      var i :| 0 <= i < |ls| && l == ls[i];
      NameLineReads(cluster, keys[i]);
    }
    KeptAll(ls);
  }

  /** Blank lines at the end add nothing. */
  lemma Padded(ls: seq<string>, blanks: seq<string>)
    requires Body(ls) && forall l :: l in blanks ==> l == ""
    ensures Body(ls + blanks) && Kept(ls + blanks) == Kept(ls)
  {
    KeptConcat(ls, blanks);
    KeptBlanks(blanks);
  }

  lemma {:induction false} KeptBlanks(blanks: seq<string>)
    requires forall l :: l in blanks ==> l == ""
    ensures Kept(blanks) == []
    decreases |blanks|
  {
    if blanks != [] {
      assert blanks[0] in blanks && forall l :: l in blanks[1..] ==> l in blanks;
      KeptBlanks(blanks[1..]);
    }
  }

  lemma BodyConcat(a: string, b: string)
    requires a != "" && BodyLine(a) && '\n' !in b
    ensures BodyLine(a + b)
  {
    assert (a + b)[0] == a[0];
  }

  lemma KubernetesVarsAreBody()
    ensures Body(KubernetesVars())
  {
    assert BodyLine("k8s_pod_cidr=192.168.0.0/16");
    assert BodyLine("k8s_service_cidr=10.96.0.0/12");
    assert BodyLine("");
    hide BodyLine;
  }

  lemma SSHTexts()
    ensures BodyLine("ansible_user='ubuntu'") && BodyLine("ansible_port=22")
    ensures BodyLine("ansible_python_interpreter=/usr/bin/python3") && BodyLine("")
  {}

  lemma CommentIsBody()
    ensures BodyLine("# TODO: move this to ansible.cfg" + " when upgraded to ansible 2.8")
  {
    BodyConcat("# TODO: move this to ansible.cfg", " when upgraded to ansible 2.8");
  }

  lemma SSHVarsAreBody()
    ensures Body(SSHVars())
  {
    hide BodyLine;
    SSHTexts();
    CommentIsBody();
  }

  lemma VarIsBody(key: string, value: string)
    requires key != "" && BodyLine(key) && '\n' !in value
    ensures BodyLine(Var(key, value)) && Body(IfSet(key, value))
  {
    assert Var(key, value)[0] == key[0];
  }

  lemma ControlPlaneVarsAreBody(v: Settings)
    requires forall x :: x in Values(v) ==> '\n' !in x
    ensures Body(ControlPlaneVars(v))
  {
    assert Values(v)[0] in Values(v) && Values(v)[1] in Values(v) && Values(v)[2] in Values(v)
        && Values(v)[3] in Values(v);
    VarIsBody("control_plane_endpoint", v.controlPlaneEndpoint);
    VarIsBody("control_plane_port", v.controlPlanePort);
    VarIsBody("public_endpoint", v.controlPlanePublicIP);
    VarIsBody("private_network_cidr", v.privateNetworkCIDR);
    hide BodyLine, IfSet, Values;
  }

  lemma CloudVarsAreBody(v: Settings)
    requires forall x :: x in Values(v) ==> '\n' !in x
    ensures Body(CloudVars(v))
  {
    assert Values(v)[4] in Values(v) && Values(v)[5] in Values(v) && Values(v)[6] in Values(v);
    VarIsBody("cloud_provider", v.cloudProvider);
    VarIsBody("cloud_config", v.cloudConfig);
    VarIsBody("cloud_provider_vars", v.cloudProviderVars);
    hide BodyLine, IfSet, Values;
  }

  lemma OIDCVarsAreBody(v: Settings)
    requires forall x :: x in Values(v) ==> '\n' !in x
    ensures Body(OIDCVars(v))
  {
    assert Values(v)[7] in Values(v) && Values(v)[8] in Values(v) && Values(v)[9] in Values(v)
        && Values(v)[10] in Values(v);
    VarIsBody("oidc_issuer_url", v.oidcIssuerURL);
    VarIsBody("oidc_client_id", v.oidcClientID);
    VarIsBody("oidc_username_claim", v.oidcUsernameClaim);
    VarIsBody("oidc_groups_claim", v.oidcGroupsClaim);
    assert BodyLine("");
    hide BodyLine, IfSet, Values, Var;
  }

  lemma NetworkVarsAreBody(v: Settings)
    requires forall x :: x in Values(v) ==> '\n' !in x
    ensures Body(NetworkVars(v))
  {
    assert Values(v)[11] in Values(v) && Values(v)[12] in Values(v);
    VarIsBody("calico_mtu", v.calicoMTU);
    VarIsBody("kubeadm_init_extra_args", v.extraArgs);
    assert BodyLine("");
    hide BodyLine, IfSet, Values, Var;
  }

  lemma AllVarsIsBody(cluster: string, v: Settings)
    requires '\n' !in cluster && forall x :: x in Values(v) ==> '\n' !in x
    ensures Body(AllVars(cluster, v))
  {
    KubernetesVarsAreBody();
    SSHVarsAreBody();
    ControlPlaneVarsAreBody(v);
    CloudVarsAreBody(v);
    VarIsBody("cluster_name", cluster);
    OIDCVarsAreBody(v);
    NetworkVarsAreBody(v);
    assert BodyLine("");
    hide KubernetesVars, SSHVars, ControlPlaneVars, CloudVars, OIDCVars, NetworkVars, BodyLine, Var;
  }

  /******* The round trip *******/

  lemma Headers()
    ensures IsHeader(ALL_VARS) && IsHeader(MASTERS) && IsHeader(WORKERS) && IsHeader(LOAD_BALANCERS)
    ensures IsHeader(INTERNAL_LB) && IsHeader(NODES)
    ensures |ALL_VARS| == 10 && |MASTERS| == |WORKERS| == 9 && MASTERS[1] != WORKERS[1]
    ensures |LOAD_BALANCERS| == 15 && |INTERNAL_LB| == 22 && |NODES| == 16
    ensures '\n' !in ALL_VARS && '\n' !in MASTERS && '\n' !in WORKERS
    ensures '\n' !in LOAD_BALANCERS && '\n' !in INTERNAL_LB && '\n' !in NODES
  {}

  lemma {:induction false} InDocConcat(a: Doc, b: Doc, want: string)
    ensures InDoc(a + b, want) == InDoc(a, want) + InDoc(b, want)
    decreases |a|
  {
    if a == [] {
      assert a + b == b;
    } else {
      assert (a + b)[1..] == a[1..] + b;
      InDocConcat(a[1..], b, want);
    }
  }

  /** What the blocks after the first lines give a reader, block by block. */
  ghost predicate Gives(d: Doc, masters: seq<string>, workers: seq<string>, lbs: seq<string>) {
    && (forall b :: b in d ==> ProperBlock(b))
    && InDoc(d, MASTERS) == masters && InDoc(d, WORKERS) == workers && InDoc(d, LOAD_BALANCERS) == lbs
    && InDoc(d, "") == []
  }

  lemma GivesBlock(b: Block)
    requires ProperBlock(b)
    ensures Gives([b], if b.header == MASTERS then Kept(b.body) else [],
                  if b.header == WORKERS then Kept(b.body) else [],
                  if b.header == LOAD_BALANCERS then Kept(b.body) else [])
  {
    assert [b][1..] == [];
  }

  lemma GivesConcat(a: Doc, b: Doc, m: seq<string>, w: seq<string>, l: seq<string>,
        m': seq<string>, w': seq<string>, l': seq<string>)
    requires Gives(a, m, w, l) && Gives(b, m', w', l')
    ensures Gives(a + b, m + m', w + w', l + l')
  {
    InDocConcat(a, b, MASTERS);
    InDocConcat(a, b, WORKERS);
    InDocConcat(a, b, LOAD_BALANCERS);
    InDocConcat(a, b, "");
    hide InDoc, ProperBlock;
  }

  lemma LoadBalancersGive(cluster: string, s: States, v: Settings, lbs: seq<Name>)
    requires Clean(cluster, s, v) && forall n :: n in lbs ==> n in s
    ensures Gives(LoadBalancerBlock(cluster, s, lbs), [], [], HostLines(cluster, s, lbs))
  {
    Headers();
    if lbs != [] {
      var hosts := HostLines(cluster, s, lbs);
      HostBlock(cluster, s, v, lbs);
      Padded(hosts, ["", ""]);
      GivesBlock(Block(LOAD_BALANCERS, hosts + ["", ""]));
    }
  }

  lemma InternalGives(groups: seq<string>)
    requires Body(groups)
    ensures Gives(InternalBlock(groups) + [Block(NODES, ["masters", "workers"])], [], [], [])
  {
    Headers();
    assert BodyLine("masters") && BodyLine("workers");
    var last := Block(NODES, ["masters", "workers"]);
    GivesBlock(last);
    if groups == [] {
      assert InternalBlock(groups) + [last] == [last];
    } else {
      Padded(groups, [""]);
      GivesBlock(Block(INTERNAL_LB, groups + [""]));
      GivesConcat(InternalBlock(groups), [last], [], [], [], [], [], []);
    }
  }

  lemma NamesGive(cluster: string, s: States, v: Settings, header: string, keys: seq<Name>, blanks: seq<string>)
    requires Clean(cluster, s, v) && (forall n :: n in keys ==> n in s) && (forall l :: l in blanks ==> l == "")
    requires header == MASTERS || header == WORKERS
    ensures Gives([Block(header, NameLines(cluster, keys) + blanks)],
                  if header == MASTERS then NameLines(cluster, keys) else [],
                  if header == WORKERS then NameLines(cluster, keys) else [], [])
  {
    Headers();
    NameBlock(cluster, s, v, keys);
    Padded(NameLines(cluster, keys), blanks);
    GivesBlock(Block(header, NameLines(cluster, keys) + blanks));
  }

  lemma GivesAll(vars: Doc, masters: Doc, workers: Doc, lbs: Doc, last: Doc, m: seq<string>, w: seq<string>,
      l: seq<string>)
    requires Gives(vars, [], [], []) && Gives(masters, m, [], []) && Gives(workers, [], w, [])
    requires Gives(lbs, [], [], l) && Gives(last, [], [], [])
    ensures Gives(vars + (masters + (workers + (lbs + last))), m, w, l)
  {
    hide Gives;
    assert forall x: seq<string> :: [] + x == x && x + [] == x;
    GivesConcat(lbs, last, [], [], l, [], [], []);
    GivesConcat(workers, lbs + last, [], w, [], [], [], l);
    GivesConcat(masters, workers + (lbs + last), m, [], [], [], w, l);
    GivesConcat(vars, masters + (workers + (lbs + last)), [], [], [], m, w, l);
  }

  lemma VarsGive(cluster: string, s: States, v: Settings)
    requires Clean(cluster, s, v)
    ensures Gives([Block(ALL_VARS, AllVars(cluster, v))], [], [], [])
  {
    Headers();
    AllVarsIsBody(cluster, v);
    hide AllVars;
    GivesBlock(Block(ALL_VARS, AllVars(cluster, v)));
  }

  lemma SectionsGive(cluster: string, s: States, v: Settings, k: Orders)
    requires Clean(cluster, s, v) && forall n :: n in k.masters2 || n in k.workers2 || n in k.lbs ==> n in s
    ensures Gives(Sections(cluster, s, v, k), NameLines(cluster, k.masters2), NameLines(cluster, k.workers2),
                  HostLines(cluster, s, k.lbs))
  {
    assert MASTERS != WORKERS by { Headers(); }
    hide Gives, AllVars, NameLines, HostLines, LoadBalancerBlock, InternalBlock, Body;
    var blanks := ["", ""] + if k.lbs == [] then [""] else [];
    VarsGive(cluster, s, v);
    NamesGive(cluster, s, v, MASTERS, k.masters2, ["", ""]);
    NamesGive(cluster, s, v, WORKERS, k.workers2, blanks);
    LoadBalancersGive(cluster, s, v, k.lbs);
    assert Body(v.internalLBGroups) by { GroupsAreBody(cluster, s, v); }
    InternalGives(v.internalLBGroups);
    GivesAll([Block(ALL_VARS, AllVars(cluster, v))], [Block(MASTERS, NameLines(cluster, k.masters2) + ["", ""])],
             [Block(WORKERS, NameLines(cluster, k.workers2) + blanks)], LoadBalancerBlock(cluster, s, k.lbs),
             InternalBlock(v.internalLBGroups) + [Block(NODES, ["masters", "workers"])],
             NameLines(cluster, k.masters2), NameLines(cluster, k.workers2), HostLines(cluster, s, k.lbs));
  }

  lemma GroupsAreBody(cluster: string, s: States, v: Settings)
    requires Clean(cluster, s, v)
    ensures Body(v.internalLBGroups)
  {}

  lemma KeptFirst(m: seq<string>, w: seq<string>)
    requires Body(m) && Body(w) && Kept(m) == m && Kept(w) == w
    ensures Body(m + ([""] + (w + ["", ""]))) && Kept(m + ([""] + (w + ["", ""]))) == m + w
  {
    assert BodyLine("");
    KeptBlanks([""]);
    hide Kept, BodyLine;
    Padded(w, ["", ""]);
    KeptConcat([""], w + ["", ""]);
    KeptConcat(m, [""] + (w + ["", ""]));
    assert [] + w == w;
  }

  lemma HostsConcat(cluster: string, s: States, a: seq<Name>, b: seq<Name>)
    requires forall n :: n in a || n in b ==> n in s
    ensures HostLines(cluster, s, a + b) == HostLines(cluster, s, a) + HostLines(cluster, s, b)
  {
    hide HostLine;
  }

  lemma FirstLines(cluster: string, s: States, v: Settings, masters: seq<Name>, workers: seq<Name>)
    requires Clean(cluster, s, v) && forall n :: n in masters || n in workers ==> n in s
    ensures var ls := HostLines(cluster, s, masters) + ([""] + (HostLines(cluster, s, workers) + ["", ""]));
            Body(ls) && Kept(ls) == HostLines(cluster, s, masters + workers)
  {
    var m, w := HostLines(cluster, s, masters), HostLines(cluster, s, workers);
    HostBlock(cluster, s, v, masters);
    HostBlock(cluster, s, v, workers);
    HostsConcat(cluster, s, masters, workers);
    hide HostLines, Kept, Body, Clean;
    KeptFirst(m, w);
  }

  lemma {:induction false} Finds(cluster: string, s: States, v: Settings, keys: seq<Name>, n: Name)
    requires Clean(cluster, s, v) && (forall j :: j in keys ==> j in s) && n in keys
    ensures Find(HostLines(cluster, s, keys), InstanceName(cluster, n)) == Some(s[n].address)
    decreases |keys|
  {
    var ls, j := HostLines(cluster, s, keys), keys[0];
    HostLineParses(cluster, j, s[j].address);
    InstanceNamesDiffer(cluster, j, n);
    assert ls[1..] == HostLines(cluster, s, keys[1..]);
    if j != n { Finds(cluster, s, v, keys[1..], n); }
  }

  /** The machines of one type as a group: host names in key order, each with its machine's address. */
  function Listing(cluster: string, s: States, keys: seq<Name>): (hs: seq<Host>)
    requires forall n :: n in keys ==> n in s
    ensures |hs| == |keys|
    ensures forall i :: 0 <= i < |keys| ==> hs[i] == Host(InstanceName(cluster, keys[i]), Some(s[keys[i]].address))
  {
    seq(|keys|, i requires 0 <= i < |keys| => Host(InstanceName(cluster, keys[i]), Some(s[keys[i]].address)))
  }

  lemma MembersListed(cluster: string, s: States, v: Settings, keys: seq<Name>, all: seq<Name>)
    requires Clean(cluster, s, v) && (forall n :: n in all ==> n in s) && (forall n :: n in keys ==> n in all)
    ensures Members(NameLines(cluster, keys), HostLines(cluster, s, all)) == Listing(cluster, s, keys)
  {
    forall i | 0 <= i < |keys| ensures Find(HostLines(cluster, s, all), InstanceName(cluster, keys[i]))
        == Some(s[keys[i]].address) {
      Finds(cluster, s, v, all, keys[i]);
    }
  }

  lemma HostsListed(cluster: string, s: States, v: Settings, keys: seq<Name>)
    requires Clean(cluster, s, v) && forall n :: n in keys ==> n in s
    ensures ParseHosts(HostLines(cluster, s, keys)) == Listing(cluster, s, keys)
  {
    forall i | 0 <= i < |keys| ensures ParseHost(HostLines(cluster, s, keys)[i]) == Listing(cluster, s, keys)[i] {
      HostLineParses(cluster, keys[i], s[keys[i]].address);
    }
  }

  lemma ReadGives(first: seq<string>, d: Doc, m: seq<string>, w: seq<string>, l: seq<string>)
    requires Body(first) && Gives(d, m, w, l)
    ensures Read(Unlines(Flat([Block("", first)] + d)))
              == Groups(Members(m, Kept(first)), Members(w, Kept(first)), ParseHosts(l))
  {
    assert MASTERS != "" && WORKERS != "" && LOAD_BALANCERS != "" by { Headers(); }
    ReadDoc(first, d, "");
    ReadDoc(first, d, MASTERS);
    ReadDoc(first, d, WORKERS);
    ReadDoc(first, d, LOAD_BALANCERS);
    hide Section, LinesOf, Unlines, Flat, InDoc, Kept, Members, ParseHosts, Body, ProperBlock;
    assert Kept(first) + [] == Kept(first) && [] + m == m && [] + w == w && [] + l == l;
  }

  /** Reading the rendered inventory gives back masters, workers and load balancers with their
      addresses, each group in key order. */
  lemma ReadUndoesRender(cluster: string, s: States, v: Settings, o: Orders)
    requires Clean(cluster, s, v) && OrdersOf(o, s)
    ensures (forall n :: n in Sort(o.masters) || n in Sort(o.workers) || n in Sort(o.lbs) ==> n in s)
         && Read(Render(cluster, s, v, o))
              == Groups(Listing(cluster, s, Sort(o.masters)), Listing(cluster, s, Sort(o.workers)),
                  Listing(cluster, s, Sort(o.lbs)))
  {
    SortAllOf(o, s);
    hide Sections, HostLines, NameLines, Listing, Members, ParseHosts, Kept, Body, Gives, Clean, OrdersOf;
    hide Sort, Unlines, Flat, Read;
    var k := SortAll(o);
    var all := k.masters + k.workers;
    FirstLines(cluster, s, v, k.masters, k.workers);
    SectionsGive(cluster, s, v, k);
    MembersListed(cluster, s, v, k.masters, all);
    MembersListed(cluster, s, v, k.workers, all);
    HostsListed(cluster, s, v, k.lbs);
    ReadGives(HostLines(cluster, s, k.masters) + ([""] + (HostLines(cluster, s, k.workers) + ["", ""])),
              Sections(cluster, s, v, k), NameLines(cluster, k.masters2), NameLines(cluster, k.workers2),
              HostLines(cluster, s, k.lbs));
  }

  /** How often a name is listed. */
  function Listed(hs: seq<Host>, name: string): nat {
    if hs == [] then 0 else (if hs[0].name == name then 1 else 0) + Listed(hs[1..], name)
  }

  lemma {:induction false} ListedOnce(cluster: string, s: States, keys: seq<Name>, n: Name)
    requires (forall j :: j in keys ==> j in s) && Increasing(keys)
    ensures Listed(Listing(cluster, s, keys), InstanceName(cluster, n)) == if n in keys then 1 else 0
    decreases |keys|
  {
    if keys != [] {
      assert Listing(cluster, s, keys)[1..] == Listing(cluster, s, keys[1..]);
      InstanceNamesDiffer(cluster, keys[0], n);
      LessTotal(keys[0], keys[0]);
      assert keys[0] !in keys[1..];
      ListedOnce(cluster, s, keys[1..], n);
    }
  }

  /** Each machine is in the group of its type exactly once and in no other. */
  lemma ExactlyOneGroup(cluster: string, s: States, v: Settings, o: Orders, n: Name)
    requires Clean(cluster, s, v) && OrdersOf(o, s)
    ensures var g, host := Read(Render(cluster, s, v, o)), InstanceName(cluster, n);
            && Listed(g.masters, host) == (if n in s && s[n].nodeType.Master? then 1 else 0)
            && Listed(g.workers, host) == (if n in s && s[n].nodeType.Worker? then 1 else 0)
            && Listed(g.loadBalancers, host) == (if n in s && s[n].nodeType.LoadBalancer? then 1 else 0)
  {
    ReadUndoesRender(cluster, s, v, o);
    SortAllOf(o, s);
    Sorted(o.masters, OfType(s, Master).Keys);
    Sorted(o.workers, OfType(s, Worker).Keys);
    Sorted(o.lbs, OfType(s, LoadBalancer).Keys);
    ListedOnce(cluster, s, Sort(o.masters), n);
    ListedOnce(cluster, s, Sort(o.workers), n);
    ListedOnce(cluster, s, Sort(o.lbs), n);
  }
}
