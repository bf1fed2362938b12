/** The variables and child groups of the rendered inventory: a reader finds every setting under its own key. */
module InventoryVars {
  import opened Wrappers
  import opened Text
  import opened Fleet
  import opened Names
  import opened Inventory

  /** The variables whose values depend on the cluster. */
  datatype Key =
    | Endpoint | Port | PublicEndpoint | NetworkCIDR
    | CloudProvider | CloudConfig | CloudVariables
    | ClusterName
    | IssuerURL | ClientID | UsernameClaim | GroupsClaim
    | CalicoMTU | ExtraArgs

  function KeyText(k: Key): string {
    match k
    case Endpoint => "control_plane_endpoint"
    case Port => "control_plane_port"
    case PublicEndpoint => "public_endpoint"
    case NetworkCIDR => "private_network_cidr"
    case CloudProvider => "cloud_provider"
    case CloudConfig => "cloud_config"
    case CloudVariables => "cloud_provider_vars"
    case ClusterName => "cluster_name"
    case IssuerURL => "oidc_issuer_url"
    case ClientID => "oidc_client_id"
    case UsernameClaim => "oidc_username_claim"
    case GroupsClaim => "oidc_groups_claim"
    case CalicoMTU => "calico_mtu"
    case ExtraArgs => "kubeadm_init_extra_args"
  }

  /******* The reader *******/

  /** A line `key='value'`. */
  function ParseVar(line: string, key: string): Option<string> {
    if HasPrefix(line, key + "='") && |line| > |key| + 2 && line[|line| - 1] == '\''
    then Some(line[|key| + 2..|line| - 1]) else None
  }

  /** The value of a variable: that of the first line that sets it. */
  function Value(ls: seq<string>, key: string): Option<string> {
    if ls == [] then None
    else if ParseVar(ls[0], key).Some? then ParseVar(ls[0], key)
    else Value(ls[1..], key)
  }

  function ReadVar(text: string, key: string): Option<string> {
    Value(Section(LinesOf(text), "", ALL_VARS), key)
  }

  /******* One line *******/

  /** Length and third character tell the keys apart. */
  lemma KeyShape(k: Key)
    ensures |KeyText(k)| == LengthOf(k) && KeyText(k)[2] == ThirdOf(k)
    ensures '=' !in KeyText(k) && KeyText(k)[0] != '#' && KeyText(k)[0] != ';'
  {
    NoEquals(k);
  }

  lemma NoEquals(k: Key)
    ensures '=' !in KeyText(k)
  {}

  function LengthOf(k: Key): nat {
    match k
    case Endpoint => 22 case Port => 18 case PublicEndpoint => 15 case NetworkCIDR => 20
    case CloudProvider => 14 case CloudConfig => 12 case CloudVariables => 19
    case ClusterName => 12
    case IssuerURL => 15 case ClientID => 14 case UsernameClaim => 19 case GroupsClaim => 17
    case CalicoMTU => 10 case ExtraArgs => 23
  }

  function ThirdOf(k: Key): char {
    match k
    case Endpoint => 'n' case Port => 'n' case PublicEndpoint => 'b' case NetworkCIDR => 'i'
    case CloudProvider => 'o' case CloudConfig => 'o' case CloudVariables => 'o'
    case ClusterName => 'u'
    case IssuerURL => 'd' case ClientID => 'd' case UsernameClaim => 'd' case GroupsClaim => 'd'
    case CalicoMTU => 'l' case ExtraArgs => 'b'
  }

  lemma KeysDiffer(k: Key, j: Key)
    ensures KeyText(k) == KeyText(j) ==> k == j
  {
    KeyShape(k);
    KeyShape(j);
    hide KeyText;
  }

  /** The key ends at the first equals sign. */
  lemma KeyLength(line: string, key: string)
    requires '=' !in key && HasPrefix(line, key + "='")
    ensures Index(line, '=') == |key| && line[..|key|] == key
  {
    var rest := line[|key| + 1..];
    assert line[..|key| + 2] == key + "='";
    assert line[..|key|] == (key + "='")[..|key|] == key;
    assert line[|key|] == (key + "='")[|key|] == '=';
    assert line == key + "=" + rest;
    IndexOf(key, '=', rest);
  }

  /** A line is read under the key it was written for, and under no other. */
  lemma VarParses(key: string, value: string, other: string)
    requires '=' !in key && '=' !in other
    ensures ParseVar(Var(key, value), other) == if other == key then Some(value) else None
  {
    var line := Var(key, value);
    assert line == (key + "='") + (value + "'");
    assert line[..|key| + 2] == key + "='";
    KeyLength(line, key);
    if HasPrefix(line, other + "='") { KeyLength(line, other); }
    hide Index;
    assert line[|key| + 2..|line| - 1] == value;
  }

  lemma {:induction false} ValueConcat(a: seq<string>, b: seq<string>, key: string)
    ensures Value(a + b, key) == if Value(a, key).Some? then Value(a, key) else Value(b, key)
    decreases |a|
  {
    hide ParseVar;
    if a == [] {
      assert a + b == b;
    } else {
      assert (a + b)[1..] == a[1..] + b;
      ValueConcat(a[1..], b, key);
    }
  }

  function IfAny(x: string): Option<string> { if x == "" then None else Some(x) }

  lemma ShownVar(k: Key, x: string, j: Key)
    ensures Value(Kept([Var(KeyText(k), x)]), KeyText(j)) == if j == k then Some(x) else None
    ensures Value(Kept(IfSet(KeyText(k), x)), KeyText(j)) == if j == k then IfAny(x) else None
  {
    var line := Var(KeyText(k), x);
    KeyShape(k);
    KeyShape(j);
    KeysDiffer(j, k);
    VarParses(KeyText(k), x, KeyText(j));
    assert line[0] == KeyText(k)[0];
    hide KeyText, ParseVar, Var;
    var rest := [line][1..];
    assert !Ignored(line) && rest == [];
    KeptAll([line]);
    assert Value([line], KeyText(j)) == if ParseVar(line, KeyText(j)).Some? then ParseVar(line, KeyText(j))
                                        else Value(rest, KeyText(j));
    assert Kept([]) == [];
  }

  /** Two blocks of lines one after the other. */
  lemma ShownBoth(a: seq<string>, b: seq<string>, j: Key)
    ensures Value(Kept(a + b), KeyText(j))
         == if Value(Kept(a), KeyText(j)).Some? then Value(Kept(a), KeyText(j)) else Value(Kept(b), KeyText(j))
  {
    KeptConcat(a, b);
    ValueConcat(Kept(a), Kept(b), KeyText(j));
  }

  lemma BlankIsSilent(j: Key)
    ensures Value(Kept([""]), KeyText(j)) == None
  {
    KeptBlanks([""]);
  }

  /******* The blocks *******/

  lemma ControlPlaneShown(v: Settings, j: Key)
    ensures Value(Kept(ControlPlaneVars(v)), KeyText(j)) == match j
              case Endpoint => IfAny(v.controlPlaneEndpoint)
              case Port => IfAny(v.controlPlanePort)
              case PublicEndpoint => IfAny(v.controlPlanePublicIP)
              case NetworkCIDR => IfAny(v.privateNetworkCIDR)
              case _ => None
  {
    var e := IfSet("control_plane_endpoint", v.controlPlaneEndpoint);
    var p := IfSet("control_plane_port", v.controlPlanePort);
    var u, c := IfSet("public_endpoint", v.controlPlanePublicIP), IfSet("private_network_cidr", v.privateNetworkCIDR);
    assert ControlPlaneVars(v) == e + (p + (u + c));
    ShownVar(Endpoint, v.controlPlaneEndpoint, j);
    ShownVar(Port, v.controlPlanePort, j);
    ShownVar(PublicEndpoint, v.controlPlanePublicIP, j);
    ShownVar(NetworkCIDR, v.privateNetworkCIDR, j);
    assert KeyText(Endpoint) == "control_plane_endpoint" && KeyText(Port) == "control_plane_port";
    assert KeyText(PublicEndpoint) == "public_endpoint" && KeyText(NetworkCIDR) == "private_network_cidr";
    hide KeyText, IfSet, Kept, Value, ControlPlaneVars;
    ShownBoth(u, c, j);
    ShownBoth(p, u + c, j);
    ShownBoth(e, p + (u + c), j);
  }

  lemma CloudShown(v: Settings, j: Key)
    ensures Value(Kept(CloudVars(v)), KeyText(j)) == match j
              case CloudProvider => IfAny(v.cloudProvider)
              case CloudConfig => IfAny(v.cloudConfig)
              case CloudVariables => IfAny(v.cloudProviderVars)
              case _ => None
  {
    var p, c, x := IfSet("cloud_provider", v.cloudProvider), IfSet("cloud_config", v.cloudConfig),
                   IfSet("cloud_provider_vars", v.cloudProviderVars);
    assert CloudVars(v) == p + (c + x);
    ShownVar(CloudProvider, v.cloudProvider, j);
    ShownVar(CloudConfig, v.cloudConfig, j);
    ShownVar(CloudVariables, v.cloudProviderVars, j);
    assert KeyText(CloudProvider) == "cloud_provider" && KeyText(CloudConfig) == "cloud_config";
    assert KeyText(CloudVariables) == "cloud_provider_vars";
    hide KeyText, IfSet, Kept, Value, CloudVars;
    ShownBoth(c, x, j);
    ShownBoth(p, c + x, j);
  }

  lemma OIDCShown(v: Settings, j: Key)
    ensures Value(Kept(OIDCVars(v)), KeyText(j)) == match j
              case IssuerURL => Some(v.oidcIssuerURL)
              case ClientID => Some(v.oidcClientID)
              case UsernameClaim => Some(v.oidcUsernameClaim)
              case GroupsClaim => Some(v.oidcGroupsClaim)
              case _ => None
  {
    var i, c := [Var("oidc_issuer_url", v.oidcIssuerURL)], [Var("oidc_client_id", v.oidcClientID)];
    var u, g := [Var("oidc_username_claim", v.oidcUsernameClaim)], [Var("oidc_groups_claim", v.oidcGroupsClaim)];
    assert OIDCVars(v) == i + (c + (u + (g + [""])));
    ShownVar(IssuerURL, v.oidcIssuerURL, j);
    ShownVar(ClientID, v.oidcClientID, j);
    ShownVar(UsernameClaim, v.oidcUsernameClaim, j);
    ShownVar(GroupsClaim, v.oidcGroupsClaim, j);
    BlankIsSilent(j);
    assert KeyText(IssuerURL) == "oidc_issuer_url" && KeyText(ClientID) == "oidc_client_id";
    assert KeyText(UsernameClaim) == "oidc_username_claim" && KeyText(GroupsClaim) == "oidc_groups_claim";
    hide KeyText, Var, Kept, Value, OIDCVars;
    ShownBoth(g, [""], j);
    ShownBoth(u, g + [""], j);
    ShownBoth(c, u + (g + [""]), j);
    ShownBoth(i, c + (u + (g + [""])), j);
  }

  lemma NetworkShown(v: Settings, j: Key)
    ensures Value(Kept(NetworkVars(v)), KeyText(j)) == match j
              case CalicoMTU => Some(v.calicoMTU)
              case ExtraArgs => Some(v.extraArgs)
              case _ => None
  {
    var m, a := [Var("calico_mtu", v.calicoMTU)], [Var("kubeadm_init_extra_args", v.extraArgs)];
    assert NetworkVars(v) == m + ([""] + (a + [""]));
    ShownVar(CalicoMTU, v.calicoMTU, j);
    ShownVar(ExtraArgs, v.extraArgs, j);
    BlankIsSilent(j);
    assert KeyText(CalicoMTU) == "calico_mtu" && KeyText(ExtraArgs) == "kubeadm_init_extra_args";
    hide KeyText, Var, Kept, Value, NetworkVars;
    ShownBoth(a, [""], j);
    ShownBoth([""], a + [""], j);
    ShownBoth(m, [""] + (a + [""]), j);
  }

  /** A line that does not begin with a key and an equals sign and a quote sets nothing. */
  lemma PlainLine(line: string, j: Key)
    requires !HasPrefix(line, KeyText(j) + "='")
    ensures Value(Kept([line]), KeyText(j)) == None
  {
    var rest := [line][1..];
    assert rest == [];
    assert Kept([line]) == (if Ignored(line) then [] else [line]) + Kept(rest);
    assert Kept(rest) == [];
    assert !Ignored(line) ==>
        Value([line], KeyText(j)) == if ParseVar(line, KeyText(j)).Some? then ParseVar(line, KeyText(j))
                                     else Value(rest, KeyText(j));
    hide KeyText;
  }

  /** Another first character. */
  lemma OtherStart(line: string, j: Key, c: char)
    requires line != "" && line[0] == c && (c == 'a' || c == '#' || c == 'k')
    requires c == 'k' ==> |line| > 2 && line[2] == 's'
    ensures !HasPrefix(line, KeyText(j) + "='")
  {
    KeyStart(j);
    PrefixStart(line, KeyText(j) + "='");
    hide KeyText, HasPrefix;
  }

  lemma PrefixStart(line: string, p: string)
    requires |p| > 2
    ensures HasPrefix(line, p) ==> |line| > 2 && line[0] == p[0] && line[2] == p[2]
  {}

  lemma KeyStart(j: Key)
    ensures |KeyText(j)| > 2 && KeyText(j)[0] != 'a' && KeyText(j)[0] != '#'
    ensures KeyText(j)[0] == 'k' ==> KeyText(j)[2] != 's'
  {
    KeyShape(j);
  }

  lemma KubernetesSilent(j: Key)
    ensures Value(Kept(KubernetesVars()), KeyText(j)) == None
  {
    var a, b := "k8s_pod_cidr=192.168.0.0/16", "k8s_service_cidr=10.96.0.0/12";
    assert KubernetesVars() == [a] + ([b] + [""]);
    OtherStart(a, j, 'k');
    OtherStart(b, j, 'k');
    PlainLine(a, j);
    PlainLine(b, j);
    BlankIsSilent(j);
    hide KeyText, Kept, Value, KubernetesVars;
    ShownBoth([b], [""], j);
    ShownBoth([a], [b] + [""], j);
  }

  lemma SSHSilent(j: Key)
    ensures Value(Kept(SSHVars()), KeyText(j)) == None
  {
    var a, b, d := "ansible_user='ubuntu'", "ansible_port=22", "ansible_python_interpreter=/usr/bin/python3";
    var c := "# TODO: move this to ansible.cfg" + " when upgraded to ansible 2.8";
    assert SSHVars() == [a] + ([b] + ([c] + ([d] + [""])));
    OtherStart(a, j, 'a');
    OtherStart(b, j, 'a');
    assert c[0] == '#';
    OtherStart(c, j, '#');
    OtherStart(d, j, 'a');
    PlainLine(a, j);
    PlainLine(b, j);
    PlainLine(c, j);
    PlainLine(d, j);
    BlankIsSilent(j);
    hide KeyText, Kept, Value, SSHVars;
    ShownBoth([d], [""], j);
    ShownBoth([c], [d] + [""], j);
    ShownBoth([b], [c] + ([d] + [""]), j);
    ShownBoth([a], [b] + ([c] + ([d] + [""])), j);
  }

  lemma AllShown(cluster: string, v: Settings, j: Key)
    ensures Value(Kept(AllVars(cluster, v)), KeyText(j)) == match j
              case Endpoint => IfAny(v.controlPlaneEndpoint)
              case Port => IfAny(v.controlPlanePort)
              case PublicEndpoint => IfAny(v.controlPlanePublicIP)
              case NetworkCIDR => IfAny(v.privateNetworkCIDR)
              case CloudProvider => IfAny(v.cloudProvider)
              case CloudConfig => IfAny(v.cloudConfig)
              case CloudVariables => IfAny(v.cloudProviderVars)
              case ClusterName => Some(cluster)
              case IssuerURL => Some(v.oidcIssuerURL)
              case ClientID => Some(v.oidcClientID)
              case UsernameClaim => Some(v.oidcUsernameClaim)
              case GroupsClaim => Some(v.oidcGroupsClaim)
              case CalicoMTU => Some(v.calicoMTU)
              case ExtraArgs => Some(v.extraArgs)
  {
    var name, n := [Var("cluster_name", cluster), ""], NetworkVars(v);
    var o := OIDCVars(v) + n;
    KubernetesSilent(j);
    SSHSilent(j);
    ControlPlaneShown(v, j);
    CloudShown(v, j);
    OIDCShown(v, j);
    NetworkShown(v, j);
    assert KeyText(ClusterName) == "cluster_name";
    ShownVar(ClusterName, cluster, j);
    BlankIsSilent(j);
    assert name == [Var("cluster_name", cluster)] + [""];
    assert AllVars(cluster, v) == KubernetesVars() + (SSHVars() + (ControlPlaneVars(v) + (CloudVars(v) + (name + o))));
    hide KeyText, Var, Kept, Value, AllVars;
    hide KubernetesVars, SSHVars, ControlPlaneVars, CloudVars, OIDCVars, NetworkVars;
    ShownBoth([Var("cluster_name", cluster)], [""], j);
    ShownBoth(OIDCVars(v), n, j);
    ShownBoth(name, o, j);
    ShownBoth(CloudVars(v), name + o, j);
    ShownBoth(ControlPlaneVars(v), CloudVars(v) + (name + o), j);
    ShownBoth(SSHVars(), ControlPlaneVars(v) + (CloudVars(v) + (name + o)), j);
    ShownBoth(KubernetesVars(), SSHVars() + (ControlPlaneVars(v) + (CloudVars(v) + (name + o))), j);
  }

  /******* The sections *******/

  lemma {:induction false} InNone(d: Doc, want: string)
    requires forall b :: b in d ==> b.header != want
    ensures InDoc(d, want) == []
    decreases |d|
  {
    if d != [] {
      assert d[0] in d;
      InNone(d[1..], want);
    }
  }

  lemma InFirst(b: Block, d: Doc)
    requires forall x :: x in d ==> x.header != b.header
    ensures InDoc([b] + d, b.header) == Kept(b.body)
  {
    assert ([b] + d)[1..] == d;
    InNone(d, b.header);
    assert Kept(b.body) + [] == Kept(b.body);
  }

  lemma InLast(d: Doc, b: Block)
    requires forall x :: x in d ==> x.header != b.header
    ensures InDoc(d + [b], b.header) == Kept(b.body)
  {
    InDocConcat(d, [b], b.header);
    InNone(d, b.header);
    var none: Doc := [];
    assert [b] + none == [b];
    InFirst(b, none);
    assert [] + Kept(b.body) == Kept(b.body);
  }

  /** The blocks of the document: variables, masters, workers and load balancers, internal groups, nodes. */
  lemma SectionsShape(cluster: string, s: States, v: Settings, k: Orders) returns (hosts: Doc)
    requires forall n :: n in k.lbs ==> n in s
    ensures Sections(cluster, s, v, k)
         == [Block(ALL_VARS, AllVars(cluster, v))]
            + (hosts + (InternalBlock(v.internalLBGroups) + [Block(NODES, ["masters", "workers"])]))
    ensures forall b :: b in hosts ==> b.header == MASTERS || b.header == WORKERS || b.header == LOAD_BALANCERS
  {
    hide AllVars, HostLines, NameLines, InternalBlock;
    var m := Block(MASTERS, NameLines(cluster, k.masters2) + ["", ""]);
    var w := Block(WORKERS, NameLines(cluster, k.workers2) + (["", ""] + if k.lbs == [] then [""] else []));
    var lbs := LoadBalancerBlock(cluster, s, k.lbs);
    hosts := [m] + ([w] + lbs);
    var rest := InternalBlock(v.internalLBGroups) + [Block(NODES, ["masters", "workers"])];
    assert forall b :: b in lbs ==> b.header == LOAD_BALANCERS;
    hide LoadBalancerBlock;
    assert [m] + ([w] + (lbs + rest)) == hosts + rest;
  }

  lemma InternalHeaders(groups: seq<string>)
    ensures forall b :: b in InternalBlock(groups) ==> b.header == INTERNAL_LB
  {}

  /** The rendered document has one section of variables, at most one of internal load balancers and one of nodes. */
  lemma SectionsHave(cluster: string, s: States, v: Settings, k: Orders)
    requires forall n :: n in k.lbs ==> n in s
    ensures var d := Sections(cluster, s, v, k);
            && InDoc(d, ALL_VARS) == Kept(AllVars(cluster, v)) && InDoc(d, INTERNAL_LB) == Kept(v.internalLBGroups)
            && InDoc(d, NODES) == Kept(["masters", "workers"])
  {
    HeadersDiffer();
    var hosts := SectionsShape(cluster, s, v, k);
    InternalHeaders(v.internalLBGroups);
    hide AllVars, Kept, Sections, InDoc, InternalBlock;
    DocHas(Block(ALL_VARS, AllVars(cluster, v)), hosts, InternalBlock(v.internalLBGroups),
           Block(NODES, ["masters", "workers"]));
    InternalKept(v.internalLBGroups);
  }

  lemma DocHas(vars: Block, hosts: Doc, internal: Doc, nodes: Block)
    requires forall b :: b in hosts ==> b.header != vars.header && b.header != INTERNAL_LB && b.header != nodes.header
    requires forall b :: b in internal ==> b.header == INTERNAL_LB
    requires vars.header != nodes.header && vars.header != INTERNAL_LB && nodes.header != INTERNAL_LB
    ensures var d := [vars] + (hosts + (internal + [nodes]));
            && InDoc(d, vars.header) == Kept(vars.body) && InDoc(d, nodes.header) == Kept(nodes.body)
            && InDoc(d, INTERNAL_LB) == InDoc(internal, INTERNAL_LB)
  {
    hide InDoc, Kept;
    InFirst(vars, hosts + (internal + [nodes]));
    var front := [vars] + (hosts + internal);
    assert [vars] + (hosts + (internal + [nodes])) == front + [nodes] == ([vars] + hosts) + (internal + [nodes]);
    InLast(front, nodes);
    InDocConcat([vars] + hosts, internal + [nodes], INTERNAL_LB);
    InDocConcat(internal, [nodes], INTERNAL_LB);
    InNone([vars] + hosts, INTERNAL_LB);
    InNone([nodes], INTERNAL_LB);
    assert [] + (InDoc(internal, INTERNAL_LB) + []) == InDoc(internal, INTERNAL_LB);
  }

  lemma InternalKept(groups: seq<string>)
    ensures InDoc(InternalBlock(groups), INTERNAL_LB) == Kept(groups)
  {
    if groups != [] {
      var b, none: Doc := Block(INTERNAL_LB, groups + [""]), [];
      assert [b] + none == [b];
      InFirst(b, none);
      KeptConcat(groups, [""]);
      KeptBlanks([""]);
    }
  }

  lemma HeadersDiffer()
    ensures ALL_VARS != MASTERS && ALL_VARS != WORKERS && ALL_VARS != LOAD_BALANCERS && ALL_VARS != INTERNAL_LB
    ensures ALL_VARS != NODES && INTERNAL_LB != MASTERS && INTERNAL_LB != WORKERS && INTERNAL_LB != LOAD_BALANCERS
    ensures INTERNAL_LB != NODES && NODES != MASTERS && NODES != WORKERS && NODES != LOAD_BALANCERS
    ensures ALL_VARS != "" && INTERNAL_LB != "" && NODES != ""
  {
    Headers();
  }

  lemma SectionRead(cluster: string, s: States, v: Settings, o: Orders, want: string)
    requires Clean(cluster, s, v) && OrdersOf(o, s) && want != ""
    ensures forall n :: n in SortAll(o).lbs ==> n in s
    ensures Section(LinesOf(Render(cluster, s, v, o)), "", want) == InDoc(Sections(cluster, s, v, SortAll(o)), want)
  {
    SortAllOf(o, s);
    hide Sections, HostLines, NameLines, Kept, Gives, Clean, OrdersOf, Sort;
    var k := SortAll(o);
    FirstLines(cluster, s, v, k.masters, k.workers);
    SectionsGive(cluster, s, v, k);
    assert forall b :: b in Sections(cluster, s, v, k) ==> ProperBlock(b) by { GivesProper(cluster, s, v, k); }
    var first := HostLines(cluster, s, k.masters) + ([""] + (HostLines(cluster, s, k.workers) + ["", ""]));
    hide ProperBlock, Body, Section, LinesOf, Unlines, Flat, InDoc;
    ReadDoc(first, Sections(cluster, s, v, k), want);
    assert [] + InDoc(Sections(cluster, s, v, k), want) == InDoc(Sections(cluster, s, v, k), want);
  }

  lemma GivesProper(cluster: string, s: States, v: Settings, k: Orders)
    requires forall n :: n in k.lbs ==> n in s
    requires Gives(Sections(cluster, s, v, k), NameLines(cluster, k.masters2), NameLines(cluster, k.workers2),
                   HostLines(cluster, s, k.lbs))
    ensures forall b :: b in Sections(cluster, s, v, k) ==> ProperBlock(b)
  {
    hide Sections, ProperBlock, InDoc;
  }

  lemma KeyComesBack(cluster: string, s: States, v: Settings, o: Orders, j: Key)
    requires Clean(cluster, s, v) && OrdersOf(o, s)
    ensures ReadVar(Render(cluster, s, v, o), KeyText(j)) == match j
              case Endpoint => IfAny(v.controlPlaneEndpoint)
              case Port => IfAny(v.controlPlanePort)
              case PublicEndpoint => IfAny(v.controlPlanePublicIP)
              case NetworkCIDR => IfAny(v.privateNetworkCIDR)
              case CloudProvider => IfAny(v.cloudProvider)
              case CloudConfig => IfAny(v.cloudConfig)
              case CloudVariables => IfAny(v.cloudProviderVars)
              case ClusterName => Some(cluster)
              case IssuerURL => Some(v.oidcIssuerURL)
              case ClientID => Some(v.oidcClientID)
              case UsernameClaim => Some(v.oidcUsernameClaim)
              case GroupsClaim => Some(v.oidcGroupsClaim)
              case CalicoMTU => Some(v.calicoMTU)
              case ExtraArgs => Some(v.extraArgs)
  {
    AllShown(cluster, v, j);
    assert ALL_VARS != "" by { HeadersDiffer(); }
    SectionRead(cluster, s, v, o, ALL_VARS);
    SectionsHave(cluster, s, v, SortAll(o));
    hide Section, LinesOf, Render, Sections, InDoc, Kept, AllVars, Value;
  }

  lemma KeyNames()
    ensures KeyText(Endpoint) == "control_plane_endpoint" && KeyText(Port) == "control_plane_port"
    ensures KeyText(PublicEndpoint) == "public_endpoint" && KeyText(NetworkCIDR) == "private_network_cidr"
    ensures KeyText(CloudProvider) == "cloud_provider" && KeyText(CloudConfig) == "cloud_config"
    ensures KeyText(CloudVariables) == "cloud_provider_vars" && KeyText(ClusterName) == "cluster_name"
    ensures KeyText(IssuerURL) == "oidc_issuer_url" && KeyText(ClientID) == "oidc_client_id"
    ensures KeyText(UsernameClaim) == "oidc_username_claim" && KeyText(GroupsClaim) == "oidc_groups_claim"
    ensures KeyText(CalicoMTU) == "calico_mtu" && KeyText(ExtraArgs) == "kubeadm_init_extra_args"
  {}

  /** Reading the variables of the rendered inventory gives back every setting under its own key: those that are
      always written, and the others exactly if they are set. */
  lemma VariablesComeBack(cluster: string, s: States, v: Settings, o: Orders)
    requires Clean(cluster, s, v) && OrdersOf(o, s)
    ensures var text := Render(cluster, s, v, o);
            && ReadVar(text, "control_plane_endpoint") == IfAny(v.controlPlaneEndpoint)
            && ReadVar(text, "control_plane_port") == IfAny(v.controlPlanePort)
            && ReadVar(text, "public_endpoint") == IfAny(v.controlPlanePublicIP)
            && ReadVar(text, "private_network_cidr") == IfAny(v.privateNetworkCIDR)
            && ReadVar(text, "cloud_provider") == IfAny(v.cloudProvider)
            && ReadVar(text, "cloud_config") == IfAny(v.cloudConfig)
            && ReadVar(text, "cloud_provider_vars") == IfAny(v.cloudProviderVars)
            && ReadVar(text, "cluster_name") == Some(cluster)
            && ReadVar(text, "oidc_issuer_url") == Some(v.oidcIssuerURL)
            && ReadVar(text, "oidc_client_id") == Some(v.oidcClientID)
            && ReadVar(text, "oidc_username_claim") == Some(v.oidcUsernameClaim)
            && ReadVar(text, "oidc_groups_claim") == Some(v.oidcGroupsClaim)
            && ReadVar(text, "calico_mtu") == Some(v.calicoMTU)
            && ReadVar(text, "kubeadm_init_extra_args") == Some(v.extraArgs)
  {
    KeyNames();
    hide KeyText, ReadVar, Render, IfAny, Clean, OrdersOf;
    KeyComesBack(cluster, s, v, o, Endpoint);
    KeyComesBack(cluster, s, v, o, Port);
    KeyComesBack(cluster, s, v, o, PublicEndpoint);
    KeyComesBack(cluster, s, v, o, NetworkCIDR);
    KeyComesBack(cluster, s, v, o, CloudProvider);
    KeyComesBack(cluster, s, v, o, CloudConfig);
    KeyComesBack(cluster, s, v, o, CloudVariables);
    KeyComesBack(cluster, s, v, o, ClusterName);
    KeyComesBack(cluster, s, v, o, IssuerURL);
    KeyComesBack(cluster, s, v, o, ClientID);
    KeyComesBack(cluster, s, v, o, UsernameClaim);
    KeyComesBack(cluster, s, v, o, GroupsClaim);
    KeyComesBack(cluster, s, v, o, CalicoMTU);
    KeyComesBack(cluster, s, v, o, ExtraArgs);
  }

  /** The nodes are the masters and the workers, and the groups behind an internal load balancer are those
      configured. */
  lemma ChildrenComeBack(cluster: string, s: States, v: Settings, o: Orders)
    requires Clean(cluster, s, v) && OrdersOf(o, s)
    ensures var ls := LinesOf(Render(cluster, s, v, o));
            && Section(ls, "", "[nodes:children]") == ["masters", "workers"]
            && Section(ls, "", "[internal_lb:children]") == Kept(v.internalLBGroups)
  {
    HeadersDiffer();
    SectionRead(cluster, s, v, o, NODES);
    SectionRead(cluster, s, v, o, INTERNAL_LB);
    SectionsHave(cluster, s, v, SortAll(o));
    hide Section, LinesOf, Render, Sections, InDoc;
    KeptAll(["masters", "workers"]);
  }

  /** The variables that are the same in every inventory. */
  lemma FixedVariables(cluster: string, s: States, v: Settings, o: Orders)
    requires Clean(cluster, s, v) && OrdersOf(o, s)
    ensures var ls := Section(LinesOf(Render(cluster, s, v, o)), "", "[all:vars]");
            && "k8s_pod_cidr=192.168.0.0/16" in ls && "k8s_service_cidr=10.96.0.0/12" in ls
            && "ansible_user='ubuntu'" in ls && "ansible_port=22" in ls
            && "ansible_python_interpreter=/usr/bin/python3" in ls
  {
    HeadersDiffer();
    SectionRead(cluster, s, v, o, ALL_VARS);
    SectionsHave(cluster, s, v, SortAll(o));
    hide Section, LinesOf, Render, Sections, InDoc;
    FixedLines();
    var rest := ControlPlaneVars(v) + (CloudVars(v) +
                  ([Var("cluster_name", cluster), ""] + (OIDCVars(v) + NetworkVars(v))));
    assert AllVars(cluster, v) == KubernetesVars() + (SSHVars() + rest);
    hide KubernetesVars, SSHVars, AllVars, ControlPlaneVars, CloudVars, OIDCVars, NetworkVars, Var, Kept;
    KeptConcat(KubernetesVars(), SSHVars() + rest);
    KeptConcat(SSHVars(), rest);
  }

  lemma FixedLines()
    ensures "k8s_pod_cidr=192.168.0.0/16" in Kept(KubernetesVars())
    ensures "k8s_service_cidr=10.96.0.0/12" in Kept(KubernetesVars())
    ensures "ansible_user='ubuntu'" in Kept(SSHVars()) && "ansible_port=22" in Kept(SSHVars())
    ensures "ansible_python_interpreter=/usr/bin/python3" in Kept(SSHVars())
  {
    FixedAt(KubernetesVars(), 0);
    FixedAt(KubernetesVars(), 1);
    FixedAt(SSHVars(), 0);
    FixedAt(SSHVars(), 1);
    FixedAt(SSHVars(), 3);
    hide Kept;
  }

  lemma FixedAt(ls: seq<string>, i: nat)
    requires i < |ls| && !Ignored(ls[i])
    ensures ls[i] in Kept(ls)
  {
    KeptHas(ls, ls[i]);
    hide Kept;
  }

  lemma {:induction false} KeptHas(ls: seq<string>, l: string)
    requires l in ls && !Ignored(l)
    ensures l in Kept(ls)
    decreases |ls|
  {
    if ls[0] != l { KeptHas(ls[1..], l); }
  }
}
