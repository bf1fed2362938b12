/** The machines of the two clusters as tfvars.json and the Terraform state describe them. */
module Fleet {

  type Name = string

  datatype NodeType = Master | Worker | LoadBalancer

  datatype Machine = Machine(nodeType: NodeType, size: string, image: string, settings: map<string, int>)

  type Fleet = map<Name, Machine>

  datatype ClusterType = ServiceCluster | WorkloadCluster

  datatype TFVars = TFVars(machinesSC: Fleet, machinesWC: Fleet)

  function Current(v: TFVars, c: ClusterType): Fleet {
    match c case ServiceCluster => v.machinesSC case WorkloadCluster => v.machinesWC
  }

  function Other(v: TFVars, c: ClusterType): Fleet {
    match c case ServiceCluster => v.machinesWC case WorkloadCluster => v.machinesSC
  }

  function WithCurrent(v: TFVars, c: ClusterType, f: Fleet): TFVars {
    match c case ServiceCluster => v.(machinesSC := f) case WorkloadCluster => v.(machinesWC := f)
  }

  function Missing(have: Fleet, want: Fleet): set<Name> { want.Keys - have.Keys }
  function Extra(have: Fleet, want: Fleet): set<Name> { have.Keys - want.Keys }
  function Changed(have: Fleet, want: Fleet): set<Name> {
    set n | n in have && n in want && have[n] != want[n]
  }

  lemma NoDifference(have: Fleet, want: Fleet)
    ensures Missing(have, want) == {} && Extra(have, want) == {} && Changed(have, want) == {} <==> have == want
  {
    if Missing(have, want) == {} && Extra(have, want) == {} && Changed(have, want) == {} {
      assert have.Keys == want.Keys;
      forall n | n in have ensures have[n] == want[n] {
        assert n !in Changed(have, want);
      }
    }
  }

  /** What a failed apply may leave: every machine that differs is finished, destroyed only, or untouched. */
  function PartlyApplied(have: Fleet, want: Fleet, done: set<Name>, gone: set<Name>): Fleet {
    map n | n in have.Keys + want.Keys && Survives(have, want, done, gone, n) ::
      if n in want && (n in done || n !in have) then want[n] else have[n]
  }

  predicate Survives(have: Fleet, want: Fleet, done: set<Name>, gone: set<Name>, n: Name) {
    if n in have && n in want && have[n] == want[n] then true
    else if n in done then n in want
    else n in have && n !in gone
  }

  /** Number of machines of a node type. */
  function Count(f: Fleet, t: NodeType): nat {
    |set n | n in f && f[n].nodeType == t|
  }

  lemma SubsetSize<T>(a: set<T>, b: set<T>)
    requires a <= b
    ensures |a| <= |b|
  {
    assert |b| == |a| + |b - a| by { assert b == a + (b - a); }
  }

  lemma CountMonotone(f: Fleet, g: Fleet, t: NodeType)
    requires forall n :: n in f ==> n in g && g[n].nodeType == f[n].nodeType
    ensures Count(f, t) <= Count(g, t)
  {
    SubsetSize(set n | n in f && f[n].nodeType == t, set n | n in g && g[n].nodeType == t);
  }

  /** Taking one machine out after a machine of the same type came in keeps every count. */
  lemma CountSwap(f: Fleet, out: Name, into: Name, m: Machine, t: NodeType)
    requires out in f && into !in f && m.nodeType == f[out].nodeType
    ensures Count(f[into := m] - {out}, t) == Count(f, t)
  {
    var g := f[into := m] - {out};
    var a, b := set n | n in f && f[n].nodeType == t, set n | n in g && g[n].nodeType == t;
    if m.nodeType == t {
      assert b == (a - {out}) + {into};
      assert |a - {out}| == |a| - 1;
    } else {
      assert b == a;
    }
  }
}
