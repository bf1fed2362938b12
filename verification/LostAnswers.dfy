/** Why the results ask for exit codes to be heard: for each kind of step that matters there are runs in which
    all else works, the command succeeds or goes on, and the result fails. */
module LostAnswers {
  import opened Fleet
  import opened Wrappers
  import opened Lifecycle
  import opened Stages
  import opened Reconcile
  import opened Progress
  import KeptNodes
  import Replace
  import Guarantees

  /** A tool that does nothing, and whose exit code is lost. */
  function Idle(w: World): Draw { Draw(false, true, false, {}, {}, w.rest, 0) }

  /** What a removal from a settled world comes to, where its apply does nothing. */
  lemma RemovedInVain(w: World, n: Name, dd: Draw)
    requires Settled(w) && w.file == Some(w.mem) && n in Infra(w)
    ensures var w' := Removed(w, n, dd, Idle(w));
            Mem(w') == Mem(w) - {n} && w'.file == Some(w'.mem) && Infra(w') == Infra(w)
  {
    assert PartlyApplied(Infra(w), Mem(w) - {n}, {}, {}) == Infra(w);
    hide PartlyApplied, Extra, Changed;
  }

  /** If the last apply did nothing and its exit code is lost, it succeeds and leaves the machine in the state. */
  lemma LostApplyKeepsMachine(w: World, n: Name) returns (ds: seq<Draw>)
    requires Settled(w) && w.file == Some(w.mem) && n in Infra(w)
    ensures var o := Invoke(w.(draws := ds), Remove(n));
            o.ok && n !in Mem(o.world) && n in Infra(o.world) && !Agreed(o.world)
  {
    var o;
    ds, o := RemovalRuns(w, n, GOOD, Idle(w));
    RemovedInVain(w, n, GOOD);
    hide Removed, Invoke;
  }

  /** If the deletion of the node did nothing and its exit code is lost, it succeeds and the machine of a node
      is destroyed. */
  lemma LostDeletionKeepsNode(w: World, n: Name) returns (ds: seq<Draw>)
    requires Settled(w) && w.file == Some(w.mem) && n in Infra(w) && n in w.nodes
    ensures var o := Invoke(w.(draws := ds), Remove(n));
            o.ok && n in o.world.nodes && n !in Infra(o.world) && !KeptNodes.Safe(o.world)
  {
    var o;
    ds, o := RemovalRuns(w, n, Idle(w), GOOD);
    RemovedParts(w, n, Idle(w));
    hide Removed, Invoke;
  }

  /** Whatever is pending, if the plan's exit code is lost a clone goes on, writes the file and applies it:
      what waits to be destroyed is destroyed. */
  lemma LostPlanAppliesAll(w: World, n: Name, cn: Name) returns (ds: seq<Draw>)
    requires w.file.Some? && n in Want(w) && cn !in Want(w)
    ensures var o := Invoke(w.(draws := ds), Clone(n, "", cn));
            !Stopped(w, o) && Infra(o.world) == Want(w)[cn := Want(w)[n]]
  {
    var clone, join := CloneMachine(n, "", cn), JoinMachine(w.cfg, cn);
    var rest := ApplyDraws(GOOD, []);
    ds := [GOOD] + ([GOOD] + ([Idle(w)] + ([GOOD] + ([GOOD] + rest))));
    var start := Outcome(w.(draws := ds), true);
    Goes(start, ReadConfig, GOOD, [GOOD] + ([Idle(w)] + ([GOOD] + ([GOOD] + rest))));
    ReadEffect(start.world);
    hide Do, Exec, CloneMachine, JoinMachine, ApplyDraws, Settled;
    var r := Do(start, ReadConfig);
    Cons(start, ReadConfig, clone + join);
    RunAppend(r, clone, join);
    hide Run;
    var g := CloneGoes(r, n, cn, Idle(w), rest);
    var o := ApplyThenGone(g, w.cfg, cn);
    FileGrew(w, Want(w)[cn := Want(w)[n]], cn);
  }

  /** An apply that works, after which the process is gone. */
  lemma ApplyThenGone(g: Outcome, cfg: Config, cn: Name) returns (o: Outcome)
    requires g.ok && g.world.draws == ApplyDraws(GOOD, [])
    ensures o == Run(g, JoinMachine(cfg, cn))
    ensures o.world.file == Some(g.world.mem) && Infra(o.world) == Mem(g.world)
  {
    var others := MachineState(cn) + ([WaitSSH(cn), PrepareNodes] + ([JoinNodes] + LoadBalancerUpdate(cfg)));
    JoinShape(cfg, cn);
    FullApply(g.world);
    hide Exec, Do, Run, JoinMachine, TerraformApply, MachineState, LoadBalancerUpdate, ApplyDraws, AppliedWith;
    RunAppend(g, TerraformApply(), others);
    var a := ApplyGoes(g, GOOD, []);
    Guarantees.GoneDoesNothing(a, others);
    o := Run(a, others);
  }

  lemma FileGrew(w: World, f: Fleet, cn: Name)
    requires w.file.Some? && cn in f && cn !in Want(w)
    ensures Want(w) != f
  {}

  /** Draws for a clone and its join, where the join gets `d`. */
  function HalfDraws(cfg: Config, d: Draw, rest: seq<Draw>): seq<Draw> {
    [GOOD] + ([GOOD] + ([GOOD] + ([GOOD] + JoinDraws(cfg, d, rest))))
  }

  lemma IdleHalf(r: Outcome, n: Name, cn: Name, rest: seq<Draw>) returns (j: Outcome)
    requires r.ok && Settled(r.world) && r.world.file == Some(r.world.mem) && n in Mem(r.world) && cn !in Mem(r.world)
    requires r.world.draws == HalfDraws(r.world.cfg, Idle(r.world), rest)
    ensures j == Run(Run(r, CloneMachine(n, "", cn)), JoinMachine(r.world.cfg, cn))
    ensures j.ok && j.world.draws == rest && j.world.cfg == r.world.cfg && j.world.nodes == r.world.nodes
    ensures Settled(j.world) && j.world.file == Some(j.world.mem)
    ensures Mem(j.world) == Mem(r.world)[cn := Mem(r.world)[n]]
  {
    hide Run, Exec, CloneMachine, JoinMachine, JoinDraws, AppliedWith;
    var g := CloneGoes(r, n, cn, GOOD, JoinDraws(r.world.cfg, Idle(r.world), rest));
    j := JoinGoes(g, r.world.cfg, cn, Idle(r.world), rest);
    FullApply(g.world);
    IdleJoin(AppliedWith(g.world, GOOD), Idle(r.world));
  }

  lemma IdleJoin(w: World, d: Draw)
    requires !d.works && d.lost && d.done == {}
    ensures Exec(w, JoinNodes, d) == (w, true)
  {
    assert Joinable(w.inventory) * {} == {};
    assert w.nodes + ({} - w.kubelets) == w.nodes && w.kubelets + {} == w.kubelets;
  }

  /** A replacement whose join did nothing and whose exit code is lost removes the old node all the same: there is
      one live node fewer. */
  lemma LostJoinCostsNode(w: World, n: Name, cn: Name) returns (ds: seq<Draw>)
    requires Settled(w) && w.file == Some(w.mem) && n in Infra(w) && n in w.nodes
    requires cn !in Mem(w) && cn !in w.nodes
    ensures var o := Invoke(w.(draws := ds), Replace(n, "", cn));
            && o.ok && Agreed(o.world)
            && Replace.Live(o.world) == Replace.Live(w) - {n} && !Replace.NoLess(Replace.Live(w), Replace.Live(o.world))
  {
    hide Do, Exec, Run, RemoveDraws, HalfDraws, CloneMachine, JoinMachine, RemoveNode, Replace.Live, Replace.NoLess;
    var cfg := w.cfg;
    var d3 := RemoveDraws(cfg, n in w.nodes, GOOD, GOOD);
    var d1 := HalfDraws(cfg, Idle(w), d3);
    ds := [GOOD] + d1;
    var start := Outcome(w.(draws := ds), true);
    Goes(start, ReadConfig, GOOD, d1);
    ReadEffect(start.world);
    var r := Do(start, ReadConfig);
    ReplaceSplit(start, cfg, n, "", cn);
    var j := IdleHalf(r, n, cn, d3);
    var o := RemoveGoes(j, n, GOOD, GOOD);
    RemovedParts(j.world, n, GOOD);
    hide Removed, Settled;
    OneLess(w, o.world, n, cn);
  }

  lemma OneLess(w: World, w': World, n: Name, cn: Name)
    requires n in w.nodes && n in Infra(w) && cn !in w.nodes && n != cn
    requires w'.nodes == w.nodes - {n} && Infra(w') == Infra(w)[cn := Infra(w)[n]] - {n}
    ensures Replace.Live(w') == Replace.Live(w) - {n} && !Replace.NoLess(Replace.Live(w), Replace.Live(w'))
  {
    var f, g, t := Replace.Live(w), Replace.Live(w'), Infra(w)[n].nodeType;
    assert g == f - {n};
    var a, b := set k | k in f && f[k].nodeType == t, set k | k in g && g[k].nodeType == t;
    assert b == a - {n} && n in a;
    assert Count(g, t) < Count(f, t);
  }

  /** If the Terraform apply did nothing and its exit code is lost, an apply makes nodes of machines that wait to
      be destroyed. */
  lemma LostApplyJoinsDoomed(w: World, x: Name, order: seq<Name>) returns (ds: seq<Draw>)
    requires w.file.Some? && x in Joinable(Infra(w)) && x !in Want(w) && x !in w.kubelets
    ensures var o := Invoke(w.(draws := ds), Apply(order));
            o.ok && x in o.world.nodes && o.world.file == w.file && x in Infra(o.world) && !KeptNodes.Safe(o.world)
  {
    hide Exec, Do, ApplyAll, Waits, Run, ApplyDraws, Goods, AppliedWith;
    var rest := [GOOD] + ([GOOD] + []);
    var d1 := Goods(3) + ApplyDraws(Idle(w), Goods(|Waits(w.cfg, order)|) + rest);
    ds := [GOOD] + d1;
    var start := Outcome(w.(draws := ds), true);
    Goes(start, ReadConfig, GOOD, d1);
    ReadEffect(start.world);
    var r := Do(start, ReadConfig);
    Cons(start, ReadConfig, ApplyAll(w.cfg, order));
    var b, o := ApplyAllGoes(r, order, Idle(w), rest);
    IdleApply(r.world, Idle(w));
    AllJoin(b.world, x);
    NotKept(o.world, x);
  }

  lemma NotKept(w: World, x: Name)
    requires x in w.nodes && x in Infra(w) && w.file.Some? && x !in Want(w)
    ensures !KeptNodes.Safe(w)
  {}

  lemma IdleApply(w: World, d: Draw)
    requires !d.works && d.done == {} && d.gone == {}
    ensures var w' := AppliedWith(w, d);
            && Infra(w') == Infra(w) == w'.inventory && w'.file == Some(w.mem) && w'.mem == w.mem && w'.cfg == w.cfg
            && w'.kubelets <= w.kubelets
  {
    assert PartlyApplied(Infra(w), Mem(w), {}, {}) == Infra(w);
    hide PartlyApplied;
  }

  lemma AllJoin(w: World, x: Name)
    requires x in Joinable(w.inventory) && x !in w.kubelets
    ensures var (w', ok) := Exec(w, DeployKubernetes, GOOD);
            ok && x in w'.nodes && w'.file == w.file && w'.infra == w.infra && w'.cfg == w.cfg
  {}
}
