/**
 Runs in which every tool works: each command then succeeds and does what it is asked to. The draws are all
 `GOOD`, but for places where a parameter says otherwise.
 */
module Progress {
  import opened Fleet
  import opened Images
  import opened Wrappers
  import opened Lifecycle
  import opened Stages
  import opened Reconcile

  const GOOD := Draw(true, false, false, {}, {}, NOTHING, 0)

  function Goods(n: nat): seq<Draw> { seq(n, i => GOOD) }

  /** The same world but for log and draws. */
  ghost predicate Like(w: World, w': World) {
    w' == w.(log := w'.log, draws := w'.draws)
  }

  lemma Goes(o: Outcome, s: Step, d: Draw, rest: seq<Draw>)
    requires o.ok && o.world.draws == [d] + rest && !s.DrainIfSeen?
    ensures Do(o, s).ok == Exec(o.world, s, d).1
    ensures Do(o, s).world.draws == rest && Like(Exec(o.world, s, d).0, Do(o, s).world)
  {
    ExecFrame(o.world, s, d);
    assert ([d] + rest)[1..] == rest;
    hide Exec;
  }

  predicate Easy(s: Step) {
    || s.RemoteInit? || s.RemoteConfig? || s.RemoteApply? || s.TfInit? || s.TfOutput? || s.WriteInfraJSON?
    || s.WaitSSH? || s.PrepareNodes? || s.Infrastructure? || s.EncryptKubeconfig? || s.Drain?
  }

  lemma EasyWorks(w: World, s: Step)
    requires Easy(s)
    ensures Exec(w, s, GOOD) == (w, true)
  {}

  lemma {:induction false} Smooth(o: Outcome, script: seq<Step>, rest: seq<Draw>) returns (o': Outcome)
    requires o.ok && o.world.draws == Goods(|script|) + rest && forall s :: s in script ==> Easy(s)
    ensures o' == Run(o, script)
    ensures o'.ok && o'.world.draws == rest && Like(o.world, o'.world)
    decreases |script|
  {
    hide Exec, Do;
    if script == [] {
      o' := o;
    } else {
      var more := Goods(|script| - 1) + rest;
      assert o.world.draws == [GOOD] + more;
      EasyWorks(o.world, script[0]);
      Goes(o, script[0], GOOD, more);
      o' := Smooth(Do(o, script[0]), script[1..], rest);
    }
  }

  /** The check, with the plan's draw `d`. */
  lemma PlanGoes(o: Outcome, d: Draw, rest: seq<Draw>) returns (o': Outcome)
    requires o.ok && o.world.draws == [GOOD] + ([d] + rest)
    requires if d.works then d == GOOD && Settled(o.world) else d.lost
    ensures o' == Run(o, PlanNoDiff())
    ensures o'.ok && o'.world.draws == rest && Like(o.world, o'.world)
  {
    Goes(o, TfInit, GOOD, [d] + rest);
    EasyWorks(o.world, TfInit);
    var a := Do(o, TfInit);
    if d.works { EmptyPlanPasses(a.world); } else { LostPlan(a.world, d); }
    hide Exec, Do;
    assert PlanNoDiff() == [TfInit] + [TfPlan];
    Cons(o, TfInit, [TfPlan]);
    One(a, TfPlan);
    Goes(a, TfPlan, d, rest);
    o' := Do(a, TfPlan);
    PlanChangesNothing(a.world, d);
  }

  lemma PlanChangesNothing(w: World, d: Draw)
    ensures Exec(w, TfPlan, d).0 == w
  {
    hide PlanCounts;
  }

  lemma EmptyPlanPasses(w: World)
    requires Settled(w)
    ensures Exec(w, TfPlan, GOOD).1
  {
    NoDifference(Infra(w), Want(w));
    CleanCounts(w, GOOD);
    CheckPassesExactly(w, GOOD);
    hide Exec;
  }

  function ApplyDraws(d: Draw, rest: seq<Draw>): seq<Draw> {
    [GOOD] + ([GOOD] + ([d] + (Goods(2) + ([GOOD] + rest))))
  }

  /** The world after an apply with draw `d`. */
  function AppliedWith(w: World, d: Draw): World {
    var w1 := Exec(w.(file := Some(w.mem)), TfApply, d).0;
    w1.(inventory := Infra(w1))
  }

  lemma ApplyGoes(o: Outcome, d: Draw, rest: seq<Draw>) returns (o': Outcome)
    requires o.ok && o.world.draws == ApplyDraws(d, rest) && Reports(d)
    ensures o' == Run(o, TerraformApply())
    ensures o'.ok && o'.world.draws == rest && Like(AppliedWith(o.world, d), o'.world)
  {
    var tail := [TfOutput, WriteInfraJSON];
    assert TerraformApply() == [WriteTFVars] + ([TfInit] + ([TfApply] + (tail + [WriteInventory])));
    var more := Goods(2) + ([GOOD] + rest);
    Goes(o, WriteTFVars, GOOD, [GOOD] + ([d] + more));
    var a := Do(o, WriteTFVars);
    assert Like(o.world.(file := Some(o.world.mem)), a.world);
    Goes(a, TfInit, GOOD, [d] + more);
    EasyWorks(a.world, TfInit);
    var b := Do(a, TfInit);
    Goes(b, TfApply, d, more);
    ApplyReports(b.world, d);
    var c := Do(b, TfApply);
    ApplyLike(o.world.(file := Some(o.world.mem)), b.world, d);
    hide Exec, Do;
    Cons(o, WriteTFVars, [TfInit] + ([TfApply] + (tail + [WriteInventory])));
    Cons(a, TfInit, [TfApply] + (tail + [WriteInventory]));
    Cons(b, TfApply, tail + [WriteInventory]);
    RunAppend(c, tail, [WriteInventory]);
    var e := Smooth(c, tail, [GOOD] + rest);
    One(e, WriteInventory);
    Goes(e, WriteInventory, GOOD, rest);
    InventoryWritten(e.world);
    o' := Do(e, WriteInventory);
  }

  lemma ApplyReports(w: World, d: Draw)
    requires w.file.Some?
    ensures Exec(w, TfApply, d).1 <==> Reports(d)
  {}

  lemma ApplyLike(w: World, w': World, d: Draw)
    requires Like(w, w')
    ensures Like(Exec(w, TfApply, d).0, Exec(w', TfApply, d).0)
  {
    hide PartlyApplied;
  }

  lemma AppliedAlike(w: World, w': World, d: Draw)
    requires Like(w, w')
    ensures Like(AppliedWith(w, d), AppliedWith(w', d))
  {
    hide PartlyApplied;
  }

  lemma InventoryWritten(w: World)
    ensures Exec(w, WriteInventory, GOOD) == (w.(inventory := Infra(w)), true)
  {}

  lemma FullApply(w: World)
    ensures var w' := AppliedWith(w, GOOD);
            && w'.file == Some(w.mem) && w'.mem == w.mem && Infra(w') == Mem(w) && w'.rest == NOTHING
            && w'.cfg == w.cfg && w'.nodes == w.nodes && w'.kubelets <= w.kubelets && w'.inventory == Mem(w)
  {
    hide Extra, Changed;
  }

  lemma StateGoes(o: Outcome, n: Name, rest: seq<Draw>) returns (o': Outcome)
    requires o.ok && o.world.draws == Goods(2) + ([GOOD] + rest) && n in Infra(o.world)
    ensures o' == Run(o, MachineState(n))
    ensures o'.ok && o'.world.draws == rest && Like(o.world, o'.world)
  {
    var two := [TfInit, TfOutput];
    assert MachineState(n) == two + [FindState(n)];
    RunAppend(o, two, [FindState(n)]);
    hide Do, Run;
    var a := Smooth(o, two, [GOOD] + rest);
    One(a, FindState(n));
    Goes(a, FindState(n), GOOD, rest);
    o' := Do(a, FindState(n));
  }

  lemma BalancerGoes(o: Outcome, cfg: Config, rest: seq<Draw>) returns (o': Outcome)
    requires o.ok && o.world.draws == Goods(|LoadBalancerUpdate(cfg)|) + rest
    ensures o' == Run(o, LoadBalancerUpdate(cfg))
    ensures o'.ok && o'.world.draws == rest && Like(o.world, o'.world)
  {
    hide Exec, Do, Run;
    o' := Smooth(o, LoadBalancerUpdate(cfg), rest);
  }

  lemma ReadEffect(w: World)
    requires w.file.Some?
    ensures Exec(w, ReadConfig, GOOD) == (w.(mem := w.file.value), true)
  {}

  /******* Removing *******/

  /** Everything works, but for the draws `dd` of the node's deletion and `da` of the apply. */
  function RemoveDraws(cfg: Config, seen: bool, dd: Draw, da: Draw): seq<Draw> {
    [GOOD] + ([GOOD] + ([GOOD] + ((if seen then [GOOD] else []) + (Goods(2) + ([GOOD] + ([GOOD] + ([dd]
    + ([GOOD] + ApplyDraws(da, Goods(|LoadBalancerUpdate(cfg)|) + [])))))))))
  }

  lemma SeeGoes(o: Outcome, n: Name, rest: seq<Draw>) returns (o': Outcome)
    requires o.ok && o.world.draws == [GOOD] + ((if n in o.world.nodes then [GOOD] else []) + rest)
    ensures o' == Do(Do(o, GetNode(n)), DrainIfSeen(n))
    ensures o'.ok && o'.world.draws == rest && Like(o.world.(seen := n in o.world.nodes), o'.world)
  {
    var more := (if n in o.world.nodes then [GOOD] else []) + rest;
    Goes(o, GetNode(n), GOOD, more);
    var a := Do(o, GetNode(n));
    o' := Do(a, DrainIfSeen(n));
    if a.world.seen {
      EasyWorks(a.world, Drain(n));
      assert a.world.draws == [GOOD] + rest;
      assert a.world.draws[1..] == rest;
      hide Exec;
    } else {
      assert [] + rest == rest;
    }
  }

  lemma ResetGoes(o: Outcome, n: Name, dd: Draw, rest: seq<Draw>) returns (o': Outcome)
    requires o.ok && o.world.draws == Goods(2) + ([GOOD] + ([GOOD] + ([dd] + rest)))
    requires n in Infra(o.world) && Reports(dd)
    ensures o' == Run(o, ResetNode(n))
    ensures o'.ok && o'.world.draws == rest
    ensures Like(o.world.(nodes := if dd.works || dd.odd then o.world.nodes - {n} else o.world.nodes,
                          kubelets := o.world.kubelets - {n}), o'.world)
  {
    assert ResetNode(n) == MachineState(n) + ([SshReset(n)] + [DeleteNode(n)]);
    RunAppend(o, MachineState(n), [SshReset(n)] + [DeleteNode(n)]);
    hide Do, Run, Exec, MachineState, ResetNode, Goods;
    var a := StateGoes(o, n, [GOOD] + ([dd] + rest));
    Cons(a, SshReset(n), [DeleteNode(n)]);
    Goes(a, SshReset(n), GOOD, [dd] + rest);
    var b := Do(a, SshReset(n));
    One(b, DeleteNode(n));
    Goes(b, DeleteNode(n), dd, rest);
    o' := Do(b, DeleteNode(n));
    ResetEffects(a.world, n, GOOD);
    ResetEffects(b.world, n, dd);
  }

  lemma ResetEffects(w: World, n: Name, d: Draw)
    ensures Exec(w, SshReset(n), GOOD) == (w.(kubelets := w.kubelets - {n}), true)
    ensures Exec(w, DeleteNode(n), d)
         == (w.(nodes := if d.works || d.odd then w.nodes - {n} else w.nodes), Reports(d))
  {}

  /** The world after a removal. */
  function Removed(w: World, n: Name, dd: Draw, da: Draw): World {
    AppliedWith(SetMem(w.(seen := n in w.nodes,
                          nodes := if dd.works || dd.odd then w.nodes - {n} else w.nodes,
                          kubelets := w.kubelets - {n}), Mem(w) - {n}), da)
  }

  lemma RemoveGoes(o: Outcome, n: Name, dd: Draw, da: Draw) returns (o': Outcome)
    requires o.ok && Settled(o.world) && n in Infra(o.world) && Reports(dd) && Reports(da)
    requires o.world.draws == RemoveDraws(o.world.cfg, n in o.world.nodes, dd, da)
    ensures o' == Run(o, RemoveNode(o.world.cfg, n))
    ensures o'.ok && Like(Removed(o.world, n, dd, da), o'.world)
  {
    var cfg := o.world.cfg;
    RemoveShape(cfg, n);
    hide Exec, Do, Run, RemoveNode, TerraformApply, PlanNoDiff, ResetNode, LoadBalancerUpdate, ApplyDraws, Goods;
    var last := TerraformApply() + LoadBalancerUpdate(cfg);
    var rest := [GetNode(n)] + ([DrainIfSeen(n)] + (ResetNode(n) + ([MapRemove(n)] + last)));
    RunAppend(o, PlanNoDiff(), rest);
    var d5 := ApplyDraws(da, Goods(|LoadBalancerUpdate(cfg)|) + []);
    var d4 := Goods(2) + ([GOOD] + ([GOOD] + ([dd] + ([GOOD] + d5))));
    var p := PlanGoes(o, GOOD, [GOOD] + ((if n in o.world.nodes then [GOOD] else []) + d4));
    Cons(p, GetNode(n), [DrainIfSeen(n)] + (ResetNode(n) + ([MapRemove(n)] + last)));
    Cons(Do(p, GetNode(n)), DrainIfSeen(n), ResetNode(n) + ([MapRemove(n)] + last));
    var s := SeeGoes(p, n, d4);
    RunAppend(s, ResetNode(n), [MapRemove(n)] + last);
    var r := ResetGoes(s, n, dd, [GOOD] + d5);
    Cons(r, MapRemove(n), last);
    Goes(r, MapRemove(n), GOOD, d5);
    var m := Do(r, MapRemove(n));
    MapWithout(r.world, n);
    RunAppend(m, TerraformApply(), LoadBalancerUpdate(cfg));
    var a := ApplyGoes(m, da, Goods(|LoadBalancerUpdate(cfg)|) + []);
    o' := BalancerGoes(a, cfg, []);
    RemovedLike(o.world, m.world, n, dd, da);
  }

  lemma MapWithout(w: World, n: Name)
    ensures Exec(w, MapRemove(n), GOOD) == (SetMem(w, Mem(w) - {n}), true)
  {}

  lemma RemovedLike(w: World, m: World, n: Name, dd: Draw, da: Draw)
    requires Like(SetMem(w.(seen := n in w.nodes,
                            nodes := if dd.works || dd.odd then w.nodes - {n} else w.nodes,
                            kubelets := w.kubelets - {n}), Mem(w) - {n}), m)
    ensures Like(Removed(w, n, dd, da), AppliedWith(m, da))
  {
    hide PartlyApplied;
  }

  /** A removal from a settled world, with draws for which all but the two given ones work. */
  lemma RemovalRuns(w: World, n: Name, dd: Draw, da: Draw) returns (ds: seq<Draw>, o: Outcome)
    requires Settled(w) && w.file == Some(w.mem) && n in Infra(w) && Reports(dd) && Reports(da)
    ensures o == Invoke(w.(draws := ds), Remove(n)) && o.ok && Like(Removed(w, n, dd, da), o.world)
  {
    hide RemoveDraws, Removed;
    var rest := RemoveDraws(w.cfg, n in w.nodes, dd, da);
    ds := [GOOD] + rest;
    var start := Outcome(w.(draws := ds), true);
    Goes(start, ReadConfig, GOOD, rest);
    hide Exec, Do;
    var r := Do(start, ReadConfig);
    Cons(start, ReadConfig, RemoveNode(w.cfg, n));
    hide Run, RemoveNode;
    o := RemoveGoes(r, n, dd, da);
    RemovedAlike(w, r.world, n, dd, da);
  }

  lemma RemovedAlike(w: World, w': World, n: Name, dd: Draw, da: Draw)
    requires Like(w, w')
    ensures Like(Removed(w, n, dd, da), Removed(w', n, dd, da))
  {
    hide PartlyApplied;
  }

  /** What a removal from a settled world comes to, where its apply works. */
  lemma RemovedParts(w: World, n: Name, dd: Draw)
    requires Settled(w) && w.file == Some(w.mem) && n in Infra(w)
    ensures var w' := Removed(w, n, dd, GOOD);
            && Mem(w') == Mem(w) - {n} == Infra(w') && w'.file == Some(w'.mem) && w'.rest == NOTHING
            && w'.nodes == (if dd.works || dd.odd then w.nodes - {n} else w.nodes)
  {
    hide Extra, Changed;
  }

  /** From a settled world a removal during which every tool works succeeds, and all agree again. */
  lemma RemovalSucceeds(w: World, n: Name) returns (ds: seq<Draw>)
    requires Settled(w) && w.file == Some(w.mem) && n in Infra(w)
    ensures var o := Invoke(w.(draws := ds), Remove(n));
            o.ok && Agreed(o.world) && Mem(o.world) == Mem(w) - {n} && o.world.nodes == w.nodes - {n}
  {
    var o;
    ds, o := RemovalRuns(w, n, GOOD, GOOD);
    RemovedParts(w, n, GOOD);
    hide Removed, Invoke;
  }

  /******* Adding, cloning and replacing *******/

  /** The check with draw `dp`, and the clone put into the map. */
  lemma CloneGoes(o: Outcome, n: Name, cn: Name, dp: Draw, rest: seq<Draw>) returns (o': Outcome)
    requires o.ok && n in Mem(o.world) && cn !in Mem(o.world)
    requires o.world.draws == [GOOD] + ([dp] + ([GOOD] + ([GOOD] + rest)))
    requires if dp.works then dp == GOOD && Settled(o.world) else dp.lost
    ensures o' == Run(o, CloneMachine(n, "", cn))
    ensures o'.ok && o'.world.draws == rest && Like(SetMem(o.world, Mem(o.world)[cn := Mem(o.world)[n]]), o'.world)
  {
    assert CloneMachine(n, "", cn) == PlanNoDiff() + ([FindConfigured(n)] + [MapClone(n, "", cn)]);
    RunAppend(o, PlanNoDiff(), [FindConfigured(n)] + [MapClone(n, "", cn)]);
    hide Do, Run, Exec, PlanNoDiff, CloneMachine, Settled;
    var p := PlanGoes(o, dp, [GOOD] + ([GOOD] + rest));
    Cons(p, FindConfigured(n), [MapClone(n, "", cn)]);
    Goes(p, FindConfigured(n), GOOD, [GOOD] + rest);
    var f := Do(p, FindConfigured(n));
    One(f, MapClone(n, "", cn));
    Goes(f, MapClone(n, "", cn), GOOD, rest);
    o' := Do(f, MapClone(n, "", cn));
    CloneEffects(p.world, n, cn);
    CloneEffects(f.world, n, cn);
  }

  lemma CloneEffects(w: World, n: Name, cn: Name)
    requires n in Mem(w) && cn !in Mem(w)
    ensures Exec(w, FindConfigured(n), GOOD) == (w, true)
    ensures Exec(w, MapClone(n, "", cn), GOOD) == (SetMem(w, Mem(w)[cn := Mem(w)[n]]), true)
  {}

  /** The world after an apply that works and a join with draw `d`. */
  function JoinedWith(w: World, d: Draw): World { Exec(AppliedWith(w, GOOD), JoinNodes, d).0 }

  /** Draws for a join; the playbook that joins gets `d`. */
  function JoinDraws(cfg: Config, d: Draw, rest: seq<Draw>): seq<Draw> {
    ApplyDraws(GOOD, Goods(2) + ([GOOD] + (Goods(2) + ([d] + (Goods(|LoadBalancerUpdate(cfg)|) + rest)))))
  }

  lemma JoinGoes(g: Outcome, cfg: Config, n: Name, d: Draw, rest: seq<Draw>) returns (j: Outcome)
    requires g.ok && n in Mem(g.world) && Reports(d) && g.world.draws == JoinDraws(cfg, d, rest)
    ensures j == Run(g, JoinMachine(cfg, n))
    ensures j.ok && j.world.draws == rest && Like(JoinedWith(g.world, d), j.world)
  {
    var d2 := [d] + (Goods(|LoadBalancerUpdate(cfg)|) + rest);
    var d1 := Goods(2) + ([GOOD] + (Goods(2) + d2));
    JoinShape(cfg, n);
    FullApply(g.world);
    hide Run, Do, Exec, JoinMachine, TerraformApply, MachineState, LoadBalancerUpdate, ApplyDraws, Goods, AppliedWith;
    var others := [WaitSSH(n), PrepareNodes] + ([JoinNodes] + LoadBalancerUpdate(cfg));
    RunAppend(g, TerraformApply(), MachineState(n) + others);
    var a := ApplyGoes(g, GOOD, d1);
    RunAppend(a, MachineState(n), others);
    var b := StateGoes(a, n, Goods(2) + d2);
    RunAppend(b, [WaitSSH(n), PrepareNodes], [JoinNodes] + LoadBalancerUpdate(cfg));
    var c := Smooth(b, [WaitSSH(n), PrepareNodes], d2);
    Cons(c, JoinNodes, LoadBalancerUpdate(cfg));
    Goes(c, JoinNodes, d, Goods(|LoadBalancerUpdate(cfg)|) + rest);
    JoinReports(c.world, d);
    JoinLike(AppliedWith(g.world, GOOD), c.world, d);
    j := BalancerGoes(Do(c, JoinNodes), cfg, rest);
  }

  lemma JoinReports(w: World, d: Draw)
    ensures Exec(w, JoinNodes, d).1 <==> Reports(d)
  {}

  lemma JoinLike(w: World, w': World, d: Draw)
    requires Like(w, w')
    ensures Like(Exec(w, JoinNodes, d).0, Exec(w', JoinNodes, d).0)
  {}

  /** A join that works turns every machine that may be a node and holds no kubelet.conf into one. */
  lemma JoinedParts(w: World)
    ensures var w' := JoinedWith(w, GOOD);
            && w'.mem == w.mem && w'.file == Some(w.mem) && Infra(w') == Mem(w) && w'.rest == NOTHING && w'.cfg == w.cfg
            && w'.nodes >= w.nodes && Joinable(Mem(w)) - w.kubelets <= w'.nodes
  {
    FullApply(w);
    var a := AppliedWith(w, GOOD);
    assert a.kubelets <= w.kubelets && a.inventory == Mem(w);
    hide AppliedWith;
  }

  lemma ImageNamed(cfg: Config, t: NodeType, i: string)
    requires ImageFor(cfg, t, i).Some?
    ensures t in cfg.images && cfg.images[t] != []
    ensures ImageName(cfg, t, i) == if i == "" then cfg.images[t][|cfg.images[t]| - 1].name else i
  {
    if i != "" { var r := Lookup(cfg.images[t], i); }
  }

  lemma AddEffects(w: World, n: Name, t: NodeType, size: string, i: string, settings: map<string, int>)
    requires n !in Mem(w) && SkewOk(w.cfg, t, i)
    ensures Exec(w, Build(t, i), GOOD) == (w, true) && Exec(w, CheckSkew(t, i), GOOD) == (w, true)
    ensures Exec(w, MapAdd(n, t, size, i, settings), GOOD)
         == (SetMem(w, Mem(w)[n := Machine(t, size, ImageName(w.cfg, t, i), settings)]), true)
  {
    hide ImageName;
  }

  lemma AddGoes(o: Outcome, n: Name, t: NodeType, size: string, i: string, settings: map<string, int>,
      rest: seq<Draw>) returns (o': Outcome)
    requires o.ok && Settled(o.world) && n !in Mem(o.world) && SkewOk(o.world.cfg, t, i)
    requires o.world.draws == [GOOD] + ([GOOD] + ([GOOD] + ([GOOD] + ([GOOD] + rest))))
    ensures o' == Run(o, AddMachine(n, t, size, i, settings))
    ensures o'.ok && o'.world.draws == rest
    ensures Like(SetMem(o.world, Mem(o.world)[n := Machine(t, size, ImageName(o.world.cfg, t, i), settings)]), o'.world)
  {
    var add := MapAdd(n, t, size, i, settings);
    assert AddMachine(n, t, size, i, settings) == PlanNoDiff() + ([Build(t, i)] + ([CheckSkew(t, i)] + [add]));
    RunAppend(o, PlanNoDiff(), [Build(t, i)] + ([CheckSkew(t, i)] + [add]));
    hide Do, Run, Exec, PlanNoDiff, AddMachine, Settled, ImageName, SkewOk;
    var p := PlanGoes(o, GOOD, [GOOD] + ([GOOD] + ([GOOD] + rest)));
    Cons(p, Build(t, i), [CheckSkew(t, i)] + [add]);
    Goes(p, Build(t, i), GOOD, [GOOD] + ([GOOD] + rest));
    AddEffects(p.world, n, t, size, i, settings);
    var b := Do(p, Build(t, i));
    Cons(b, CheckSkew(t, i), [add]);
    Goes(b, CheckSkew(t, i), GOOD, [GOOD] + rest);
    AddEffects(b.world, n, t, size, i, settings);
    var c := Do(b, CheckSkew(t, i));
    One(c, add);
    Goes(c, add, GOOD, rest);
    AddEffects(c.world, n, t, size, i, settings);
    o' := Do(c, add);
  }

  /** From a settled world an addition under an unused name, of an image in skew, during which every tool works
      succeeds: the machine is configured as asked for, with the latest image if none is named, everything agrees,
      and it is a node if it may be one. */
  lemma AdditionSucceeds(w: World, n: Name, t: NodeType, size: string, i: string, settings: map<string, int>)
      returns (ds: seq<Draw>)
    requires Settled(w) && w.file == Some(w.mem) && n !in Mem(w) && SkewOk(w.cfg, t, i) && n !in w.kubelets
    ensures t in w.cfg.images && w.cfg.images[t] != []
    ensures var o := Invoke(w.(draws := ds), Add(n, t, size, i, settings));
            var image := if i == "" then w.cfg.images[t][|w.cfg.images[t]| - 1].name else i;
            && o.ok && Agreed(o.world) && Mem(o.world) == Mem(w)[n := Machine(t, size, image, settings)]
            && w.nodes <= o.world.nodes && (t != LoadBalancer ==> n in o.world.nodes)
  {
    hide Exec, Do, Run, JoinDraws, AddMachine, JoinMachine, Settled, ImageName, SkewOk, JoinedWith;
    ImageNamed(w.cfg, t, i) by { assert ImageFor(w.cfg, t, i).Some? by { SkewedImage(w.cfg, t, i); } }
    var d2 := JoinDraws(w.cfg, GOOD, []);
    var d1 := [GOOD] + ([GOOD] + ([GOOD] + ([GOOD] + ([GOOD] + d2))));
    ds := [GOOD] + d1;
    var start := Outcome(w.(draws := ds), true);
    Goes(start, ReadConfig, GOOD, d1);
    ReadEffect(start.world);
    var r := Do(start, ReadConfig);
    Cons(start, ReadConfig, AddMachine(n, t, size, i, settings) + JoinMachine(w.cfg, n));
    RunAppend(r, AddMachine(n, t, size, i, settings), JoinMachine(w.cfg, n));
    StillSettled(w, r.world);
    var g := AddGoes(r, n, t, size, i, settings, d2);
    var j := JoinGoes(g, w.cfg, n, GOOD, []);
    JoinedParts(g.world);
  }

  lemma SkewedImage(cfg: Config, t: NodeType, i: string)
    requires SkewOk(cfg, t, i)
    ensures ImageFor(cfg, t, i).Some?
  {}

  lemma StillSettled(w: World, w': World)
    requires Like(w, w')
    ensures Settled(w) <==> Settled(w')
  {}

  function CloneDraws(i: string, rest: seq<Draw>): seq<Draw> {
    if i == "" then [GOOD] + ([GOOD] + ([GOOD] + ([GOOD] + rest)))
    else [GOOD] + ([GOOD] + ([GOOD] + ([GOOD] + ([GOOD] + ([GOOD] + rest)))))
  }

  /** Cloning, with or without an image. */
  lemma CloningGoes(o: Outcome, n: Name, i: string, cn: Name, rest: seq<Draw>) returns (o': Outcome)
    requires o.ok && Settled(o.world) && n in Mem(o.world) && cn !in Mem(o.world)
    requires i != "" ==> SkewOk(o.world.cfg, Mem(o.world)[n].nodeType, i)
    requires o.world.draws == CloneDraws(i, rest)
    ensures o' == Run(o, CloneMachine(n, i, cn))
    ensures o'.ok && o'.world.draws == rest
    ensures Like(SetMem(o.world, Mem(o.world)[cn := CloneOf(o.world.cfg, Mem(o.world)[n], i)]), o'.world)
  {
    if i == "" {
      o' := CloneGoes(o, n, cn, GOOD, rest);
    } else {
      o' := ImageCloneGoes(o, n, i, cn, rest);
    }
  }

  lemma ImageCloneGoes(o: Outcome, n: Name, i: string, cn: Name, rest: seq<Draw>) returns (o': Outcome)
    requires o.ok && Settled(o.world) && n in Mem(o.world) && cn !in Mem(o.world)
    requires i != "" && SkewOk(o.world.cfg, Mem(o.world)[n].nodeType, i)
    requires o.world.draws == CloneDraws(i, rest)
    ensures o' == Run(o, CloneMachine(n, i, cn))
    ensures o'.ok && o'.world.draws == rest
    ensures Like(SetMem(o.world, Mem(o.world)[cn := CloneOf(o.world.cfg, Mem(o.world)[n], i)]), o'.world)
  {
    var clone := MapClone(n, i, cn);
    var checks := [FindConfigured(n)] + ([BuildClone(n, i)] + ([CheckCloneSkew(n, i)] + [clone]));
    assert CloneMachine(n, i, cn) == PlanNoDiff() + checks;
    hide CloneMachine;
    RunAppend(o, PlanNoDiff(), checks);
    hide Do, Run, Exec, PlanNoDiff, Settled, CloneOf, SkewOk;
    var p := PlanGoes(o, GOOD, [GOOD] + ([GOOD] + ([GOOD] + ([GOOD] + rest))));
    ImageCloneEffects(p.world, n, i, cn);
    Cons(p, FindConfigured(n), [BuildClone(n, i)] + ([CheckCloneSkew(n, i)] + [clone]));
    Goes(p, FindConfigured(n), GOOD, [GOOD] + ([GOOD] + ([GOOD] + rest)));
    var a := Do(p, FindConfigured(n));
    ImageCloneEffects(a.world, n, i, cn);
    Cons(a, BuildClone(n, i), [CheckCloneSkew(n, i)] + [clone]);
    Goes(a, BuildClone(n, i), GOOD, [GOOD] + ([GOOD] + rest));
    var b := Do(a, BuildClone(n, i));
    ImageCloneEffects(b.world, n, i, cn);
    Cons(b, CheckCloneSkew(n, i), [clone]);
    Goes(b, CheckCloneSkew(n, i), GOOD, [GOOD] + rest);
    var c := Do(b, CheckCloneSkew(n, i));
    ImageCloneEffects(c.world, n, i, cn);
    One(c, clone);
    Goes(c, clone, GOOD, rest);
    o' := Do(c, clone);
  }

  lemma ImageCloneEffects(w: World, n: Name, i: string, cn: Name)
    requires n in Mem(w) && cn !in Mem(w) && i != "" && SkewOk(w.cfg, Mem(w)[n].nodeType, i)
    ensures Exec(w, FindConfigured(n), GOOD) == (w, true) && Exec(w, BuildClone(n, i), GOOD) == (w, true)
    ensures Exec(w, CheckCloneSkew(n, i), GOOD) == (w, true)
    ensures Exec(w, MapClone(n, i, cn), GOOD) == (SetMem(w, Mem(w)[cn := CloneOf(w.cfg, Mem(w)[n], i)]), true)
  {
    hide ImageName;
  }

  /** The world after the configuration was read and the clone put into the map and joined. */
  lemma HalfSucceeds(w: World, n: Name, i: string, cn: Name, rest: seq<Draw>)
      returns (ds: seq<Draw>, r: Outcome, j: Outcome)
    requires Settled(w) && w.file == Some(w.mem) && n in Mem(w) && cn !in Mem(w) && cn !in w.kubelets
    requires i != "" ==> SkewOk(w.cfg, Mem(w)[n].nodeType, i)
    ensures r == Do(Outcome(w.(draws := ds), true), ReadConfig)
    ensures j == Run(Run(r, CloneMachine(n, i, cn)), JoinMachine(w.cfg, cn))
    ensures j.ok && j.world.draws == rest && j.world.cfg == w.cfg
    ensures Agreed(j.world) && Mem(j.world) == Mem(w)[cn := CloneOf(w.cfg, Mem(w)[n], i)]
    ensures j.world.nodes == AfterJoin(w, n, i, cn)
  {
    hide Exec, Do, Run, JoinDraws, CloneDraws, CloneMachine, JoinMachine, Settled, SkewOk, JoinedWith;
    var d2 := JoinDraws(w.cfg, GOOD, rest);
    ds := [GOOD] + CloneDraws(i, d2);
    var start := Outcome(w.(draws := ds), true);
    Goes(start, ReadConfig, GOOD, CloneDraws(i, d2));
    ReadEffect(start.world);
    r := Do(start, ReadConfig);
    StillSettled(w, r.world);
    var g := CloningGoes(r, n, i, cn, d2);
    j := JoinGoes(g, w.cfg, cn, GOOD, rest);
    JoinedParts(g.world);
    JoinedGrown(g.world, cn, CloneOf(w.cfg, Mem(w)[n], i)) by { Provisioned(w); }
    hide CloneOf;
  }

  lemma Provisioned(w: World)
    requires Settled(w) && w.file == Some(w.mem)
    ensures Infra(w) == Mem(w)
  {}

  /** The nodes after the clone of `n` was joined. */
  function AfterJoin(w: World, n: Name, i: string, cn: Name): set<Name>
    requires n in Mem(w)
  {
    w.nodes + (Joinable(Mem(w)[cn := CloneOf(w.cfg, Mem(w)[n], i)]) - w.kubelets)
  }

  lemma AfterJoinHas(w: World, n: Name, i: string, cn: Name)
    requires n in Mem(w) && cn !in w.kubelets
    ensures w.nodes <= AfterJoin(w, n, i, cn) && (Mem(w)[n].nodeType != LoadBalancer ==> cn in AfterJoin(w, n, i, cn))
  {
    hide ImageName;
  }

  lemma JoinedGrown(g: World, n: Name, x: Machine)
    requires n !in Infra(g) && Mem(g) == Infra(g)[n := x]
    ensures JoinedWith(g, GOOD).nodes == g.nodes + (Joinable(Mem(g)) - g.kubelets)
  {
    assert Extra(Infra(g), Mem(g)) == {} && Changed(Infra(g), Mem(g)) == {};
    assert g.kubelets - ({} + {}) == g.kubelets;
    FullApply(g);
    var a := AppliedWith(g, GOOD);
    assert a.kubelets == g.kubelets;
    hide AppliedWith, Extra, Changed;
  }

  /** From a settled world a clone during which every tool works succeeds: it is configured like the original, but
      for the image if one is named, everything agrees, and it is a node if it may be one. */
  lemma CloningSucceeds(w: World, n: Name, i: string, cn: Name) returns (ds: seq<Draw>)
    requires Settled(w) && w.file == Some(w.mem) && n in Mem(w) && cn !in Mem(w) && cn !in w.kubelets
    requires i != "" ==> SkewOk(w.cfg, Mem(w)[n].nodeType, i)
    ensures var o := Invoke(w.(draws := ds), Clone(n, i, cn));
            && o.ok && Agreed(o.world)
            && Mem(o.world) == Mem(w)[cn := if i == "" then Mem(w)[n] else Mem(w)[n].(image := i)]
            && w.nodes <= o.world.nodes && (Mem(w)[n].nodeType != LoadBalancer ==> cn in o.world.nodes)
  {
    var r, j;
    ds, r, j := HalfSucceeds(w, n, i, cn, []);
    if i != "" {
      SkewedImage(w.cfg, Mem(w)[n].nodeType, i);
      ImageNamed(w.cfg, Mem(w)[n].nodeType, i);
    }
    AfterJoinHas(w, n, i, cn);
    hide Do, CloneMachine, JoinMachine, ImageName, AfterJoin;
    var start := Outcome(w.(draws := ds), true);
    Cons(start, ReadConfig, CloneMachine(n, i, cn) + JoinMachine(w.cfg, cn));
    RunAppend(r, CloneMachine(n, i, cn), JoinMachine(w.cfg, cn));
    hide Run;
  }

  lemma ReplaceSplit(start: Outcome, cfg: Config, n: Name, i: string, cn: Name)
    ensures var half := Run(Run(Do(start, ReadConfig), CloneMachine(n, i, cn)), JoinMachine(cfg, cn));
            Run(start, [ReadConfig] + Body(cfg, Replace(n, i, cn))) == Run(half, RemoveNode(cfg, n))
  {
    var clone, join, r := CloneMachine(n, i, cn), JoinMachine(cfg, cn), Do(start, ReadConfig);
    hide Do, CloneMachine, JoinMachine, RemoveNode;
    Cons(start, ReadConfig, clone + join + RemoveNode(cfg, n));
    RunAppend(r, clone + join, RemoveNode(cfg, n));
    RunAppend(r, clone, join);
    hide Run;
  }

  /** From a settled world a replacement during which every tool works succeeds: the machine is swapped for its clone
      everywhere, and the clone is a node if it may be one, the old machine is none. */
  lemma ReplacementSucceeds(w: World, n: Name, i: string, cn: Name) returns (ds: seq<Draw>)
    requires Settled(w) && w.file == Some(w.mem) && n in Mem(w) && cn !in Mem(w) && cn !in w.kubelets
    requires i != "" ==> SkewOk(w.cfg, Mem(w)[n].nodeType, i)
    ensures var o := Invoke(w.(draws := ds), Replace(n, i, cn));
            && o.ok && Agreed(o.world)
            && Mem(o.world) == Mem(w)[cn := if i == "" then Mem(w)[n] else Mem(w)[n].(image := i)] - {n}
            && n !in o.world.nodes && w.nodes - {n} <= o.world.nodes
            && (Mem(w)[n].nodeType != LoadBalancer ==> cn in o.world.nodes)
  {
    if i != "" {
      SkewedImage(w.cfg, Mem(w)[n].nodeType, i);
      ImageNamed(w.cfg, Mem(w)[n].nodeType, i);
    }
    AfterJoinHas(w, n, i, cn);
    hide Do, Run, CloneMachine, JoinMachine, RemoveNode, ImageName, RemoveDraws, Removed, AfterJoin;
    // The old node is drained if it is one after the join.
    var seen := n in AfterJoin(w, n, i, cn);
    var r, j;
    ds, r, j := HalfSucceeds(w, n, i, cn, RemoveDraws(w.cfg, seen, GOOD, GOOD));
    var start := Outcome(w.(draws := ds), true);
    ReplaceSplit(start, w.cfg, n, i, cn);
    var o := RemoveGoes(j, n, GOOD, GOOD);
    RemovedParts(j.world, n, GOOD);
  }

  /******* Applying everything *******/

  function Waits(cfg: Config, order: seq<Name>): seq<Step> {
    [TfInit, TfOutput] + WaitAll(order) + LoadBalancerUpdate(cfg)
  }

  lemma EasyApply(cfg: Config, order: seq<Name>)
    ensures |RemoteSteps()| == 3 && forall s :: s in RemoteSteps() ==> Easy(s)
    ensures forall s :: s in Waits(cfg, order) ==> Easy(s)
    ensures ApplyAll(cfg, order) == RemoteSteps() + (TerraformApply() +
              (Waits(cfg, order) + ([DeployKubernetes] + [EncryptKubeconfig])))
  {
    ApplyShape(cfg, order);
    assert forall s :: s in WaitAll(order) ==> Easy(s);
    assert forall s :: s in LoadBalancerUpdate(cfg) ==> Easy(s);
    hide WaitAll, LoadBalancerUpdate;
  }

  lemma DeployWorks(w: World)
    ensures Exec(w, DeployKubernetes, GOOD).1
  {}

  lemma DeployGoes(b: Outcome) returns (o': Outcome)
    requires b.ok && b.world.draws == [GOOD] + ([GOOD] + [])
    ensures o' == Run(b, [DeployKubernetes] + [EncryptKubeconfig])
    ensures o'.ok && Like(Exec(b.world, DeployKubernetes, GOOD).0, o'.world)
  {
    hide Exec, Do, Run;
    Cons(b, DeployKubernetes, [EncryptKubeconfig]);
    Goes(b, DeployKubernetes, GOOD, [GOOD] + []);
    DeployWorks(b.world);
    var d := Do(b, DeployKubernetes);
    One(d, EncryptKubeconfig);
    Goes(d, EncryptKubeconfig, GOOD, []);
    EasyWorks(d.world, EncryptKubeconfig);
    o' := Do(d, EncryptKubeconfig);
  }

  /** An apply all of whose tools work, but for its Terraform apply, which gets `d`. */
  lemma ApplyAllGoes(r: Outcome, order: seq<Name>, d: Draw, rest: seq<Draw>) returns (b: Outcome, o': Outcome)
    requires r.ok && Reports(d)
    requires r.world.draws == Goods(3) + ApplyDraws(d, Goods(|Waits(r.world.cfg, order)|) + rest)
    requires rest == [GOOD] + ([GOOD] + [])
    ensures o' == Run(r, ApplyAll(r.world.cfg, order))
    ensures b.ok && Like(AppliedWith(r.world, d), b.world)
    ensures o'.ok && Like(Exec(b.world, DeployKubernetes, GOOD).0, o'.world)
  {
    var cfg, waits := r.world.cfg, Waits(r.world.cfg, order);
    EasyApply(cfg, order);
    hide Exec, Do, ApplyAll, TerraformApply, Waits, Run, ApplyDraws, Goods, AppliedWith, RemoteSteps;
    var last := [DeployKubernetes] + [EncryptKubeconfig];
    RunAppend(r, RemoteSteps(), TerraformApply() + (waits + last));
    var f := Smooth(r, RemoteSteps(), ApplyDraws(d, Goods(|waits|) + rest));
    RunAppend(f, TerraformApply(), waits + last);
    var a := ApplyGoes(f, d, Goods(|waits|) + rest);
    AppliedAlike(r.world, f.world, d);
    RunAppend(a, waits, last);
    b := Smooth(a, waits, rest);
    o' := DeployGoes(b);
  }

  /** From any world whose file can be read an apply during which every tool works succeeds: the Terraform state
      becomes what the file describes, nothing is left to do, and what may be a node and held no kubelet.conf is
      one. */
  lemma ApplySucceeds(w: World, order: seq<Name>) returns (ds: seq<Draw>)
    requires w.file.Some?
    ensures var o := Invoke(w.(draws := ds), Apply(order));
            && o.ok && Agreed(o.world) && o.world.file == w.file && Infra(o.world) == Want(w)
            && w.nodes <= o.world.nodes && Joinable(Want(w)) - w.kubelets <= o.world.nodes
  {
    hide Exec, Do, ApplyAll, Waits, Run, ApplyDraws, Goods, AppliedWith;
    var rest := [GOOD] + ([GOOD] + []);
    var d1 := Goods(3) + ApplyDraws(GOOD, Goods(|Waits(w.cfg, order)|) + rest);
    ds := [GOOD] + d1;
    var start := Outcome(w.(draws := ds), true);
    Goes(start, ReadConfig, GOOD, d1);
    ReadEffect(start.world);
    var r := Do(start, ReadConfig);
    Cons(start, ReadConfig, ApplyAll(w.cfg, order));
    var b, o := ApplyAllGoes(r, order, GOOD, rest);
    FullApply(r.world);
    AllDeployed(b.world);
  }

  lemma AllDeployed(w: World)
    ensures var (w', ok) := Exec(w, DeployKubernetes, GOOD);
            && ok && w' == w.(nodes := w'.nodes, kubelets := w'.kubelets)
            && w.nodes <= w'.nodes && Joinable(w.inventory) - w.kubelets <= w'.nodes
  {}
}
