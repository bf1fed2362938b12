/** A machine that is a Kubernetes node is never destroyed or created anew, at no step of any command, as
    long as no Terraform apply and no node deletion has its exit code lost. */
module KeptNodes {
  import opened Fleet
  import opened Wrappers
  import opened Lifecycle
  import opened Stages
  import PlanCheck
  import Reconcile

  /** The configuration keeps the machine of every node as it is. */
  ghost predicate Kept(nodes: set<Name>, have: Fleet, want: Fleet) {
    forall n :: n in nodes && n in have ==> n in want && want[n] == have[n]
  }

  /** Every node runs on a provisioned machine that the file keeps; any number of machines may wait to be
      created, changed or destroyed. */
  ghost predicate Safe(w: World) {
    && w.nodes <= Joinable(Infra(w))
    && w.kubelets <= Infra(w).Keys
    && (w.file.Some? ==> Kept(w.nodes, Infra(w), Want(w)))
  }

  /** ... and that the process's own map keeps. */
  ghost predicate Guarded(w: World) { Safe(w) && Kept(w.nodes, Infra(w), Mem(w)) }

  /** What is a node in both worlds runs on the same machine. */
  ghost predicate SameMachines(w: World, w': World) {
    forall n :: n in w.nodes && n in w'.nodes ==>
      n in Infra(w) && n in Infra(w') && Infra(w')[n] == Infra(w)[n]
  }

  /** From `from` on, no apply and no node deletion that reported success had its exit code lost. */
  ghost predicate AllHeard(log: seq<Event>, from: nat) {
    forall i :: from <= i < |log| && log[i].lost ==> !log[i].step.TfApply? && !log[i].step.DeleteNode?
  }

  lemma AllHeardPart(log: seq<Event>, more: seq<Event>, from: nat, later: nat)
    requires log <= more && from <= later && AllHeard(more, from)
    ensures AllHeard(log, later)
  {
    forall i | later <= i < |log| && log[i].lost ensures !log[i].step.TfApply? && !log[i].step.DeleteNode? {
      assert more[i] == log[i];
    }
  }

  lemma HeardOf(log: seq<Event>, from: nat, later: nat, s: Step)
    requires AllHeard(log, from) && from <= later && (s.TfApply? || s.DeleteNode?)
    ensures Heard(log, later, s)
  {}

  /******* Single steps *******/

  predicate Joins(s: Step) { s.JoinNodes? || s.DeployKubernetes? }

  /** A machine leaves the map only when it is no node; nodes are joined only where map, file, state and
      inventory agree, and none that was there at first is missing. */
  ghost predicate Careful(w0: World, w: World, s: Step) {
    && (s.MapRemove? ==> s.name !in w.nodes)
    && (Joins(s) ==> w0.nodes <= w.nodes && w.file == Some(w.mem) && Infra(w) == Mem(w) == w.inventory)
  }

  /** An apply, however far it gets, leaves alone what is to stay. */
  lemma PartlyKeeps(have: Fleet, want: Fleet, done: set<Name>, gone: set<Name>, n: Name)
    ensures var now := PartlyApplied(have, want, done, gone);
            n in have && n in want && want[n] == have[n] ==> n in now && now[n] == have[n]
  {}

  lemma InfraReplaced(w: World, f: Fleet, r: Rest)
    requires Guarded(w) && forall n :: n in w.nodes ==> n in f && f[n] == Infra(w)[n]
    ensures var w' := SetInfra(w, f).(rest := r); Guarded(w') && SameMachines(w, w') && w'.nodes == w.nodes
  {
    hide Changed;
  }

  lemma ApplyGuarded(w: World, d: Draw)
    requires Guarded(w)
    ensures var w' := Exec(w, TfApply, d).0; Guarded(w') && SameMachines(w, w') && w'.nodes == w.nodes
  {
    if w.file.None? {
      GuardedSame(w, w);
    } else {
      var want := Want(w);
      var f := if d.works then want else PartlyApplied(Infra(w), want, d.done, d.gone);
      forall n | n in w.nodes ensures n in f && f[n] == Infra(w)[n] {
        PartlyKeeps(Infra(w), want, d.done, d.gone, n);
        hide PartlyApplied;
      }
      InfraReplaced(w, f, if d.works then NOTHING else Least(w.rest, d.left));
      hide Guarded, SameMachines, SetInfra, PartlyApplied;
    }
  }

  lemma JoinGuarded(w: World, s: Step, d: Draw)
    requires Guarded(w) && Joins(s) && w.file == Some(w.mem) && Infra(w) == Mem(w) == w.inventory
    ensures var w' := Exec(w, s, d).0; Guarded(w') && w'.infra == w.infra && w.nodes <= w'.nodes
  {}

  lemma ExecGuarded(w: World, s: Step, d: Draw)
    requires Guarded(w) && !s.ReadConfig? && !s.TfApply? && !Joins(s) && (s.MapRemove? ==> s.name !in w.nodes)
    ensures var w' := Exec(w, s, d).0; Guarded(w') && w'.infra == w.infra && w'.nodes <= w.nodes
  {
    hide PlanCounts, SkewOk, ImageName, PartlyApplied, SetInfra;
  }

  lemma GuardedSame(w: World, w': World)
    requires Guarded(w) && w'.infra == w.infra && w'.cfg == w.cfg
    ensures SameMachines(w, w')
  {}

  /** A careful step keeps the invariant and the machine of every node. */
  lemma StepGuarded(w0: World, o: Outcome, s: Step)
    requires Guarded(o.world) && SameMachines(w0, o.world) && !s.ReadConfig?
    requires o.ok ==> Careful(w0, o.world, s)
    ensures var w' := Do(o, s).world; Guarded(w') && SameMachines(w0, w') && SameMachines(o.world, w')
  {
    var w := o.world;
    GuardedSame(w, w);
    if !o.ok || (s.DrainIfSeen? && !w.seen) || w.draws == [] {
      Unmoved(o, s);
    } else {
      var step := if s.DrainIfSeen? then Drain(s.name) else s;
      var w1 := Exec(w, step, w.draws[0]).0;
      ExecFrame(w, step, w.draws[0]);
      if step.TfApply? {
        ApplyGuarded(w, w.draws[0]);
      } else {
        if Joins(step) { JoinGuarded(w, step, w.draws[0]); } else { ExecGuarded(w, step, w.draws[0]); }
        GuardedSame(w, w1);
      }
      assert Guarded(w1) && SameMachines(w, w1);
      hide Exec;
      LoggedOnly(o, s, w1);
    }
  }

  lemma Unmoved(o: Outcome, s: Step)
    requires !o.ok || (s.DrainIfSeen? && !o.world.seen) || o.world.draws == []
    ensures var w' := Do(o, s).world; w' == o.world.(log := w'.log, draws := w'.draws)
  {}

  lemma LoggedOnly(o: Outcome, s: Step, w1: World)
    requires o.ok && o.world.draws != [] && !(s.DrainIfSeen? && !o.world.seen)
    requires w1 == Exec(o.world, if s.DrainIfSeen? then Drain(s.name) else s, o.world.draws[0]).0
    ensures var w' := Do(o, s).world; w' == w1.(log := w'.log, draws := w'.draws)
  {
    hide Exec;
  }

  /******* Runs *******/

  /** Every step is careful as long as all exit codes that matter were heard since `from`. */
  ghost predicate CarefulRun(w0: World, from: nat, o: Outcome, script: seq<Step>)
    decreases |script|
  {
    script == [] ||
    (&& !script[0].ReadConfig?
     && (o.ok && AllHeard(o.world.log, from) ==> Careful(w0, o.world, script[0]))
     && CarefulRun(w0, from, Do(o, script[0]), script[1..]))
  }

  predicate Plain(s: Step) { !s.ReadConfig? && !s.MapRemove? && !Joins(s) }

  lemma {:induction false} PlainRun(w0: World, from: nat, o: Outcome, script: seq<Step>)
    requires forall s :: s in script ==> Plain(s)
    ensures CarefulRun(w0, from, o, script)
    decreases |script|
  {
    hide Do;
    if script != [] {
      assert Plain(script[0]);
      PlainRun(w0, from, Do(o, script[0]), script[1..]);
    }
  }

  lemma {:induction false} CarefulAppend(w0: World, from: nat, o: Outcome, a: seq<Step>, b: seq<Step>)
    requires CarefulRun(w0, from, o, a) && CarefulRun(w0, from, Run(o, a), b)
    ensures CarefulRun(w0, from, o, a + b)
    decreases |a|
  {
    hide Do;
    if a == [] {
      assert a + b == b;
    } else {
      assert (a + b)[1..] == a[1..] + b;
      CarefulAppend(w0, from, Do(o, a[0]), a[1..], b);
    }
  }

  lemma CarefulOne(w0: World, from: nat, o: Outcome, s: Step)
    requires !s.ReadConfig? && (o.ok && AllHeard(o.world.log, from) ==> Careful(w0, o.world, s))
    ensures CarefulRun(w0, from, o, [s])
  {
    hide Do, Careful;
    assert [s][1..] == [];
  }

  lemma {:induction false} CarefulPrefix(w0: World, from: nat, o: Outcome, script: seq<Step>, k: nat)
    requires CarefulRun(w0, from, o, script) && k <= |script|
    requires Guarded(o.world) && SameMachines(w0, o.world)
    requires AllHeard(Run(o, script[..k]).world.log, from)
    ensures var w' := Run(o, script[..k]).world;
            Guarded(w') && SameMachines(w0, w')
            && (k > 0 ==> SameMachines(Run(o, script[..k - 1]).world, w'))
    decreases k
  {
    hide Do, Guarded, SameMachines, Careful;
    if k > 0 {
      assert script[..k] == [script[0]] + script[1..][..k - 1];
      Cons(o, script[0], script[1..][..k - 1]);
      var a := Do(o, script[0]);
      DoGrows(o, script[0]);
      RunGrows(a, script[1..][..k - 1]);
      AllHeardPart(o.world.log, Run(o, script[..k]).world.log, from, from);
      StepGuarded(w0, o, script[0]);
      CarefulPrefix(w0, from, a, script[1..], k - 1);
      if k > 1 {
        assert script[..k - 1] == [script[0]] + script[1..][..k - 2];
        Cons(o, script[0], script[1..][..k - 2]);
      } else {
        assert script[..0] == [];
      }
    }
  }

  /******* Commands *******/

  lemma JoinParts(cfg: Config, n: Name) returns (waits: seq<Step>)
    ensures waits == MachineState(n) + [WaitSSH(n), PrepareNodes]
    ensures JoinMachine(cfg, n) == (TerraformApply() + waits) + ([JoinNodes] + LoadBalancerUpdate(cfg))
    ensures forall s :: s in waits ==> Inert(s) && Plain(s)
    ensures forall s :: s in TerraformApply() || s in LoadBalancerUpdate(cfg) ==> Plain(s)
  {
    waits := MachineState(n) + [WaitSSH(n), PrepareNodes];
  }

  /** A join with its apply. */
  lemma JoinCareful(w0: World, from: nat, g: Outcome, cfg: Config, n: Name)
    requires from <= |g.world.log| && w0.nodes <= g.world.nodes
    ensures CarefulRun(w0, from, g, JoinMachine(cfg, n))
  {
    var waits := JoinParts(cfg, n);
    hide Exec, Do, JoinMachine, TerraformApply, MachineState, LoadBalancerUpdate, Run, CarefulRun;
    var before := TerraformApply() + waits;
    PlainRun(w0, from, g, before);
    RunAppend(g, TerraformApply(), waits);
    InertRun(Run(g, TerraformApply()), waits);
    var a := ApplyStage(g);
    var b := Run(g, before);
    if b.ok && AllHeard(b.world.log, from) { ReadyAfterApply(w0, from, g, a, b); }
    CarefulOne(w0, from, b, JoinNodes);
    PlainRun(w0, from, Do(b, JoinNodes), LoadBalancerUpdate(cfg));
    One(b, JoinNodes);
    CarefulAppend(w0, from, b, [JoinNodes], LoadBalancerUpdate(cfg));
    CarefulAppend(w0, from, g, before, [JoinNodes] + LoadBalancerUpdate(cfg));
  }

  lemma ReadyAfterApply(w0: World, from: nat, g: Outcome, a: Outcome, b: Outcome)
    requires from <= |g.world.log| && w0.nodes <= g.world.nodes && a.ok && Quiet(a.world, b.world)
    requires Applied(g.world, a.world, a.ok && Heard(a.world.log, |g.world.log|, TfApply))
    requires a.world.file == Some(g.world.mem) && a.world.inventory == Infra(a.world)
    requires AllHeard(b.world.log, from)
    ensures Careful(w0, b.world, JoinNodes) && Careful(w0, b.world, DeployKubernetes)
  {
    AllHeardPart(a.world.log, b.world.log, from, from);
    HeardOf(a.world.log, from, |g.world.log|, TfApply);
    Reconcile.AppliedParts(g.world, a.world, true);
    hide Applied;
  }

  lemma RemoveCareful(w0: World, from: nat, o: Outcome, cfg: Config, n: Name)
    requires from <= |o.world.log|
    ensures CarefulRun(w0, from, o, RemoveNode(cfg, n))
  {
    RemoveShape(cfg, n);
    InertBalancer(cfg);
    var before := PlanNoDiff() + ([GetNode(n)] + ([DrainIfSeen(n)] + ResetNode(n)));
    var last := TerraformApply() + LoadBalancerUpdate(cfg);
    assert forall s :: s in before ==> Plain(s);
    assert forall s :: s in last ==> Plain(s);
    assert RemoveNode(cfg, n) == before + ([MapRemove(n)] + last);
    PlainRun(w0, from, o, before);
    hide Exec, Do, Run, CarefulRun, RemoveNode, TerraformApply, LoadBalancerUpdate, PlanNoDiff, ResetNode;
    var r := Deleted(o, n);
    if r.ok && AllHeard(r.world.log, from) { HeardOf(r.world.log, from, |o.world.log|, DeleteNode(n)); }
    CarefulOne(w0, from, r, MapRemove(n));
    One(r, MapRemove(n));
    PlainRun(w0, from, Do(r, MapRemove(n)), last);
    CarefulAppend(w0, from, r, [MapRemove(n)], last);
    CarefulAppend(w0, from, o, before, [MapRemove(n)] + last);
  }

  /** Before a machine leaves the map its node is gone. */
  lemma Deleted(o: Outcome, n: Name) returns (r: Outcome)
    ensures r == Run(o, PlanNoDiff() + ([GetNode(n)] + ([DrainIfSeen(n)] + ResetNode(n))))
    ensures o.world.log <= r.world.log
    ensures r.ok && Heard(r.world.log, |o.world.log|, DeleteNode(n)) ==> n !in r.world.nodes
  {
    hide Exec, Do, PlanNoDiff, ResetNode, Passable;
    RunAppend(o, PlanNoDiff(), [GetNode(n)] + ([DrainIfSeen(n)] + ResetNode(n)));
    var p := PlanStage(o);
    Cons(p, GetNode(n), [DrainIfSeen(n)] + ResetNode(n));
    Cons(Do(p, GetNode(n)), DrainIfSeen(n), ResetNode(n));
    hide Run;
    var s := SeeSteps(p, n);
    r := ResetStage(s, n);
    if Heard(r.world.log, |o.world.log|, DeleteNode(n)) {
      HeardPart(r.world.log, r.world.log, |o.world.log|, |s.world.log|, DeleteNode(n));
    }
  }

  lemma ApplyPlain(cfg: Config, order: seq<Name>)
    ensures forall s :: s in [TfInit, TfOutput] + WaitAll(order) + LoadBalancerUpdate(cfg) ==> Inert(s) && Plain(s)
    ensures forall s :: s in RemoteSteps() ==> Inert(s) && Plain(s)
    ensures forall s :: s in TerraformApply() ==> Plain(s)
  {}

  lemma ApplyCareful(w0: World, from: nat, o: Outcome, cfg: Config, order: seq<Name>)
    requires from <= |o.world.log| && w0.nodes <= o.world.nodes
    ensures CarefulRun(w0, from, o, ApplyAll(cfg, order))
  {
    ApplyShape(cfg, order);
    var waits := [TfInit, TfOutput] + WaitAll(order) + LoadBalancerUpdate(cfg);
    var rest := TerraformApply() + waits;
    ApplyPlain(cfg, order);
    assert ApplyAll(cfg, order) == (RemoteSteps() + rest) + ([DeployKubernetes] + [EncryptKubeconfig]);
    hide Exec, Do, ApplyAll, TerraformApply, WaitAll, LoadBalancerUpdate, RemoteSteps, Run, CarefulRun;
    PlainRun(w0, from, o, RemoteSteps() + rest);
    InertRun(o, RemoteSteps());
    RunAppend(o, RemoteSteps(), rest);
    var f := Run(o, RemoteSteps());
    RunAppend(f, TerraformApply(), waits);
    var a := ApplyStage(f);
    InertRun(a, waits);
    var b := Run(o, RemoteSteps() + rest);
    if b.ok && AllHeard(b.world.log, from) { ReadyAfterApply(w0, from, f, a, b); }
    CarefulOne(w0, from, b, DeployKubernetes);
    One(b, DeployKubernetes);
    PlainRun(w0, from, Do(b, DeployKubernetes), [EncryptKubeconfig]);
    CarefulAppend(w0, from, b, [DeployKubernetes], [EncryptKubeconfig]);
    CarefulAppend(w0, from, o, RemoteSteps() + rest, [DeployKubernetes] + [EncryptKubeconfig]);
  }

  /** The first half of an add, a clone or a replacement, and the join after it. */
  lemma GainCareful(w0: World, from: nat, o: Outcome, cfg: Config, first: seq<Step>, n: Name)
    requires from <= |o.world.log| && w0.nodes <= o.world.nodes
    requires forall s :: s in first ==> Inert(s) || s.TfPlan? || s.MapAdd? || s.MapClone?
    ensures CarefulRun(w0, from, o, first + JoinMachine(cfg, n))
  {
    assert forall s :: s in first ==> Plain(s);
    PlainRun(w0, from, o, first);
    NodesStay(o, first);
    hide Do, Run, CarefulRun, JoinMachine;
    JoinCareful(w0, from, Run(o, first), cfg, n);
    CarefulAppend(w0, from, o, first, JoinMachine(cfg, n));
  }

  lemma {:induction false} NodesStay(o: Outcome, first: seq<Step>)
    requires forall s :: s in first ==> Inert(s) || s.TfPlan? || s.MapAdd? || s.MapClone?
    ensures Run(o, first).world.nodes == o.world.nodes && |o.world.log| <= |Run(o, first).world.log|
    decreases |first|
  {
    if first != [] {
      NodesStep(o, first[0]);
      DoGrows(o, first[0]);
      hide Do;
      NodesStay(Do(o, first[0]), first[1..]);
    }
  }

  lemma NodesStep(o: Outcome, s: Step)
    requires Inert(s) || s.TfPlan? || s.MapAdd? || s.MapClone?
    ensures Do(o, s).world.nodes == o.world.nodes
  {
    hide PlanCounts, PlanCheck.Accepted, ImageName, SkewOk;
  }

  lemma BodyCareful(w0: World, from: nat, o: Outcome, c: Command)
    requires from <= |o.world.log| && w0.nodes <= o.world.nodes
    ensures CarefulRun(w0, from, o, Body(o.world.cfg, c))
  {
    hide Do, Run, CarefulRun, JoinMachine, RemoveNode, ApplyAll;
    var cfg := o.world.cfg;
    match c
    case Add(n, t, size, i, settings) =>
      GainCareful(w0, from, o, cfg, AddMachine(n, t, size, i, settings), n);
    case Clone(n, i, cn) =>
      GainCareful(w0, from, o, cfg, CloneMachine(n, i, cn), cn);
    case Remove(n) =>
      RemoveCareful(w0, from, o, cfg, n);
    case Replace(n, i, cn) =>
      GainCareful(w0, from, o, cfg, CloneMachine(n, i, cn), cn);
      hide CloneMachine;
      var first := CloneMachine(n, i, cn) + JoinMachine(cfg, cn);
      RunGrows(o, first);
      RemoveCareful(w0, from, Run(o, first), cfg, n);
      CarefulAppend(w0, from, o, first, RemoveNode(cfg, n));
    case Apply(order) =>
      ApplyCareful(w0, from, o, cfg, order);
    case DrainOnly(n) =>
      PlainRun(w0, from, o, [Drain(n)]);
    case Reset(n) =>
      PlainRun(w0, from, o, ResetNode(n));
  }

  /** After the configuration was read, a safe world is guarded by the map too. */
  lemma ReadGuarded(w: World) returns (o: Outcome)
    requires Safe(w)
    ensures o == Do(Outcome(w, true), ReadConfig) && QuietButMem(w, o.world)
    ensures Safe(o.world) && SameMachines(w, o.world) && (o.ok ==> Guarded(o.world))
  {
    o := ReadStage(w);
    One(Outcome(w, true), ReadConfig);
    hide Do, Run;
  }

  /** After `k` steps of one command. */
  function After(w: World, c: Command, k: nat): Outcome
    requires k <= |Body(w.cfg, c)| + 1
  {
    Run(Outcome(w, true), ([ReadConfig] + Body(w.cfg, c))[..k])
  }

  /** At every step of every command started in a safe world: the world is safe again, what is a node at the
      start and now runs on the same machine, and so does what is a node before and after the step. */
  lemma StepsKeepMachines(w: World, c: Command, k: nat)
    requires Safe(w) && k <= |Body(w.cfg, c)| + 1 && AllHeard(After(w, c, k).world.log, |w.log|)
    ensures var w' := After(w, c, k).world;
            Safe(w') && SameMachines(w, w') && (k > 0 ==> SameMachines(After(w, c, k - 1).world, w'))
  {
    var body, start := Body(w.cfg, c), Outcome(w, true);
    var script := [ReadConfig] + body;
    if k == 0 {
      assert script[..0] == [];
      SafeSame(w);
    } else {
      var o := ReadGuarded(w);
      hide Do, Body;
      assert script[..k] == [ReadConfig] + body[..k - 1];
      Cons(start, ReadConfig, body[..k - 1]);
      if k > 1 {
        assert script[..k - 1] == [ReadConfig] + body[..k - 2];
        Cons(start, ReadConfig, body[..k - 2]);
      } else {
        assert script[..0] == [];
      }
      hide Run, SameMachines, Guarded, Safe;
      if o.ok {
        BodyCareful(w, |w.log|, o, c);
        assert Body(o.world.cfg, c) == body;
        CarefulPrefix(w, |w.log|, o, body, k - 1);
        GuardedSafe(After(w, c, k).world);
        if k == 1 { assert body[..0] == []; Nil(o); Nil(start); }
      } else {
        RunFailed(o, body[..k - 1]);
        if k > 1 { RunFailed(o, body[..k - 2]); SafeSame(o.world); } else { Nil(start); }
      }
    }
  }

  lemma SafeSame(w: World)
    requires Safe(w)
    ensures SameMachines(w, w)
  {}

  lemma GuardedSafe(w: World)
    requires Guarded(w)
    ensures Safe(w)
  {}

  lemma InvokeSafe(w: World, c: Command)
    requires Safe(w) && AllHeard(Invoke(w, c).world.log, |w.log|)
    ensures Safe(Invoke(w, c).world)
  {
    var script := [ReadConfig] + Body(w.cfg, c);
    assert script[..|script|] == script;
    hide Run, Body;
    StepsKeepMachines(w, c, |script|);
  }

  lemma {:induction false} ReachableSafe(w: World, cs: seq<Command>)
    requires Safe(w) && AllHeard(InvokeAll(w, cs).log, |w.log|)
    ensures Safe(InvokeAll(w, cs))
    decreases |cs|
  {
    hide Safe, Invoke, AllHeard;
    if cs != [] {
      var w1 := Invoke(w, cs[0]).world;
      InvokeGrows(w, cs[0]);
      AllGrows(w1, cs[1..]);
      AllHeardPart(w1.log, InvokeAll(w, cs).log, |w.log|, |w.log|);
      AllHeardPart(InvokeAll(w, cs).log, InvokeAll(w, cs).log, |w.log|, |w1.log|);
      InvokeSafe(w, cs[0]);
      ReachableSafe(w1, cs[1..]);
    }
  }

  /** Whatever commands ran before, at every step of the next one: no machine that is a node before and after
      the step is destroyed, created anew or changed by it, and every node runs on a machine that the file
      keeps. */
  lemma NeverRecreated(w: World, cs: seq<Command>, c: Command, k: nat)
    requires Safe(w)
    requires var w1 := InvokeAll(w, cs);
             0 < k <= |Body(w1.cfg, c)| + 1 && AllHeard(After(w1, c, k).world.log, |w.log|)
    ensures var w1 := InvokeAll(w, cs);
            var a, b := After(w1, c, k - 1).world, After(w1, c, k).world;
            && SameMachines(a, b) && SameMachines(w1, b)
            && Safe(b) && b.nodes <= Infra(b).Keys
  {
    hide InvokeAll, SameMachines, AllHeard, Run, Body;
    var w1 := InvokeAll(w, cs);
    AllGrows(w, cs);
    var script := [ReadConfig] + Body(w1.cfg, c);
    RunGrows(Outcome(w1, true), script[..k]);
    AllHeardPart(w1.log, After(w1, c, k).world.log, |w.log|, |w.log|);
    AllHeardPart(After(w1, c, k).world.log, After(w1, c, k).world.log, |w.log|, |w1.log|);
    ReachableSafe(w, cs);
    StepsKeepMachines(w1, c, k);
  }
}
