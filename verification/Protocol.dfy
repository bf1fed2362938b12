/**
 The order in which the tools are called: what must have succeeded before each step, what a failed tool
 leaves undone, and what a successful command has done.
 */
module Protocol {
  import opened Fleet
  import opened Lifecycle
  import opened Images
  import opened Stages
  import KeptNodes
  import PlanCheck
  import Removal

  /******* A failed tool ends the command *******/

  /** Tools that leave nothing behind when they fail. */
  predicate AllOrNothing(s: Step) {
    || s.RemoteInit? || s.RemoteConfig? || s.RemoteApply? || s.TfInit? || s.TfPlan? || s.TfOutput? || s.WriteInfraJSON?
    || s.GetNode? || s.DrainIfSeen? || s.Drain? || s.WaitSSH? || s.PrepareNodes? || s.Infrastructure?
    || s.EncryptKubeconfig?
  }

  /** Draining a node that was seen succeeds exactly if the drain is reported to; one that was not seen is not
      drained. */
  lemma DrainAnswers(o: Outcome, n: Name)
    requires o.ok
    ensures o.world.seen && o.world.draws != [] ==>
              (Do(o, DrainIfSeen(n)).ok <==> o.world.draws[0].works || o.world.draws[0].lost)
    ensures o.world.seen && o.world.draws == [] ==> !Do(o, DrainIfSeen(n)).ok
    ensures !o.world.seen ==> Do(o, DrainIfSeen(n)) == o
    ensures Quiet(o.world, Do(o, DrainIfSeen(n)).world)
  {}

  /** A step whose tool neither works nor loses its exit code fails. */
  lemma StepFails(o: Outcome, s: Step)
    requires o.ok && (o.world.draws == [] || (!o.world.draws[0].works && !o.world.draws[0].lost))
    requires || AllOrNothing(s) || s.ReadConfig? || s.WriteTFVars? || s.TfApply? || s.WriteInventory? || s.SshReset?
             || s.DeleteNode? || s.JoinNodes? || s.DeployKubernetes? || s.CheckSkew? || s.CheckCloneSkew?
    requires s.DrainIfSeen? ==> o.world.seen
    ensures !Do(o, s).ok && (AllOrNothing(s) ==> Quiet(o.world, Do(o, s).world))
  {
    hide PlanCounts, PlanCheck.Accepted, SkewOk, PartlyApplied, SetInfra;
  }

  /** In every command: where a tool fails, the command ends there with a failure, and only that tool may have done
      something, if it is one that can fail half-way. */
  lemma FailureEnds(w: World, c: Command, k: nat)
    requires k < |Body(w.cfg, c)| + 1
    requires var a, s := KeptNodes.After(w, c, k), ([ReadConfig] + Body(w.cfg, c))[k];
             && a.ok && (a.world.draws == [] || (!a.world.draws[0].works && !a.world.draws[0].lost))
             && (|| AllOrNothing(s) || s.ReadConfig? || s.WriteTFVars? || s.TfApply? || s.WriteInventory?
                 || s.SshReset? || s.DeleteNode? || s.JoinNodes? || s.DeployKubernetes? || s.CheckSkew?
                 || s.CheckCloneSkew?)
             && (s.DrainIfSeen? ==> a.world.seen)
    ensures var s := ([ReadConfig] + Body(w.cfg, c))[k];
            && !Invoke(w, c).ok && Invoke(w, c) == KeptNodes.After(w, c, k + 1)
            && (AllOrNothing(s) ==> Quiet(KeptNodes.After(w, c, k).world, Invoke(w, c).world))
  {
    var script := [ReadConfig] + Body(w.cfg, c);
    StepFails(KeptNodes.After(w, c, k), script[k]);
    hide Do, Body, Run, AllOrNothing, Quiet;
    EndsAt(Outcome(w, true), script, k);
  }

  lemma EndsAt(o: Outcome, script: seq<Step>, k: nat)
    requires k < |script| && !Do(Run(o, script[..k]), script[k]).ok
    ensures Run(o, script) == Run(o, script[..k + 1]) == Do(Run(o, script[..k]), script[k])
  {
    var a := Run(o, script[..k]);
    assert script == script[..k] + ([script[k]] + script[k + 1..]);
    assert script[..k + 1] == script[..k] + [script[k]];
    hide Do;
    RunAppend(o, script[..k], [script[k]] + script[k + 1..]);
    RunAppend(o, script[..k], [script[k]]);
    Cons(a, script[k], script[k + 1..]);
    One(a, script[k]);
    RunFailed(Do(a, script[k]), script[k + 1..]);
    hide Run;
  }

  /** A removal whose node was seen and whose drain is reported failed ends there: nodes, machine map, file and
      Terraform state are as they were. */
  lemma FailedDrainLeavesAll(o: Outcome, cfg: Config, n: Name)
    requires var s := Run(o, PlanNoDiff() + [GetNode(n)]);
             s.ok && s.world.seen && (s.world.draws == [] || (!s.world.draws[0].works && !s.world.draws[0].lost))
    ensures var o' := Run(o, RemoveNode(cfg, n)); !o'.ok && Asked(o.world, o'.world)
  {
    RemoveShape(cfg, n);
    hide Exec, Do, RemoveNode, TerraformApply, PlanNoDiff, ResetNode, LoadBalancerUpdate, Run;
    var last := ResetNode(n) + ([MapRemove(n)] + (TerraformApply() + LoadBalancerUpdate(cfg)));
    RunAppend(o, PlanNoDiff(), [GetNode(n)]);
    RunAppend(o, PlanNoDiff(), [GetNode(n)] + ([DrainIfSeen(n)] + last));
    var p := PlanStage(o);
    Cons(p, GetNode(n), [DrainIfSeen(n)] + last);
    One(p, GetNode(n));
    var s := Do(p, GetNode(n));
    Cons(s, DrainIfSeen(n), last);
    DrainAnswers(s, n);
    RunFailed(Do(s, DrainIfSeen(n)), last);
    AskedOnly(p, n);
  }

  lemma AskedOnly(o: Outcome, n: Name)
    ensures Asked(o.world, Do(o, GetNode(n)).world)
  {}

  /******* What comes before a step *******/

  /** The steps that come directly before it. */
  function Directly(s: Step): seq<Step> {
    match s
    case RemoteConfig => [RemoteInit]
    case RemoteApply => [RemoteInit, RemoteConfig]
    case TfPlan => [TfInit]
    case TfApply => [WriteTFVars, TfInit]
    case WriteInfraJSON => [TfInit, TfApply, TfOutput]
    case WriteInventory => [TfApply, TfOutput, WriteInfraJSON]
    case FindState(_) => [TfInit, TfOutput]
    case Build(_, _) => [TfInit, TfPlan]
    case CheckSkew(t, i) => [TfPlan, Build(t, i)]
    case MapAdd(_, t, _, i, _) => [TfPlan, Build(t, i), CheckSkew(t, i)]
    case FindConfigured(_) => [TfInit, TfPlan]
    case BuildClone(n, _) => [TfPlan, FindConfigured(n)]
    case CheckCloneSkew(n, i) => [FindConfigured(n), BuildClone(n, i)]
    case MapClone(n, i, _) =>
      if i == "" then [TfInit, TfPlan, FindConfigured(n)]
      else [TfPlan, FindConfigured(n), BuildClone(n, i), CheckCloneSkew(n, i)]
    case GetNode(_) => [TfInit, TfPlan]
    case SshReset(n) => [TfInit, TfOutput, FindState(n)]
    case DeleteNode(n) => [FindState(n), SshReset(n)]
    case MapRemove(n) => [FindState(n), SshReset(n), DeleteNode(n)]
    case JoinNodes => [PrepareNodes]
    case EncryptKubeconfig => [DeployKubernetes]
    case _ => []
  }

  /** Steps that must have succeeded since the process last read or changed the machine map. */
  function Before(cfg: Config, s: Step): set<Step> {
    match s
    case MapRemove(n) => {TfPlan, GetNode(n)}
    case WaitSSH(_) => {TfApply, WriteInventory, TfOutput}
    case PrepareNodes => {TfApply, WriteInventory}
    case JoinNodes => {TfApply, WriteInventory}
    case Infrastructure => {TfApply, WriteInventory}
    case DeployKubernetes =>
      {RemoteApply, TfApply, WriteInventory} + if cfg.provider == Safespring then {Infrastructure} else {}
    case _ => {}
  }

  predicate Opens(s: Step) { s.ReadConfig? || s.MapAdd? || s.MapClone? || s.MapRemove? }

  /** Before `i`, `s` succeeded, and the process did not read or change the machine map since. */
  ghost predicate Recent(log: seq<Event>, s: Step, i: nat) {
    exists j :: 0 <= j < i <= |log| && Removal.Done(log[j], s) && forall x :: j < x < i ==> !Opens(log[x].step)
  }

  /** The events before `i` are these steps, each successful. */
  ghost predicate Trail(log: seq<Event>, steps: seq<Step>, i: nat) {
    |steps| <= i <= |log| && forall k :: 0 <= k < |steps| ==> Removal.Done(log[i - |steps| + k], steps[k])
  }

  ghost predicate InOrder(cfg: Config, log: seq<Event>, i: nat)
    requires i < |log|
  {
    Trail(log, Directly(log[i].step), i) && forall s :: s in Before(cfg, log[i].step) ==> Recent(log, s, i)
  }

  ghost predicate Ordered(cfg: Config, log: seq<Event>) {
    forall i :: 0 <= i < |log| ==> InOrder(cfg, log, i)
  }

  /******* Scripts that keep the order *******/

  /** `tail` ends with these steps. */
  predicate EndsWith(tail: seq<Step>, steps: seq<Step>) {
    |steps| <= |tail| && tail[|tail| - |steps|..] == steps
  }

  function KnownAfter(known: set<Step>, s: Step): set<Step> {
    if s.DrainIfSeen? then known else if Opens(s) then {s} else known + {s}
  }

  function TailAfter(tail: seq<Step>, s: Step): seq<Step> {
    if s.DrainIfSeen? then [] else tail + [s]
  }

  /** After what is known to have succeeded, each step of the script finds what it needs. */
  predicate Fits(cfg: Config, known: set<Step>, tail: seq<Step>, script: seq<Step>)
    decreases |script|
  {
    script == [] ||
    (&& Before(cfg, script[0]) <= known && EndsWith(tail, Directly(script[0]))
     && Fits(cfg, KnownAfter(known, script[0]), TailAfter(tail, script[0]), script[1..]))
  }

  function KnownAll(known: set<Step>, script: seq<Step>): set<Step>
    decreases |script|
  {
    if script == [] then known else KnownAll(KnownAfter(known, script[0]), script[1..])
  }

  function TailAll(tail: seq<Step>, script: seq<Step>): seq<Step>
    decreases |script|
  {
    if script == [] then tail else TailAll(TailAfter(tail, script[0]), script[1..])
  }

  /** What a successful run so far has left in the log. */
  ghost predicate Shows(o: Outcome, known: set<Step>, tail: seq<Step>) {
    o.ok ==>
      var log := o.world.log; (forall s :: s in known ==> Recent(log, s, |log|)) && Trail(log, tail, |log|)
  }

  lemma RecentExtends(log: seq<Event>, more: seq<Event>, s: Step, i: nat)
    requires Recent(log, s, i) && log <= more
    ensures Recent(more, s, i)
    ensures i == |log| && |more| == |log| + 1 && !Opens(more[|log|].step) ==> Recent(more, s, |more|)
  {
    var j :| 0 <= j < i <= |log| && Removal.Done(log[j], s) && forall x :: j < x < i ==> !Opens(log[x].step);
    assert Removal.Done(more[j], s);
  }

  lemma TrailEnds(log: seq<Event>, tail: seq<Step>, steps: seq<Step>, i: nat)
    requires Trail(log, tail, i) && EndsWith(tail, steps)
    ensures Trail(log, steps, i)
  {
    forall k | 0 <= k < |steps| ensures Removal.Done(log[i - |steps| + k], steps[k]) {
      assert steps[k] == tail[|tail| - |steps|..][k];
    }
  }

  lemma TrailExtends(log: seq<Event>, more: seq<Event>, steps: seq<Step>, i: nat)
    requires Trail(log, steps, i) && log <= more
    ensures Trail(more, steps, i)
  {
    forall k | 0 <= k < |steps| ensures Removal.Done(more[i - |steps| + k], steps[k]) {
      assert more[i - |steps| + k] == log[i - |steps| + k];
    }
  }

  lemma OrderedExtends(cfg: Config, log: seq<Event>, more: seq<Event>)
    requires Ordered(cfg, log) && log <= more && |more| == |log| + 1 && InOrder(cfg, more, |log|)
    ensures Ordered(cfg, more)
  {
    forall i | 0 <= i < |log| ensures InOrder(cfg, more, i) {
      assert InOrder(cfg, log, i) && more[i] == log[i];
      TrailExtends(log, more, Directly(log[i].step), i);
      hide Trail, Directly, Before, Recent;
      forall s | s in Before(cfg, log[i].step) ensures Recent(more, s, i) { RecentExtends(log, more, s, i); }
    }
  }

  /** What a step appends. */
  lemma StepLogs(o: Outcome, s: Step)
    requires o.ok
    ensures var o' := Do(o, s);
            if s.DrainIfSeen? && !o.world.seen then o' == o
            else
              && o.world.log <= o'.world.log && |o'.world.log| == |o.world.log| + 1
              && o'.world.log[|o.world.log|].step == (if s.DrainIfSeen? then Drain(s.name) else s)
              && o'.world.log[|o.world.log|].ok == o'.ok
  {
    hide Exec;
  }

  lemma StepFits(o: Outcome, cfg: Config, known: set<Step>, tail: seq<Step>, s: Step)
    requires Shows(o, known, tail) && Before(cfg, s) <= known && EndsWith(tail, Directly(s))
    ensures Shows(Do(o, s), KnownAfter(known, s), TailAfter(tail, s))
    ensures Ordered(cfg, o.world.log) ==> Ordered(cfg, Do(o, s).world.log)
  {
    if o.ok {
      StepLogs(o, s);
      var o', log := Do(o, s), o.world.log;
      hide Do;
      if s.DrainIfSeen? && !o.world.seen {
        assert Trail(log, [], |log|);
      } else {
        var more := o'.world.log;
        NeedsKept(o, cfg, known, tail, s, more);
        if Ordered(cfg, log) { OrderedExtends(cfg, log, more); }
        if o'.ok { StepShows(o, o', known, tail, s); }
      }
    } else {
      Skipped(o, s);
    }
  }

  lemma Skipped(o: Outcome, s: Step)
    requires !o.ok
    ensures Do(o, s) == o
  {}

  lemma NeedsKept(o: Outcome, cfg: Config, known: set<Step>, tail: seq<Step>, s: Step, more: seq<Event>)
    requires o.ok && Shows(o, known, tail) && Before(cfg, s) <= known && EndsWith(tail, Directly(s))
    requires o.world.log <= more && |more| == |o.world.log| + 1
    requires more[|o.world.log|].step == if s.DrainIfSeen? then Drain(s.name) else s
    ensures InOrder(cfg, more, |o.world.log|)
  {
    var log := o.world.log;
    TrailEnds(log, tail, Directly(s), |log|);
    assert Trail(more, Directly(s), |log|);
    forall b | b in Before(cfg, s) ensures Recent(more, b, |log|) { RecentExtends(log, more, b, |log|); }
    hide Recent, Trail;
  }

  lemma StepShows(o: Outcome, o': Outcome, known: set<Step>, tail: seq<Step>, s: Step)
    requires o.ok && o'.ok && Shows(o, known, tail)
    requires o.world.log <= o'.world.log && |o'.world.log| == |o.world.log| + 1
    requires Removal.Done(o'.world.log[|o.world.log|], if s.DrainIfSeen? then Drain(s.name) else s)
    ensures Shows(o', KnownAfter(known, s), TailAfter(tail, s))
  {
    var log, more := o.world.log, o'.world.log;
    forall b | b in KnownAfter(known, s) ensures Recent(more, b, |more|) {
      if b in known && !Opens(s) {
        RecentExtends(log, more, b, |log|);
      } else {
        assert b == s && Removal.Done(more[|log|], s);
      }
    }
    if !s.DrainIfSeen? {
      forall k | 0 <= k < |tail| + 1 ensures Removal.Done(more[|more| - (|tail| + 1) + k], (tail + [s])[k]) {
        if k < |tail| { assert more[|log| - |tail| + k] == log[|log| - |tail| + k]; }
      }
    }
    hide Recent;
  }

  lemma {:induction false} RunFits(o: Outcome, cfg: Config, known: set<Step>, tail: seq<Step>, script: seq<Step>)
    requires Shows(o, known, tail) && Fits(cfg, known, tail, script)
    ensures Ordered(cfg, o.world.log) ==> Ordered(cfg, Run(o, script).world.log)
    ensures Shows(Run(o, script), KnownAll(known, script), TailAll(tail, script))
    decreases |script|
  {
    hide Do, Shows, Ordered, EndsWith, Directly, Before;
    if script != [] {
      StepFits(o, cfg, known, tail, script[0]);
      RunFits(Do(o, script[0]), cfg, KnownAfter(known, script[0]), TailAfter(tail, script[0]), script[1..]);
    }
  }

  lemma {:induction false} FitsAppend(cfg: Config, known: set<Step>, tail: seq<Step>, a: seq<Step>, b: seq<Step>)
    ensures Fits(cfg, known, tail, a + b)
       <==> Fits(cfg, known, tail, a) && Fits(cfg, KnownAll(known, a), TailAll(tail, a), b)
    ensures KnownAll(known, a + b) == KnownAll(KnownAll(known, a), b)
    ensures TailAll(tail, a + b) == TailAll(TailAll(tail, a), b)
    decreases |a|
  {
    hide EndsWith, Directly, Before, KnownAfter, TailAfter;
    if a == [] {
      assert a + b == b;
    } else {
      assert (a + b)[1..] == a[1..] + b;
      FitsAppend(cfg, KnownAfter(known, a[0]), TailAfter(tail, a[0]), a[1..], b);
    }
  }

  /** More known, or a longer tail, does no harm. */
  lemma {:induction false} FitsMore(cfg: Config, known: set<Step>, more: set<Step>, tail: seq<Step>, head: seq<Step>,
      script: seq<Step>)
    requires Fits(cfg, known, tail, script) && known <= more
    ensures Fits(cfg, more, head + tail, script)
    ensures KnownAll(known, script) <= KnownAll(more, script)
    ensures EndsWith(TailAll(head + tail, script), TailAll(tail, script))
    decreases |script|
  {
    if script == [] {
      assert (head + tail)[|head|..] == tail;
    } else {
      var s := script[0];
      var d := Directly(s);
      assert (head + tail)[|head + tail| - |d|..] == tail[|tail| - |d|..];
      hide Directly, Before, Opens;
      if s.DrainIfSeen? {
        FitsMore(cfg, KnownAfter(known, s), KnownAfter(more, s), [], [], script[1..]);
      } else {
        assert (head + tail) + [s] == head + (tail + [s]);
        FitsMore(cfg, KnownAfter(known, s), KnownAfter(more, s), tail + [s], head, script[1..]);
      }
    }
  }

  /******* The commands keep the order *******/

  function Steps(script: seq<Step>): set<Step> { set s | s in script }

  /** After what is known and the given tail the script fits, and it leaves at least the given knowledge and tail. */
  ghost predicate Passes(cfg: Config, known: set<Step>, tail: seq<Step>, script: seq<Step>, known': set<Step>,
      tail': seq<Step>)
  {
    Fits(cfg, known, tail, script) && known' <= KnownAll(known, script) && EndsWith(TailAll(tail, script), tail')
  }

  /** A script that asks for nothing of what came before. */
  ghost predicate Starts(cfg: Config, script: seq<Step>, known: set<Step>, tail: seq<Step>) {
    Passes(cfg, {}, [], script, known, tail)
  }

  lemma PassAppend(cfg: Config, k: set<Step>, t: seq<Step>, a: seq<Step>, k1: set<Step>, t1: seq<Step>, b: seq<Step>,
      k2: set<Step>, t2: seq<Step>)
    requires Passes(cfg, k, t, a, k1, t1) && Passes(cfg, k1, t1, b, k2, t2)
    ensures Passes(cfg, k, t, a + b, k2, t2)
  {
    var tail := TailAll(t, a);
    hide Fits, KnownAll, TailAll;
    FitsAppend(cfg, k, t, a, b);
    var head := tail[..|tail| - |t1|];
    assert tail == head + t1;
    FitsMore(cfg, k1, KnownAll(k, a), t1, head, b);
    EndsTwice(TailAll(tail, b), TailAll(t1, b), t2);
  }

  lemma PassNil(cfg: Config, k: set<Step>, t: seq<Step>)
    ensures Passes(cfg, k, t, [], k, t)
  {
    assert t[|t| - |t|..] == t;
  }

  lemma PassCons(cfg: Config, k: set<Step>, t: seq<Step>, s: Step, rest: seq<Step>, k2: set<Step>, t2: seq<Step>)
    requires Before(cfg, s) <= k && (Directly(s) == [] || EndsWith(t, Directly(s)))
    requires Passes(cfg, KnownAfter(k, s), TailAfter(t, s), rest, k2, t2)
    ensures Passes(cfg, k, t, [s] + rest, k2, t2)
  {
    EndsNone(t);
    Next(cfg, k, t, s, rest);
    hide Before, Directly, KnownAfter, TailAfter, Fits, KnownAll, TailAll;
  }

  lemma PassOne(cfg: Config, k: set<Step>, t: seq<Step>, s: Step)
    requires Before(cfg, s) <= k && (Directly(s) == [] || EndsWith(t, Directly(s)))
    ensures Passes(cfg, k, t, [s], KnownAfter(k, s), TailAfter(t, s))
  {
    assert [s] == [s] + [];
    PassNil(cfg, KnownAfter(k, s), TailAfter(t, s));
    PassCons(cfg, k, t, s, [], KnownAfter(k, s), TailAfter(t, s));
    hide Before, Directly, KnownAfter, TailAfter, Passes;
  }

  /** A step that needs nothing but what comes directly before it, and leaves the map alone. */
  lemma PassNext(cfg: Config, k: set<Step>, t: seq<Step>, s: Step, rest: seq<Step>, k2: set<Step>, t2: seq<Step>)
    requires Before(cfg, s) == {} && !s.DrainIfSeen? && !Opens(s) && (Directly(s) == [] || EndsWith(t, Directly(s)))
    requires Passes(cfg, k + {s}, t + [s], rest, k2, t2)
    ensures Passes(cfg, k, t, [s] + rest, k2, t2)
  {
    PassCons(cfg, k, t, s, rest, k2, t2);
  }

  /** A step that changes the map at the end of a script. */
  lemma PassLast(cfg: Config, k: set<Step>, t: seq<Step>, s: Step)
    requires Before(cfg, s) == {} && Opens(s) && EndsWith(t, Directly(s))
    ensures Passes(cfg, k, t, [s], {s}, t + [s])
  {
    PassOne(cfg, k, t, s);
  }

  lemma EndsNone(t: seq<Step>)
    ensures EndsWith(t, [])
  {
    assert t[|t|..] == [];
  }

  lemma EndsOne(t: seq<Step>, a: Step)
    requires |t| >= 1 && t[|t| - 1] == a
    ensures EndsWith(t, [a])
  {}

  lemma EndsTwo(t: seq<Step>, a: Step, b: Step)
    requires |t| >= 2 && t[|t| - 2] == a && t[|t| - 1] == b
    ensures EndsWith(t, [a, b])
  {}

  lemma EndsThree(t: seq<Step>, a: Step, b: Step, c: Step)
    requires |t| >= 3 && t[|t| - 3] == a && t[|t| - 2] == b && t[|t| - 1] == c
    ensures EndsWith(t, [a, b, c])
  {}

  lemma EndsFour(t: seq<Step>, a: Step, b: Step, c: Step, d: Step)
    requires |t| >= 4 && t[|t| - 4] == a && t[|t| - 3] == b && t[|t| - 2] == c && t[|t| - 1] == d
    ensures EndsWith(t, [a, b, c, d])
  {}

  ghost predicate LeavesMap(script: seq<Step>) {
    forall s :: s in script ==> !Opens(s)
  }

  lemma {:induction false} KnownGrows(known: set<Step>, script: seq<Step>)
    requires LeavesMap(script)
    ensures known <= KnownAll(known, script)
    decreases |script|
  {
    hide Opens;
    if script != [] {
      assert !Opens(script[0]);
      KnownGrows(KnownAfter(known, script[0]), script[1..]);
    }
  }

  /** A script that asks for nothing and leaves the map alone keeps what is known. */
  lemma PassKeeps(cfg: Config, k: set<Step>, t: seq<Step>, script: seq<Step>, k1: set<Step>, t1: seq<Step>)
    requires Starts(cfg, script, k1, t1) && LeavesMap(script)
    ensures Passes(cfg, k, t, script, k + k1, t1)
  {
    KnownGrows(k, script);
    hide Fits, KnownAll, TailAll;
    FitsMore(cfg, {}, k, [], t, script);
    assert t + [] == t;
    EndsTwice(TailAll(t, script), TailAll([], script), t1);
  }

  lemma EndsTwice(a: seq<Step>, b: seq<Step>, c: seq<Step>)
    requires EndsWith(a, b) && EndsWith(b, c)
    ensures EndsWith(a, c)
  {
    assert a[|a| - |c|..] == a[|a| - |b|..][|b| - |c|..];
  }

  /** One step in front of a script. */
  lemma Next(cfg: Config, known: set<Step>, tail: seq<Step>, s: Step, rest: seq<Step>)
    ensures Fits(cfg, known, tail, [s] + rest)
       <==> Before(cfg, s) <= known && EndsWith(tail, Directly(s))
            && Fits(cfg, KnownAfter(known, s), TailAfter(tail, s), rest)
    ensures KnownAll(known, [s] + rest) == KnownAll(KnownAfter(known, s), rest)
    ensures TailAll(tail, [s] + rest) == TailAll(TailAfter(tail, s), rest)
  {
    assert ([s] + rest)[1..] == rest;
    hide EndsWith, Directly, Before, KnownAfter, TailAfter;
  }

  lemma PlanStarts(cfg: Config)
    ensures Starts(cfg, PlanNoDiff(), {TfInit, TfPlan}, [TfInit, TfPlan])
  {
    hide Passes;
    var k0: set<Step>, t0: seq<Step>, rest: seq<Step> := {}, [], [];
    var k1, t1, k, t := {TfInit}, [TfInit], {TfInit, TfPlan}, [TfInit, TfPlan];
    assert k0 + {TfInit} == k1 && t0 + [TfInit] == t1;
    assert k1 + {TfPlan} == k && t1 + [TfPlan] == t && PlanNoDiff() == [TfInit] + ([TfPlan] + rest);
    PassNil(cfg, k, t);
    EndsOne(t1, TfInit);
    PassNext(cfg, k1, t1, TfPlan, rest, k, t);
    PassNext(cfg, k0, t0, TfInit, [TfPlan] + rest, k, t);
  }

  lemma StateStarts(cfg: Config, n: Name)
    ensures Starts(cfg, MachineState(n), {TfInit, TfOutput, FindState(n)}, [TfInit, TfOutput, FindState(n)])
  {
    hide Passes;
    var k0: set<Step>, t0: seq<Step>, rest: seq<Step> := {}, [], [];
    var k1, t1, k2, t2 := {TfInit}, [TfInit], {TfInit, TfOutput}, [TfInit, TfOutput];
    var k, t := {TfInit, TfOutput, FindState(n)}, [TfInit, TfOutput, FindState(n)];
    assert k0 + {TfInit} == k1 && t0 + [TfInit] == t1 && k1 + {TfOutput} == k2 && t1 + [TfOutput] == t2;
    assert k2 + {FindState(n)} == k && t2 + [FindState(n)] == t;
    assert MachineState(n) == [TfInit] + ([TfOutput] + ([FindState(n)] + rest));
    PassNil(cfg, k, t);
    EndsTwo(t2, TfInit, TfOutput);
    PassNext(cfg, k2, t2, FindState(n), rest, k, t);
    PassNext(cfg, k1, t1, TfOutput, [FindState(n)] + rest, k, t);
    PassNext(cfg, k0, t0, TfInit, [TfOutput] + ([FindState(n)] + rest), k, t);
  }

  /** The second half of an apply, after the first. */
  lemma WrittenPasses(cfg: Config, k: set<Step>, t: seq<Step>)
    requires t == [WriteTFVars, TfInit, TfApply]
    ensures Passes(cfg, k, t, [TfOutput] + ([WriteInfraJSON] + ([WriteInventory] + [])), k + {TfOutput, WriteInventory},
                   APPLIED)
  {
    hide Passes;
    var t4, t5 := t + [TfOutput], t + [TfOutput] + [WriteInfraJSON];
    var k4, k5 := k + {TfOutput}, k + {TfOutput} + {WriteInfraJSON};
    assert t5 + [WriteInventory] == APPLIED;
    PassNil(cfg, k5 + {WriteInventory}, APPLIED);
    PassLess(cfg, k5 + {WriteInventory}, APPLIED, [], k5 + {WriteInventory}, APPLIED, k + {TfOutput, WriteInventory});
    EndsThree(t5, TfApply, TfOutput, WriteInfraJSON);
    PassNext(cfg, k5, t5, WriteInventory, [], k + {TfOutput, WriteInventory}, APPLIED);
    EndsThree(t4, TfInit, TfApply, TfOutput);
    PassNext(cfg, k4, t4, WriteInfraJSON, [WriteInventory] + [], k + {TfOutput, WriteInventory}, APPLIED);
    PassNext(cfg, k, t, TfOutput, [WriteInfraJSON] + ([WriteInventory] + []), k + {TfOutput, WriteInventory}, APPLIED);
  }

  lemma ApplyStarts(cfg: Config)
    ensures Starts(cfg, TerraformApply(), {TfApply, TfOutput, WriteInventory}, APPLIED)
  {
    hide Passes, APPLIED;
    var rest := [TfOutput] + ([WriteInfraJSON] + ([WriteInventory] + []));
    var r1, r2 := [TfInit] + ([TfApply] + rest), [TfApply] + rest;
    assert TerraformApply() == [WriteTFVars] + r1;
    hide TerraformApply;
    var k0: set<Step>, t0: seq<Step> := {}, [];
    var k1, t1 := k0 + {WriteTFVars}, t0 + [WriteTFVars];
    var k2, t2 := k1 + {TfInit}, t1 + [TfInit];
    var k3, t3 := k2 + {TfApply}, t2 + [TfApply];
    var k := k3 + {TfOutput, WriteInventory};
    assert t3 == [WriteTFVars, TfInit, TfApply];
    assert {TfApply, TfOutput, WriteInventory} <= k;
    EndsTwo(t2, WriteTFVars, TfInit);
    hide EndsWith;
    WrittenPasses(cfg, k3, t3);
    PassNext(cfg, k2, t2, TfApply, rest, k, APPLIED);
    PassNext(cfg, k1, t1, TfInit, r2, k, APPLIED);
    PassNext(cfg, k0, t0, WriteTFVars, r1, k, APPLIED);
    PassLess(cfg, k0, t0, [WriteTFVars] + r1, k, APPLIED, {TfApply, TfOutput, WriteInventory});
  }

  lemma AddPasses(cfg: Config, n: Name, t: NodeType, size: string, i: string, settings: map<string, int>, k: set<Step>,
      tail: seq<Step>)
    ensures var add := MapAdd(n, t, size, i, settings);
            Passes(cfg, k, tail, AddMachine(n, t, size, i, settings), {add},
                   [TfInit, TfPlan, Build(t, i), CheckSkew(t, i), add])
  {
    hide Passes;
    var add := MapAdd(n, t, size, i, settings);
    var rest := [Build(t, i)] + ([CheckSkew(t, i)] + [add]);
    assert AddMachine(n, t, size, i, settings) == PlanNoDiff() + rest;
    var k2, t2 := k + {TfInit, TfPlan}, [TfInit, TfPlan];
    PlanStarts(cfg);
    PassKeeps(cfg, k, tail, PlanNoDiff(), {TfInit, TfPlan}, t2);
    hide AddMachine, PlanNoDiff;
    var k3, t3 := k2 + {Build(t, i)}, t2 + [Build(t, i)];
    var k4, t4 := k3 + {CheckSkew(t, i)}, t3 + [CheckSkew(t, i)];
    var t5 := t4 + [add];
    EndsThree(t4, TfPlan, Build(t, i), CheckSkew(t, i));
    EndsTwo(t3, TfPlan, Build(t, i));
    EndsTwo(t2, TfInit, TfPlan);
    hide EndsWith;
    PassLast(cfg, k4, t4, add);
    PassNext(cfg, k3, t3, CheckSkew(t, i), [add], {add}, t5);
    PassNext(cfg, k2, t2, Build(t, i), [CheckSkew(t, i)] + [add], {add}, t5);
    PassAppend(cfg, k, tail, PlanNoDiff(), k2, t2, rest, {add}, t5);
    assert t5 == [TfInit, TfPlan, Build(t, i), CheckSkew(t, i), add];
  }

  lemma ClonePasses(cfg: Config, n: Name, i: string, cn: Name, k: set<Step>, tail: seq<Step>)
    ensures Passes(cfg, k, tail, CloneMachine(n, i, cn), {MapClone(n, i, cn)}, [MapClone(n, i, cn)])
  {
    hide Passes;
    var clone := MapClone(n, i, cn);
    var k2, t2 := k + {TfInit, TfPlan}, [TfInit, TfPlan];
    PlanStarts(cfg);
    PassKeeps(cfg, k, tail, PlanNoDiff(), {TfInit, TfPlan}, t2);
    var k3, t3 := k2 + {FindConfigured(n)}, t2 + [FindConfigured(n)];
    var rest, t := ChecksPass(cfg, n, i, cn, k3, t3);
    assert CloneMachine(n, i, cn) == PlanNoDiff() + ([FindConfigured(n)] + rest);
    hide CloneMachine, PlanNoDiff;
    EndsTwo(t2, TfInit, TfPlan);
    EndsOne(t, clone);
    hide EndsWith;
    PassNext(cfg, k2, t2, FindConfigured(n), rest, {clone}, t);
    PassAppend(cfg, k, tail, PlanNoDiff(), k2, t2, [FindConfigured(n)] + rest, {clone}, t);
    PassShorter(cfg, k, tail, CloneMachine(n, i, cn), {clone}, t, [clone]);
  }

  /** What follows when the original was found. */
  lemma ChecksPass(cfg: Config, n: Name, i: string, cn: Name, k3: set<Step>, t3: seq<Step>)
      returns (rest: seq<Step>, t: seq<Step>)
    requires |t3| >= 3 && t3[|t3| - 3] == TfInit && t3[|t3| - 2] == TfPlan && t3[|t3| - 1] == FindConfigured(n)
    ensures rest == (if i == "" then [] else [BuildClone(n, i), CheckCloneSkew(n, i)]) + [MapClone(n, i, cn)]
    ensures Passes(cfg, k3, t3, rest, {MapClone(n, i, cn)}, t) && |t| >= 1 && t[|t| - 1] == MapClone(n, i, cn)
  {
    hide Passes;
    var clone := MapClone(n, i, cn);
    if i == "" {
      rest, t := [clone], t3 + [clone];
      EndsThree(t3, TfInit, TfPlan, FindConfigured(n));
      PassLast(cfg, k3, t3, clone);
    } else {
      rest := [BuildClone(n, i)] + ([CheckCloneSkew(n, i)] + [clone]);
      t := t3 + [BuildClone(n, i)] + [CheckCloneSkew(n, i)] + [clone];
      ImagePasses(cfg, n, i, cn, k3, t3);
    }
  }

  lemma ImagePasses(cfg: Config, n: Name, i: string, cn: Name, k3: set<Step>, t3: seq<Step>)
    requires i != "" && |t3| >= 3 && t3[|t3| - 2] == TfPlan && t3[|t3| - 1] == FindConfigured(n)
    ensures var build, check, clone := BuildClone(n, i), CheckCloneSkew(n, i), MapClone(n, i, cn);
            Passes(cfg, k3, t3, [build] + ([check] + [clone]), {clone}, t3 + [build] + [check] + [clone])
  {
    var build, check, clone := BuildClone(n, i), CheckCloneSkew(n, i), MapClone(n, i, cn);
    assert Directly(clone) == [TfPlan, FindConfigured(n), build, check] && Before(cfg, clone) == {};
    assert Directly(check) == [FindConfigured(n), build] && Before(cfg, check) == {};
    assert Directly(build) == [TfPlan, FindConfigured(n)] && Before(cfg, build) == {};
    hide Passes, Directly, Before;
    var k4, t4 := k3 + {build}, t3 + [build];
    var k5, t5 := k4 + {check}, t4 + [check];
    EndsFour(t5, TfPlan, FindConfigured(n), build, check);
    EndsTwo(t4, FindConfigured(n), build);
    EndsTwo(t3, TfPlan, FindConfigured(n));
    hide EndsWith;
    PassLast(cfg, k5, t5, clone);
    PassNext(cfg, k4, t4, check, [clone], {clone}, t5 + [clone]);
    PassNext(cfg, k3, t3, build, [check] + [clone], {clone}, t5 + [clone]);
  }

  lemma PassShorter(cfg: Config, k: set<Step>, t: seq<Step>, script: seq<Step>, k1: set<Step>, t1: seq<Step>,
      t2: seq<Step>)
    requires Passes(cfg, k, t, script, k1, t1) && EndsWith(t1, t2)
    ensures Passes(cfg, k, t, script, k1, t2)
  {
    hide Fits, KnownAll;
    EndsTwice(TailAll(t, script), t1, t2);
  }

  lemma ResetStarts(cfg: Config, n: Name)
    ensures Starts(cfg, ResetNode(n), {FindState(n), SshReset(n), DeleteNode(n)},
                   [TfInit, TfOutput, FindState(n), SshReset(n), DeleteNode(n)])
  {
    hide Passes;
    var k, t3 := {TfInit, TfOutput, FindState(n)}, [TfInit, TfOutput, FindState(n)];
    var t4, k5, t5 := t3 + [SshReset(n)], k + {SshReset(n)} + {DeleteNode(n)}, t3 + [SshReset(n)] + [DeleteNode(n)];
    assert ResetNode(n) == MachineState(n) + ([SshReset(n)] + ([DeleteNode(n)] + []));
    hide ResetNode, MachineState;
    StateStarts(cfg, n);
    PassNil(cfg, k5, t5);
    EndsTwo(t4, FindState(n), SshReset(n));
    PassNext(cfg, k + {SshReset(n)}, t4, DeleteNode(n), [], k5, t5);
    EndsThree(t3, TfInit, TfOutput, FindState(n));
    PassNext(cfg, k, t3, SshReset(n), [DeleteNode(n)] + [], k5, t5);
    PassAppend(cfg, {}, [], MachineState(n), k, t3, [SshReset(n)] + ([DeleteNode(n)] + []), k5, t5);
    PassLess(cfg, {}, [], ResetNode(n), k5, t5, {FindState(n), SshReset(n), DeleteNode(n)});
    assert t5 == [TfInit, TfOutput, FindState(n), SshReset(n), DeleteNode(n)];
  }

  lemma {:induction false} WaitsPass(cfg: Config, order: seq<Name>, k: set<Step>, t: seq<Step>)
    requires {TfApply, WriteInventory, TfOutput} <= k
    ensures Passes(cfg, k, t, WaitAll(order), k + Steps(WaitAll(order)), [])
    decreases |order|
  {
    if order == [] {
      assert WaitAll(order) == [];
      assert k + Steps([]) == k && TailAll(t, [])[|t|..] == [];
    } else {
      var s := WaitSSH(order[0]);
      assert WaitAll(order) == [s] + WaitAll(order[1..]);
      assert Steps(WaitAll(order)) == {s} + Steps(WaitAll(order[1..]));
      assert k + {s} + Steps(WaitAll(order[1..])) == k + Steps(WaitAll(order));
      hide Passes, WaitAll, Steps;
      PassOne(cfg, k, t, s);
      WaitsPass(cfg, order[1..], k + {s}, t + [s]);
      PassAppend(cfg, k, t, [s], k + {s}, t + [s], WaitAll(order[1..]), k + Steps(WaitAll(order)), []);
    }
  }

  lemma BalancerPasses(cfg: Config, k: set<Step>, t: seq<Step>)
    requires {TfApply, WriteInventory} <= k
    ensures Passes(cfg, k, t, LoadBalancerUpdate(cfg), k + Steps(LoadBalancerUpdate(cfg)), t + LoadBalancerUpdate(cfg))
  {
    if cfg.provider == Safespring {
      PassOne(cfg, k, t, Infrastructure);
    } else {
      assert k + Steps([]) == k && t + [] == t && t[|t| - |t|..] == t;
    }
  }

  /** What an apply leaves. */
  lemma ApplyPasses(cfg: Config, k: set<Step>, t: seq<Step>)
    ensures Passes(cfg, k, t, TerraformApply(), k + {TfApply, TfOutput, WriteInventory}, APPLIED)
  {
    ApplyStarts(cfg);
    hide Passes;
    PassKeeps(cfg, k, t, TerraformApply(), {TfApply, TfOutput, WriteInventory}, APPLIED);
  }

  const APPLIED: seq<Step> := [WriteTFVars, TfInit, TfApply, TfOutput, WriteInfraJSON, WriteInventory]

  lemma StatePasses(cfg: Config, n: Name, k: set<Step>, t: seq<Step>)
    ensures Passes(cfg, k, t, MachineState(n), k, [TfInit, TfOutput, FindState(n)])
  {
    StateStarts(cfg, n);
    hide Passes;
    var known := {TfInit, TfOutput, FindState(n)};
    PassKeeps(cfg, k, t, MachineState(n), known, [TfInit, TfOutput, FindState(n)]);
    PassLess(cfg, k, t, MachineState(n), k + known, [TfInit, TfOutput, FindState(n)], k);
  }

  lemma JoinPasses(cfg: Config, n: Name, k: set<Step>, t: seq<Step>)
    ensures Passes(cfg, k, t, JoinMachine(cfg, n), k + {TfApply, WriteInventory, WaitSSH(n), JoinNodes},
                   [TfInit, TfOutput, FindState(n), WaitSSH(n), PrepareNodes, JoinNodes] + LoadBalancerUpdate(cfg))
  {
    hide Passes, TerraformApply, MachineState, JoinMachine, Steps;
    var lb, ts := LoadBalancerUpdate(cfg), [TfInit, TfOutput, FindState(n)];
    hide LoadBalancerUpdate;
    var core := [WaitSSH(n)] + ([PrepareNodes] + ([JoinNodes] + lb));
    assert JoinMachine(cfg, n) == TerraformApply() + (MachineState(n) + core) by {
      Stages.JoinShape(cfg, n);
      assert [WaitSSH(n), PrepareNodes] + ([JoinNodes] + lb) == core;
    }
    var k1 := k + {TfApply, TfOutput, WriteInventory};
    var k2, t2 := k1 + {WaitSSH(n)}, ts + [WaitSSH(n)];
    var k3, t3 := k2 + {PrepareNodes}, t2 + [PrepareNodes];
    var k4, t4 := k3 + {JoinNodes}, t3 + [JoinNodes];
    ApplyPasses(cfg, k, t);
    StatePasses(cfg, n, k1, APPLIED);
    PassOne(cfg, k1, ts, WaitSSH(n));
    PassOne(cfg, k2, t2, PrepareNodes);
    assert EndsWith(t3, [PrepareNodes]);
    PassOne(cfg, k3, t3, JoinNodes);
    BalancerPasses(cfg, k4, t4);
    hide APPLIED;
    PassAppend(cfg, k3, t3, [JoinNodes], k4, t4, lb, k4 + Steps(lb), t4 + lb);
    PassAppend(cfg, k2, t2, [PrepareNodes], k3, t3, [JoinNodes] + lb, k4 + Steps(lb), t4 + lb);
    PassAppend(cfg, k1, ts, [WaitSSH(n)], k2, t2, [PrepareNodes] + ([JoinNodes] + lb), k4 + Steps(lb), t4 + lb);
    PassAppend(cfg, k1, APPLIED, MachineState(n), k1, ts, core, k4 + Steps(lb), t4 + lb);
    PassAppend(cfg, k, t, TerraformApply(), k1, APPLIED, MachineState(n) + core, k4 + Steps(lb), t4 + lb);
    PassLess(cfg, k, t, JoinMachine(cfg, n), k4 + Steps(lb), t4 + lb,
             k + {TfApply, WriteInventory, WaitSSH(n), JoinNodes});
    assert t4 == [TfInit, TfOutput, FindState(n), WaitSSH(n), PrepareNodes, JoinNodes];
  }

  lemma PassLess(cfg: Config, k: set<Step>, t: seq<Step>, script: seq<Step>, k1: set<Step>, t1: seq<Step>,
      k2: set<Step>)
    requires Passes(cfg, k, t, script, k1, t1) && k2 <= k1
    ensures Passes(cfg, k, t, script, k2, t1)
  {
    hide Fits, KnownAll, TailAll;
  }

  lemma RemovePasses(cfg: Config, n: Name, k: set<Step>, t: seq<Step>)
    ensures Passes(cfg, k, t, RemoveNode(cfg, n), {MapRemove(n), TfApply, WriteInventory},
                   APPLIED + LoadBalancerUpdate(cfg))
  {
    RemoveShape(cfg, n);
    hide Passes, Steps;
    PlanStarts(cfg);
    PassKeeps(cfg, k, t, PlanNoDiff(), {TfInit, TfPlan}, [TfInit, TfPlan]);
    ResetStarts(cfg, n);
    var lb, tr := LoadBalancerUpdate(cfg), [TfInit, TfOutput, FindState(n), SshReset(n), DeleteNode(n)];
    var k1, t1 := k + {TfInit, TfPlan}, [TfInit, TfPlan];
    var k2, t2 := k1 + {GetNode(n)}, t1 + [GetNode(n)];
    PassKeeps(cfg, k2, [], ResetNode(n), {FindState(n), SshReset(n), DeleteNode(n)}, tr);
    hide RemoveNode, TerraformApply, PlanNoDiff, ResetNode, LoadBalancerUpdate;
    PassOne(cfg, k1, t1, GetNode(n));
    PassOne(cfg, k2, t2, DrainIfSeen(n));
    var k3, t3 := k2 + {FindState(n), SshReset(n), DeleteNode(n)}, tr + [MapRemove(n)];
    assert EndsWith(tr, [FindState(n), SshReset(n), DeleteNode(n)]);
    PassOne(cfg, k3, tr, MapRemove(n));
    ApplyPasses(cfg, {MapRemove(n)}, t3);
    var k4 := {MapRemove(n)} + {TfApply, TfOutput, WriteInventory};
    BalancerPasses(cfg, k4, APPLIED);
    hide APPLIED;
    var kk, tt := k4 + Steps(lb), APPLIED + lb;
    PassAppend(cfg, {MapRemove(n)}, t3, TerraformApply(), k4, APPLIED, lb, kk, tt);
    PassAppend(cfg, k3, tr, [MapRemove(n)], {MapRemove(n)}, t3, TerraformApply() + lb, kk, tt);
    PassAppend(cfg, k2, [], ResetNode(n), k3, tr, [MapRemove(n)] + (TerraformApply() + lb), kk, tt);
    var after := ResetNode(n) + ([MapRemove(n)] + (TerraformApply() + lb));
    PassAppend(cfg, k2, t2, [DrainIfSeen(n)], k2, [], after, kk, tt);
    PassAppend(cfg, k1, t1, [GetNode(n)], k2, t2, [DrainIfSeen(n)] + after, kk, tt);
    PassAppend(cfg, k, t, PlanNoDiff(), k1, t1, [GetNode(n)] + ([DrainIfSeen(n)] + after), kk, tt);
    PassLess(cfg, k, t, RemoveNode(cfg, n), kk, tt, {MapRemove(n), TfApply, WriteInventory});
  }

  lemma RemotePasses(cfg: Config, k: set<Step>, t: seq<Step>)
    ensures Passes(cfg, k, t, RemoteSteps(), k + {RemoteApply}, [])
  {
    hide Passes;
    var t1, t2 := t + [RemoteInit], t + [RemoteInit] + [RemoteConfig];
    var t3 := t2 + [RemoteApply];
    var k1, k2 := k + {RemoteInit}, k + {RemoteInit} + {RemoteConfig};
    assert RemoteSteps() == [RemoteInit] + ([RemoteConfig] + ([RemoteApply] + []));
    PassNil(cfg, k2 + {RemoteApply}, t3);
    EndsTwo(t2, RemoteInit, RemoteConfig);
    PassNext(cfg, k2, t2, RemoteApply, [], k2 + {RemoteApply}, t3);
    EndsOne(t1, RemoteInit);
    PassNext(cfg, k1, t1, RemoteConfig, [RemoteApply] + [], k2 + {RemoteApply}, t3);
    PassNext(cfg, k, t, RemoteInit, [RemoteConfig] + ([RemoteApply] + []), k2 + {RemoteApply}, t3);
    PassLess(cfg, k, t, RemoteSteps(), k2 + {RemoteApply}, t3, k + {RemoteApply});
    PassShorter(cfg, k, t, RemoteSteps(), k + {RemoteApply}, t3, []);
  }

  lemma OutputPasses(cfg: Config, k: set<Step>, t: seq<Step>)
    ensures Passes(cfg, k, t, [TfInit, TfOutput], k, t + [TfInit] + [TfOutput])
  {
    hide Passes;
    var k2, t2 := k + {TfInit} + {TfOutput}, t + [TfInit] + [TfOutput];
    assert [TfInit, TfOutput] == [TfInit] + ([TfOutput] + []);
    PassNil(cfg, k2, t2);
    PassNext(cfg, k + {TfInit}, t + [TfInit], TfOutput, [], k2, t2);
    PassNext(cfg, k, t, TfInit, [TfOutput] + [], k2, t2);
    PassLess(cfg, k, t, [TfInit, TfOutput], k2, t2, k);
  }

  lemma DeployNeeds(cfg: Config, k: set<Step>)
    requires {RemoteApply, TfApply, WriteInventory} <= k
    ensures Before(cfg, DeployKubernetes) <= k + Steps(LoadBalancerUpdate(cfg))
  {}

  lemma EncryptNeeds(cfg: Config)
    ensures Before(cfg, EncryptKubeconfig) == {}
  {}

  lemma DeployPasses(cfg: Config, k: set<Step>)
    requires {RemoteApply, TfApply, WriteInventory} <= k
    ensures Passes(cfg, k, [], LoadBalancerUpdate(cfg) + ([DeployKubernetes] + ([EncryptKubeconfig] + [])),
                   k + Steps(LoadBalancerUpdate(cfg)), [DeployKubernetes, EncryptKubeconfig])
  {
    hide Passes;
    var lb := LoadBalancerUpdate(cfg);
    var deploy := [DeployKubernetes] + ([EncryptKubeconfig] + []);
    var k4 := k + Steps(lb);
    var k6, t6 := k4 + {DeployKubernetes} + {EncryptKubeconfig}, lb + [DeployKubernetes] + [EncryptKubeconfig];
    BalancerPasses(cfg, k, []);
    DeployNeeds(cfg, k);
    hide LoadBalancerUpdate, Steps, Before;
    assert [] + lb == lb;
    PassNil(cfg, k6, t6);
    EndsOne(lb + [DeployKubernetes], DeployKubernetes);
    EncryptNeeds(cfg);
    PassNext(cfg, k4 + {DeployKubernetes}, lb + [DeployKubernetes], EncryptKubeconfig, [], k6, t6);
    PassCons(cfg, k4, lb, DeployKubernetes, [EncryptKubeconfig] + [], k6, t6);
    PassAppend(cfg, k, [], lb, k4, lb, deploy, k6, t6);
    EndsTwo(t6, DeployKubernetes, EncryptKubeconfig);
    PassShorter(cfg, k, [], lb + deploy, k6, t6, [DeployKubernetes, EncryptKubeconfig]);
    PassLess(cfg, k, [], lb + deploy, k6, [DeployKubernetes, EncryptKubeconfig], k4);
  }

  lemma ApplyAllPasses(cfg: Config, order: seq<Name>, k: set<Step>, t: seq<Step>)
    ensures Passes(cfg, k, t, ApplyAll(cfg, order),
                   k + {RemoteApply} + {TfApply, TfOutput, WriteInventory} + Steps(WaitAll(order))
                   + Steps(LoadBalancerUpdate(cfg)), [DeployKubernetes, EncryptKubeconfig])
  {
    hide Passes, TerraformApply, WaitAll, ApplyAll, RemoteSteps, LoadBalancerUpdate, Steps, APPLIED;
    var lb, waits, io := LoadBalancerUpdate(cfg), WaitAll(order), [TfInit, TfOutput];
    var last, te := lb + ([DeployKubernetes] + ([EncryptKubeconfig] + [])), [DeployKubernetes, EncryptKubeconfig];
    assert ApplyAll(cfg, order) == RemoteSteps() + (TerraformApply() + (io + (waits + last))) by {
      ApplyShape(cfg, order);
      assert io + waits + lb + ([DeployKubernetes] + [EncryptKubeconfig]) == io + (waits + last);
    }
    var k1, k2 := k + {RemoteApply}, k + {RemoteApply} + {TfApply, TfOutput, WriteInventory};
    var t2, k3 := APPLIED + [TfInit] + [TfOutput], k2 + Steps(waits);
    var ke := k3 + Steps(lb);
    RemotePasses(cfg, k, t);
    ApplyPasses(cfg, k1, []);
    OutputPasses(cfg, k2, APPLIED);
    WaitsPass(cfg, order, k2, t2);
    DeployPasses(cfg, k3);
    PassAppend(cfg, k2, t2, waits, k3, [], last, ke, te);
    PassAppend(cfg, k2, APPLIED, io, k2, t2, waits + last, ke, te);
    PassAppend(cfg, k1, [], TerraformApply(), k2, APPLIED, io + (waits + last), ke, te);
    PassAppend(cfg, k, t, RemoteSteps(), k1, [], TerraformApply() + (io + (waits + last)), ke, te);
  }

  /** What a successful command has done last, and since it last changed the machine map. */
  ghost predicate Finished(cfg: Config, c: Command, log: seq<Event>) {
    var lb := if cfg.provider == Safespring then [Infrastructure] else [];
    match c
    case Add(n, t, size, i, settings) =>
      && Trail(log, [TfInit, TfOutput, FindState(n), WaitSSH(n), PrepareNodes, JoinNodes] + lb, |log|)
      && Recent(log, TfApply, |log|) && Recent(log, MapAdd(n, t, size, i, settings), |log|)
    case Clone(n, i, cn) =>
      && Trail(log, [TfInit, TfOutput, FindState(cn), WaitSSH(cn), PrepareNodes, JoinNodes] + lb, |log|)
      && Recent(log, TfApply, |log|) && Recent(log, MapClone(n, i, cn), |log|)
    case Remove(n) =>
      && Trail(log, [WriteTFVars, TfInit, TfApply, TfOutput, WriteInfraJSON, WriteInventory] + lb, |log|)
      && Recent(log, MapRemove(n), |log|)
    case Replace(n, _, _) =>
      && Trail(log, [WriteTFVars, TfInit, TfApply, TfOutput, WriteInfraJSON, WriteInventory] + lb, |log|)
      && Recent(log, MapRemove(n), |log|)
    case Apply(order) =>
      && Trail(log, [DeployKubernetes, EncryptKubeconfig], |log|)
      && Recent(log, RemoteApply, |log|) && Recent(log, TfApply, |log|)
      && (forall n :: n in order ==> Recent(log, WaitSSH(n), |log|))
      && (cfg.provider == Safespring ==> Recent(log, Infrastructure, |log|))
    case DrainOnly(n) => Trail(log, [ReadConfig, Drain(n)], |log|)
    case Reset(n) => Trail(log, [TfInit, TfOutput, FindState(n), SshReset(n), DeleteNode(n)], |log|)
  }

  lemma ShowsFinished(o: Outcome, cfg: Config, c: Command, k: set<Step>, t: seq<Step>)
    requires o.ok && Shows(o, KnownAll({}, [ReadConfig] + Body(cfg, c)), TailAll([], [ReadConfig] + Body(cfg, c)))
    requires Passes(cfg, {}, [], [ReadConfig] + Body(cfg, c), k, t)
    ensures Trail(o.world.log, t, |o.world.log|) && forall s :: s in k ==> Recent(o.world.log, s, |o.world.log|)
  {
    hide Fits, KnownAll, TailAll, Body;
    TrailEnds(o.world.log, TailAll([], [ReadConfig] + Body(cfg, c)), t, |o.world.log|);
    hide Trail, Recent, EndsWith;
  }

  lemma ResetOpensNothing(n: Name)
    ensures LeavesMap(ResetNode(n))
  {}

  /** What the script of a command passes to its end. */
  lemma CommandPasses(cfg: Config, c: Command) returns (k: set<Step>, t: seq<Step>)
    ensures Passes(cfg, {}, [], [ReadConfig] + Body(cfg, c), k, t)
    ensures forall log: seq<Event> ::
              Trail(log, t, |log|) && (forall s :: s in k ==> Recent(log, s, |log|)) ==> Finished(cfg, c, log)
  {
    k, t := BodyPasses(cfg, c, {ReadConfig}, [ReadConfig]);
    hide Passes, Body, Finished, Trail, Recent;
    assert [] + [ReadConfig] == [ReadConfig];
    PassCons(cfg, {}, [], ReadConfig, Body(cfg, c), k, t);
  }

  lemma BodyPasses(cfg: Config, c: Command, k0: set<Step>, t0: seq<Step>) returns (k: set<Step>, t: seq<Step>)
    requires t0 == [ReadConfig]
    ensures Passes(cfg, k0, t0, Body(cfg, c), k, t)
    ensures forall log: seq<Event> ::
              Trail(log, t, |log|) && (forall s :: s in k ==> Recent(log, s, |log|)) ==> Finished(cfg, c, log)
  {
    var lb := LoadBalancerUpdate(cfg);
    hide Passes, JoinMachine, RemoveNode, ApplyAll, AddMachine, CloneMachine, ResetNode, Trail, Recent;
    match c
    case Add(n, ty, size, i, settings) =>
      var add := MapAdd(n, ty, size, i, settings);
      var ta := [TfInit, TfPlan, Build(ty, i), CheckSkew(ty, i), add];
      k, t := {add} + {TfApply, WriteInventory, WaitSSH(n), JoinNodes},
              [TfInit, TfOutput, FindState(n), WaitSSH(n), PrepareNodes, JoinNodes] + lb;
      AddPasses(cfg, n, ty, size, i, settings, k0, t0);
      JoinPasses(cfg, n, {add}, ta);
      PassAppend(cfg, k0, t0, AddMachine(n, ty, size, i, settings), {add}, ta, JoinMachine(cfg, n), k, t);
    case Clone(n, i, cn) =>
      k, t := ClonedPasses(cfg, n, i, cn, k0, t0);
    case Remove(n) =>
      k, t := {MapRemove(n), TfApply, WriteInventory}, APPLIED + lb;
      RemovePasses(cfg, n, k0, t0);
    case Replace(n, i, cn) =>
      var k1, t1 := ClonedPasses(cfg, n, i, cn, k0, t0);
      k, t := {MapRemove(n), TfApply, WriteInventory}, APPLIED + lb;
      RemovePasses(cfg, n, k1, t1);
      PassAppend(cfg, k0, t0, CloneMachine(n, i, cn) + JoinMachine(cfg, cn), k1, t1, RemoveNode(cfg, n), k, t);
    case Apply(order) =>
      k := k0 + {RemoteApply} + {TfApply, TfOutput, WriteInventory} + Steps(WaitAll(order)) + Steps(lb);
      t := [DeployKubernetes, EncryptKubeconfig];
      ApplyAllPasses(cfg, order, k0, t0);
      forall n | n in order ensures WaitSSH(n) in Steps(WaitAll(order)) {
        var i :| 0 <= i < |order| && order[i] == n;
        assert WaitAll(order)[i] == WaitSSH(n);
      }
    case DrainOnly(n) =>
      k, t := k0 + {Drain(n)}, t0 + [Drain(n)];
      PassOne(cfg, k0, t0, Drain(n));
      assert t == [ReadConfig, Drain(n)];
    case Reset(n) =>
      t := [TfInit, TfOutput, FindState(n), SshReset(n), DeleteNode(n)];
      k := k0 + {FindState(n), SshReset(n), DeleteNode(n)};
      ResetStarts(cfg, n);
      ResetOpensNothing(n);
      PassKeeps(cfg, k0, t0, ResetNode(n), {FindState(n), SshReset(n), DeleteNode(n)}, t);
  }

  lemma ClonedPasses(cfg: Config, n: Name, i: string, cn: Name, k0: set<Step>, t0: seq<Step>)
      returns (k: set<Step>, t: seq<Step>)
    ensures k == {MapClone(n, i, cn)} + {TfApply, WriteInventory, WaitSSH(cn), JoinNodes}
    ensures t == [TfInit, TfOutput, FindState(cn), WaitSSH(cn), PrepareNodes, JoinNodes] + LoadBalancerUpdate(cfg)
    ensures Passes(cfg, k0, t0, CloneMachine(n, i, cn) + JoinMachine(cfg, cn), k, t)
  {
    hide Passes, JoinMachine, CloneMachine;
    var clone := MapClone(n, i, cn);
    k := {clone} + {TfApply, WriteInventory, WaitSSH(cn), JoinNodes};
    t := [TfInit, TfOutput, FindState(cn), WaitSSH(cn), PrepareNodes, JoinNodes] + LoadBalancerUpdate(cfg);
    ClonePasses(cfg, n, i, cn, k0, t0);
    JoinPasses(cfg, cn, {clone}, [clone]);
    PassAppend(cfg, k0, t0, CloneMachine(n, i, cn), {clone}, [clone], JoinMachine(cfg, cn), k, t);
  }

  /******* Main results *******/

  lemma InvokeOrdered(w: World, c: Command)
    ensures Ordered(w.cfg, w.log) ==> Ordered(w.cfg, Invoke(w, c).world.log)
    ensures Invoke(w, c).ok ==> Finished(w.cfg, c, Invoke(w, c).world.log)
  {
    var script := [ReadConfig] + Body(w.cfg, c);
    var k, t := CommandPasses(w.cfg, c);
    hide Body, Finished, Ordered;
    RunFits(Outcome(w, true), w.cfg, {}, [], script);
    if Invoke(w, c).ok { ShowsFinished(Invoke(w, c), w.cfg, c, k, t); }
  }

  /** Whatever commands run and wherever they fail: every step is called only directly after the steps it builds on
      have succeeded, and after all that must have succeeded since the process last read or changed the map. */
  lemma {:induction false} AlwaysOrdered(w: World, cs: seq<Command>)
    requires Ordered(w.cfg, w.log)
    ensures Ordered(w.cfg, InvokeAll(w, cs).log)
    decreases |cs|
  {
    if cs != [] {
      InvokeOrdered(w, cs[0]);
      RunGrows(Outcome(w, true), [ReadConfig] + Body(w.cfg, cs[0]));
      hide Run, Body, Ordered;
      AlwaysOrdered(Invoke(w, cs[0]).world, cs[1..]);
    }
  }

  /** A successful command has done all of its work: its last steps, and what else there was to do since it last
      changed the machine map, succeeded in this order. */
  lemma SuccessFinishes(w: World, c: Command)
    requires Invoke(w, c).ok
    ensures Finished(w.cfg, c, Invoke(w, c).world.log)
  {
    InvokeOrdered(w, c);
    hide Invoke, Finished, Ordered;
  }
}
