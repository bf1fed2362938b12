/** Ordering: a machine leaves the machine map only after the node was drained (when it was seen to
    exist), the machine was reset and the node was deleted, in this order and in the same command. */
module Removal {
  import opened Fleet
  import opened Lifecycle

  predicate Done(e: Event, step: Step) { e.ok && e.step == step }

  ghost predicate Drained(log: seq<Event>, n: Name, from: nat, to: nat) {
    exists q :: from < q < to && q < |log| && Done(log[q], Drain(n))
  }

  /** Events `g < r < k` before `i` ask for the node, reset the machine and delete the node. */
  ghost predicate ClearedAt(log: seq<Event>, n: Name, i: nat, g: nat, r: nat, k: nat) {
    && g < r < k < i <= |log|
    && Done(log[g], GetNode(n)) && Done(log[r], SshReset(n)) && Done(log[k], DeleteNode(n))
    && (log[g].seen ==> Drained(log, n, g, r))
    && (forall x :: g <= x < i ==> log[x].step != ReadConfig)
  }

  ghost predicate Cleared(log: seq<Event>, n: Name, i: nat) {
    exists g: nat, r: nat, k: nat :: ClearedAt(log, n, i, g, r, k)
  }

  ghost predicate SafeRemovals(log: seq<Event>) {
    forall i :: 0 <= i < |log| && log[i].step.MapRemove? ==> Cleared(log, log[i].step.name, i)
  }

  lemma ClearedExtends(log: seq<Event>, more: seq<Event>, n: Name, i: nat)
    requires Cleared(log, n, i) && log <= more
    ensures Cleared(more, n, i)
  {
    var g: nat, r: nat, k: nat :| ClearedAt(log, n, i, g, r, k);
    if log[g].seen {
      var q :| g < q < r && q < |log| && Done(log[q], Drain(n));
      assert Done(more[q], Drain(n));
    }
    assert ClearedAt(more, n, i, g, r, k);
  }

  lemma StepKeeps(o: Outcome, step: Step)
    requires SafeRemovals(o.world.log)
    requires step.MapRemove? ==> Cleared(o.world.log, step.name, |o.world.log|)
    ensures SafeRemovals(Do(o, step).world.log)
  {
    var log, more := o.world.log, Do(o, step).world.log;
    forall i | 0 <= i < |more| && more[i].step.MapRemove? ensures Cleared(more, more[i].step.name, i) {
      ClearedExtends(log, more, more[i].step.name, i);
    }
  }

  lemma {:induction false} OtherStepsKeep(o: Outcome, s: seq<Step>)
    requires SafeRemovals(o.world.log)
    requires forall step :: step in s ==> !step.MapRemove?
    ensures SafeRemovals(Run(o, s).world.log)
    decreases |s|
  {
    if s != [] {
      StepKeeps(o, s[0]);
      OtherStepsKeep(Do(o, s[0]), s[1..]);
    }
  }

  /** What a successful step leaves in the log. */
  lemma StepLogs(o: Outcome, step: Step)
    ensures var o' := Do(o, step);
            o'.ok ==> (o.ok && o'.world.log == o.world.log +
              if !step.DrainIfSeen? then [Event(step, true, o'.world.seen, Lost(o.world))]
              else if o.world.seen then [Event(Drain(step.name), true, true, Lost(o.world))]
              else [])
  {}

  /** Steps 2 to 4 of a removal leave the node cleared if they all succeed. */
  lemma ClearsNode(o: Outcome, n: Name)
    ensures var o' := Run(o, [GetNode(n), DrainIfSeen(n)] + ResetNode(n));
            o'.ok ==> Cleared(o'.world.log, n, |o'.world.log|)
  {
    hide Exec, Do;
    var two := [SshReset(n)] + ([DeleteNode(n)] + []);
    var all := [GetNode(n)] + ([DrainIfSeen(n)] + (MachineState(n) + two));
    assert [GetNode(n), DrainIfSeen(n)] + ResetNode(n) == all;
    hide Run;
    Cons(o, GetNode(n), [DrainIfSeen(n)] + (MachineState(n) + two));
    var a := Do(o, GetNode(n));
    Cons(a, DrainIfSeen(n), MachineState(n) + two);
    var b := Do(a, DrainIfSeen(n));
    RunAppend(b, MachineState(n), two);
    var c := StateOf(b, n);
    Cons(c, SshReset(n), [DeleteNode(n)] + []);
    var d := Do(c, SshReset(n));
    Cons(d, DeleteNode(n), []);
    var e := Do(d, DeleteNode(n));
    Nil(e);
    StepLogs(o, GetNode(n));
    StepLogs(a, DrainIfSeen(n));
    StepLogs(c, SshReset(n));
    StepLogs(d, DeleteNode(n));
    if e.ok {
      ClearWitness(o.world.log, Event(GetNode(n), true, a.world.seen, Lost(o.world)),
          Event(Drain(n), true, true, Lost(a.world)), c.world.log,
          Event(SshReset(n), true, d.world.seen, Lost(c.world)),
          Event(DeleteNode(n), true, e.world.seen, Lost(d.world)), n);
    }
  }

  lemma ClearWitness(l0: seq<Event>, e1: Event, e2: Event, l3: seq<Event>, e4: Event, e5: Event, n: Name)
    requires Done(e1, GetNode(n)) && Done(e2, Drain(n)) && Done(e4, SshReset(n)) && Done(e5, DeleteNode(n))
    requires var l2 := l0 + [e1] + if e1.seen then [e2] else [];
             l2 <= l3 && |l3| == |l2| + 3 && forall x :: |l2| <= x < |l3| ==> l3[x].step != ReadConfig
    ensures var l5 := l3 + [e4] + [e5]; Cleared(l5, n, |l5|)
  {
    var l5 := l3 + [e4] + [e5];
    var g, r, k := |l0|, |l3|, |l3| + 1;
    assert l5[g] == l3[g] == e1 && l5[r] == e4 && l5[k] == e5;
    if e1.seen {
      assert l5[g + 1] == l3[g + 1] == e2;
      assert Drained(l5, n, g, r);
    }
    assert ClearedAt(l5, n, |l5|, g, r, k);
  }

  lemma StepAdds(o: Outcome, step: Step)
    requires !step.DrainIfSeen? && step != ReadConfig
    ensures var o' := Do(o, step);
            && o.world.log <= o'.world.log
            && (forall x :: |o.world.log| <= x < |o'.world.log| ==> o'.world.log[x].step != ReadConfig)
            && (o'.ok ==> o.ok && |o'.world.log| == |o.world.log| + 1)
  {}

  /** Looking a machine up appends three events, none of them a configuration read. */
  lemma StateOf(o: Outcome, n: Name) returns (o': Outcome)
    ensures o' == Run(o, MachineState(n))
    ensures o.world.log <= o'.world.log
    ensures o'.ok ==> o.ok && |o'.world.log| == |o.world.log| + 3
    ensures forall x :: |o.world.log| <= x < |o'.world.log| ==> o'.world.log[x].step != ReadConfig
  {
    hide Exec, Do;
    assert MachineState(n) == [TfInit] + ([TfOutput] + ([FindState(n)] + []));
    Cons(o, TfInit, [TfOutput] + ([FindState(n)] + []));
    var a := Do(o, TfInit);
    Cons(a, TfOutput, [FindState(n)] + []);
    var b := Do(a, TfOutput);
    Cons(b, FindState(n), []);
    o' := Do(b, FindState(n));
    Nil(o');
    StepAdds(o, TfInit);
    StepAdds(a, TfOutput);
    StepAdds(b, FindState(n));
  }

  lemma RemoveNodeParts(cfg: Config, n: Name) returns (last: seq<Step>)
    ensures RemoveNode(cfg, n)
         == PlanNoDiff() + (([GetNode(n), DrainIfSeen(n)] + ResetNode(n)) + ([MapRemove(n)] + last))
    ensures last == TerraformApply() + LoadBalancerUpdate(cfg)
    ensures forall step :: step in last ==> !step.MapRemove?
  {
    last := TerraformApply() + LoadBalancerUpdate(cfg);
  }

  lemma RemoveNodeKeeps(o: Outcome, cfg: Config, n: Name)
    requires SafeRemovals(o.world.log)
    ensures SafeRemovals(Run(o, RemoveNode(cfg, n)).world.log)
  {
    var last := RemoveNodeParts(cfg, n);
    OtherStepsKeep(o, PlanNoDiff());
    hide Exec, Do, RemoveNode, TerraformApply, PlanNoDiff, Run;
    var clear := [GetNode(n), DrainIfSeen(n)] + ResetNode(n);
    RunAppend(o, PlanNoDiff(), clear + ([MapRemove(n)] + last));
    var a := Run(o, PlanNoDiff());
    RunAppend(a, clear, [MapRemove(n)] + last);
    var b := Run(a, clear);
    OtherStepsKeep(a, clear);
    ClearsNode(a, n);
    if b.ok {
      Cons(b, MapRemove(n), last);
      StepKeeps(b, MapRemove(n));
      OtherStepsKeep(Do(b, MapRemove(n)), last);
    } else {
      RunFailed(b, [MapRemove(n)] + last);
    }
  }

  predicate RemovesNothing(s: seq<Step>) {
    forall step :: step in s ==> !step.MapRemove?
  }

  lemma ScriptsRemoveNothing(cfg: Config, n: Name, t: NodeType, size: string, i: string, settings: map<string, int>,
        cn: Name, order: seq<Name>)
    ensures RemovesNothing(AddMachine(n, t, size, i, settings))
    ensures RemovesNothing(CloneMachine(n, i, cn))
    ensures RemovesNothing(JoinMachine(cfg, n))
    ensures RemovesNothing(ApplyAll(cfg, order))
    ensures RemovesNothing(ResetNode(n)) && RemovesNothing([Drain(n)])
  {}

  lemma InvokeKeeps(w: World, c: Command)
    requires SafeRemovals(w.log)
    ensures SafeRemovals(Invoke(w, c).world.log)
  {
    hide Exec, Do, Run, RemoveNode, JoinMachine, CloneMachine, AddMachine, ApplyAll, ResetNode;
    var o := Outcome(w, true);
    match c
    case Add(n, t, size, i, settings) =>
      ScriptsRemoveNothing(w.cfg, n, t, size, i, settings, n, []);
      OtherStepsKeep(o, [ReadConfig] + Body(w.cfg, c));
    case Clone(n, i, cn) =>
      ScriptsRemoveNothing(w.cfg, n, Master, "", i, map[], cn, []);
      ScriptsRemoveNothing(w.cfg, cn, Master, "", i, map[], cn, []);
      OtherStepsKeep(o, [ReadConfig] + Body(w.cfg, c));
    case Remove(n) =>
      RunAppend(o, [ReadConfig], RemoveNode(w.cfg, n));
      OtherStepsKeep(o, [ReadConfig]);
      RemoveNodeKeeps(Run(o, [ReadConfig]), w.cfg, n);
    case Replace(n, i, cn) =>
      ScriptsRemoveNothing(w.cfg, n, Master, "", i, map[], cn, []);
      ScriptsRemoveNothing(w.cfg, cn, Master, "", i, map[], cn, []);
      var first := [ReadConfig] + (CloneMachine(n, i, cn) + JoinMachine(w.cfg, cn));
      assert [ReadConfig] + Body(w.cfg, c) == first + RemoveNode(w.cfg, n);
      RunAppend(o, first, RemoveNode(w.cfg, n));
      OtherStepsKeep(o, first);
      RemoveNodeKeeps(Run(o, first), w.cfg, n);
    case Apply(order) =>
      ScriptsRemoveNothing(w.cfg, "", Master, "", "", map[], "", order);
      OtherStepsKeep(o, [ReadConfig] + Body(w.cfg, c));
    case DrainOnly(n) =>
      ScriptsRemoveNothing(w.cfg, n, Master, "", "", map[], n, []);
      OtherStepsKeep(o, [ReadConfig] + Body(w.cfg, c));
    case Reset(n) =>
      ScriptsRemoveNothing(w.cfg, n, Master, "", "", map[], n, []);
      OtherStepsKeep(o, [ReadConfig] + Body(w.cfg, c));
  }

  /** Whatever commands run and wherever they fail, every machine that ever left the map was cleared first. */
  lemma {:induction false} RemovalsAlwaysSafe(w: World, cs: seq<Command>)
    requires SafeRemovals(w.log)
    ensures SafeRemovals(InvokeAll(w, cs).log)
    decreases |cs|
  {
    if cs != [] {
      InvokeKeeps(w, cs[0]);
      RemovalsAlwaysSafe(Invoke(w, cs[0]).world, cs[1..]);
    }
  }

  /******* What the log stands for *******/

  /** Machine `n` is configured and provisioned alike in map, file and state. */
  ghost predicate Held(w: World, n: Name) {
    && n in Mem(w) && n in Infra(w) && Mem(w)[n] == Infra(w)[n]
    && (w.file.Some? ==> var want := Current(w.file.value, w.cfg.clusterType); n in want && want[n] == Mem(w)[n])
  }

  /** No tool and no other change of the map takes a machine out of map, file or state, not even part-way. */
  lemma OnlyRemovalLosesIt(o: Outcome, s: Step, n: Name)
    requires Held(o.world, n) && s != MapRemove(n)
    ensures Held(Do(o, s).world, n)
  {
    hide Exec;
    var step := if s.DrainIfSeen? then Drain(s.name) else s;
    if o.world.draws != [] {
      if step == TfApply {
        ApplyKeepsIt(o.world, o.world.draws[0], n);
      } else {
        ExecKeepsIt(o.world, step, o.world.draws[0], n);
      }
    }
  }

  lemma ApplyKeepsIt(w: World, d: Draw, n: Name)
    requires Held(w, n)
    ensures Held(Exec(w, TfApply, d).0, n)
  {
    hide Extra, Changed;
  }

  lemma ExecKeepsIt(w: World, s: Step, d: Draw, n: Name)
    requires Held(w, n) && s != MapRemove(n) && !s.TfApply?
    ensures Held(Exec(w, s, d).0, n)
  {
    hide PlanCounts, Joinable, SkewOk, ImageName, PartlyApplied, SetInfra;
  }

  lemma RemovalIsLogged(o: Outcome, n: Name)
    requires o.ok
    ensures var more := Do(o, MapRemove(n)).world.log;
            |more| == |o.world.log| + 1 && more[|o.world.log|].step == MapRemove(n)
  {}

  lemma {:induction false} LosingRunLogs(o: Outcome, s: seq<Step>, n: Name)
    requires Held(o.world, n) && !Held(Run(o, s).world, n)
    ensures exists i :: |o.world.log| <= i < |Run(o, s).world.log| && Run(o, s).world.log[i].step == MapRemove(n)
    decreases |s|
  {
    hide Do, Held;
    var a := Do(o, s[0]);
    DoGrows(o, s[0]);
    RunGrows(a, s[1..]);
    if Held(a.world, n) {
      LosingRunLogs(a, s[1..], n);
    } else {
      assert s[0] == MapRemove(n) by {
        if s[0] != MapRemove(n) { OnlyRemovalLosesIt(o, s[0], n); }
      }
      if !o.ok { RunFailed(o, [s[0]]); One(o, s[0]); }
      RemovalIsLogged(o, n);
      assert Run(o, s).world.log[|o.world.log|] == a.world.log[|o.world.log|];
    }
  }

  lemma {:induction false} LosingLogs(w: World, cs: seq<Command>, n: Name)
    requires Held(w, n) && !Held(InvokeAll(w, cs), n)
    ensures |w.log| <= |InvokeAll(w, cs).log|
    ensures exists i :: |w.log| <= i < |InvokeAll(w, cs).log| && InvokeAll(w, cs).log[i].step == MapRemove(n)
    decreases |cs|
  {
    hide Held, Invoke;
    var w1 := Invoke(w, cs[0]).world;
    InvokeGrows(w, cs[0]);
    AllGrows(w1, cs[1..]);
    if Held(w1, n) {
      LosingLogs(w1, cs[1..], n);
    } else {
      InvokeLogs(w, cs[0], n);
      var i :| |w.log| <= i < |w1.log| && w1.log[i].step == MapRemove(n);
      assert InvokeAll(w, cs).log[i] == w1.log[i];
    }
  }

  lemma InvokeLogs(w: World, c: Command, n: Name)
    requires Held(w, n) && !Held(Invoke(w, c).world, n)
    ensures exists i :: |w.log| <= i < |Invoke(w, c).world.log| && Invoke(w, c).world.log[i].step == MapRemove(n)
  {
    LosingRunLogs(Outcome(w, true), [ReadConfig] + Body(w.cfg, c), n);
  }

  /** A machine that was configured and provisioned and is missing from map, file or Terraform state after
      any sequence of commands, wherever they failed, was taken out of the map on the way, and before that,
      by the same process, the node was asked for, drained if seen, reset and deleted. */
  lemma GoneMeansCleared(w: World, cs: seq<Command>, n: Name)
    requires Held(w, n) && SafeRemovals(w.log)
    requires var w' := InvokeAll(w, cs);
             || n !in Mem(w') || n !in Infra(w') || (w'.file.Some? && n !in Current(w'.file.value, w'.cfg.clusterType))
    ensures exists i :: |w.log| <= i < |InvokeAll(w, cs).log| && InvokeAll(w, cs).log[i].step == MapRemove(n)
                     && Cleared(InvokeAll(w, cs).log, n, i)
  {
    LosingLogs(w, cs, n);
    RemovalsAlwaysSafe(w, cs);
    hide InvokeAll, Held, Cleared;
    var i :| |w.log| <= i < |InvokeAll(w, cs).log| && InvokeAll(w, cs).log[i].step == MapRemove(n);
    assert Cleared(InvokeAll(w, cs).log, n, i);
  }
}
