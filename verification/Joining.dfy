/** Ordering: nodes are joined only after the machine that the same process added was found in the
    Terraform state and answered. */
module Joining {
  import opened Fleet
  import opened Lifecycle
  import opened Removal

  /** The event puts machine `n` into the map. */
  predicate Introduces(e: Event, n: Name) {
    e.ok && ((e.step.MapAdd? && e.step.name == n) || (e.step.MapClone? && e.step.cloneName == n))
  }

  predicate StartsOver(s: Step) { s.ReadConfig? || s.MapAdd? || s.MapClone? }

  /** Before `i`, `n` is the machine last put into the map, by the process at work. */
  ghost predicate Introduced(log: seq<Event>, n: Name, i: nat) {
    exists k :: 0 <= k < i <= |log| && Introduces(log[k], n) && forall x :: k < x < i ==> !StartsOver(log[x].step)
  }

  /** The three events before `i`: that machine was found, it answered, and the nodes were prepared. */
  ghost predicate PreparedFor(log: seq<Event>, n: Name, i: nat) {
    && 3 <= i <= |log|
    && Done(log[i - 3], FindState(n)) && Done(log[i - 2], WaitSSH(n)) && Done(log[i - 1], PrepareNodes)
    && Introduced(log, n, i - 3)
  }

  ghost predicate SafeJoins(log: seq<Event>) {
    forall i :: 0 <= i < |log| && log[i].step == JoinNodes ==> exists n :: PreparedFor(log, n, i)
  }

  lemma IntroducedExtends(log: seq<Event>, more: seq<Event>, n: Name, i: nat)
    requires Introduced(log, n, i) && log <= more
    ensures Introduced(more, n, i)
  {
    var k :| 0 <= k < i <= |log| && Introduces(log[k], n) && forall x :: k < x < i ==> !StartsOver(log[x].step);
    assert Introduces(more[k], n);
  }

  lemma SafeExtends(log: seq<Event>, more: seq<Event>)
    requires SafeJoins(log) && log <= more && |more| <= |log| + 1
    requires |more| > |log| && more[|log|].step == JoinNodes ==> exists n :: PreparedFor(log, n, |log|)
    ensures SafeJoins(more)
  {
    forall i | 0 <= i < |more| && more[i].step == JoinNodes ensures exists n :: PreparedFor(more, n, i) {
      if i < |log| { assert log[i] == more[i]; }
      var n :| PreparedFor(log, n, i);
      IntroducedExtends(log, more, n, i - 3);
      assert PreparedFor(more, n, i);
    }
  }

  /** A step appends at most one event, its own. */
  lemma StepAppends(o: Outcome, step: Step)
    ensures var log, more := o.world.log, Do(o, step).world.log;
            && log <= more && |more| <= |log| + 1
            && (|more| > |log| && step != JoinNodes ==> more[|log|].step != JoinNodes)
            && (|more| > |log| && !StartsOver(step) ==> !StartsOver(more[|log|].step))
  {}

  lemma {:induction false} OthersKeep(o: Outcome, s: seq<Step>)
    requires SafeJoins(o.world.log) && JoinNodes !in s
    ensures SafeJoins(Run(o, s).world.log)
    decreases |s|
  {
    hide Do;
    if s != [] {
      StepAppends(o, s[0]);
      SafeExtends(o.world.log, Do(o, s[0]).world.log);
      OthersKeep(Do(o, s[0]), s[1..]);
    }
  }

  /** The machine stays the last one introduced. */
  lemma {:induction false} StaysIntroduced(o: Outcome, s: seq<Step>, n: Name)
    requires Introduced(o.world.log, n, |o.world.log|) && forall x :: x in s ==> !StartsOver(x)
    ensures var log := Run(o, s).world.log; Introduced(log, n, |log|)
    decreases |s|
  {
    hide Do;
    if s != [] {
      StepAppends(o, s[0]);
      var log, more := o.world.log, Do(o, s[0]).world.log;
      var k :| 0 <= k < |log| && Introduces(log[k], n) && forall x :: k < x < |log| ==> !StartsOver(log[x].step);
      assert Introduces(more[k], n);
      assert Introduced(more, n, |more|);
      StaysIntroduced(Do(o, s[0]), s[1..], n);
    }
  }

  /** The only place where nodes are joined. */
  lemma CoreKeeps(o: Outcome, n: Name)
    requires SafeJoins(o.world.log) && (o.ok ==> Introduced(o.world.log, n, |o.world.log|))
    ensures SafeJoins(Run(o, [FindState(n), WaitSSH(n), PrepareNodes] + [JoinNodes]).world.log)
  {
    hide Exec, Do, Run;
    var three := [FindState(n), WaitSSH(n), PrepareNodes];
    assert three == [FindState(n)] + ([WaitSSH(n)] + [PrepareNodes]);
    RunAppend(o, three, [JoinNodes]);
    OthersKeep(o, three);
    Cons(o, FindState(n), [WaitSSH(n)] + [PrepareNodes]);
    var a := Do(o, FindState(n));
    Cons(a, WaitSSH(n), [PrepareNodes]);
    var b := Do(a, WaitSSH(n));
    One(b, PrepareNodes);
    var c := Do(b, PrepareNodes);
    One(c, JoinNodes);
    Evidence(o, n);
    StepAppends(c, JoinNodes);
    if !c.ok { JoinSkipped(c); }
    SafeExtends(c.world.log, Do(c, JoinNodes).world.log);
  }

  /** What three successful steps leave in the log. */
  lemma Evidence(o: Outcome, n: Name)
    requires o.ok ==> Introduced(o.world.log, n, |o.world.log|)
    ensures var c := Do(Do(Do(o, FindState(n)), WaitSSH(n)), PrepareNodes);
            c.ok ==> PreparedFor(c.world.log, n, |c.world.log|)
  {
    var a := Do(o, FindState(n));
    var b := Do(a, WaitSSH(n));
    var c := Do(b, PrepareNodes);
    StepLogs(o, FindState(n));
    StepLogs(a, WaitSSH(n));
    StepLogs(b, PrepareNodes);
    hide Do;
    if c.ok { IntroducedExtends(o.world.log, c.world.log, n, |o.world.log|); }
  }

  lemma JoinSkipped(o: Outcome)
    requires !o.ok
    ensures Do(o, JoinNodes) == o
  {}

  lemma JoinShape(cfg: Config, n: Name)
    ensures JoinMachine(cfg, n)
         == (TerraformApply() + [TfInit, TfOutput]) +
            (([FindState(n), WaitSSH(n), PrepareNodes] + [JoinNodes]) + LoadBalancerUpdate(cfg))
    ensures JoinNodes !in TerraformApply() + [TfInit, TfOutput] && JoinNodes !in LoadBalancerUpdate(cfg)
    ensures forall x :: x in TerraformApply() + [TfInit, TfOutput] ==> !StartsOver(x)
  {}

  lemma JoinKeeps(o: Outcome, cfg: Config, n: Name)
    requires SafeJoins(o.world.log) && (o.ok ==> Introduced(o.world.log, n, |o.world.log|))
    ensures SafeJoins(Run(o, JoinMachine(cfg, n)).world.log)
  {
    JoinShape(cfg, n);
    hide Exec, Do, Run, JoinMachine, TerraformApply, LoadBalancerUpdate, SafeJoins, Introduced;
    var first := TerraformApply() + [TfInit, TfOutput];
    var core := [FindState(n), WaitSSH(n), PrepareNodes] + [JoinNodes];
    RunAppend(o, first, core + LoadBalancerUpdate(cfg));
    var b := Run(o, first);
    RunAppend(b, core, LoadBalancerUpdate(cfg));
    OthersKeep(o, first);
    if o.ok { StaysIntroduced(o, first, n); } else { RunFailed(o, first); }
    CoreKeeps(b, n);
    OthersKeep(Run(b, core), LoadBalancerUpdate(cfg));
  }

  /** A command that joins a machine: what comes before it is put into the map, the step that does so, the
      machine, and what comes after the join. */
  lemma CommandShape(cfg: Config, c: Command) returns (before: seq<Step>, add: Step, n: Name, after: seq<Step>)
    requires c.Add? || c.Clone? || c.Replace?
    ensures JoinNodes !in before && JoinNodes !in after
    ensures (add.MapAdd? && add.name == n) || (add.MapClone? && add.cloneName == n)
    ensures Body(cfg, c) == (before + [add]) + (JoinMachine(cfg, n) + after)
  {
    after := [];
    match c
    case Add(m, t, size, i, settings) =>
      before, add, n := PlanNoDiff() + [Build(t, i), CheckSkew(t, i)], MapAdd(m, t, size, i, settings), m;
      assert AddMachine(m, t, size, i, settings) == before + [add];
      hide AddMachine, JoinMachine;
      assert JoinMachine(cfg, n) + [] == JoinMachine(cfg, n);
    case Clone(m, i, cn) =>
      before, add := CloneParts(m, i, cn);
      n := cn;
      hide CloneMachine, JoinMachine;
      assert JoinMachine(cfg, cn) + [] == JoinMachine(cfg, cn);
    case Replace(m, i, cn) =>
      before, add := CloneParts(m, i, cn);
      n, after := cn, RemoveNode(cfg, m);
      NoJoins(cfg, c);
      hide CloneMachine, JoinMachine, RemoveNode;
  }

  lemma CloneParts(n: Name, i: string, cn: Name) returns (before: seq<Step>, add: Step)
    ensures add == MapClone(n, i, cn) && CloneMachine(n, i, cn) == before + [add] && JoinNodes !in before
  {
    add := MapClone(n, i, cn);
    before := PlanNoDiff() + [FindConfigured(n)] + if i == "" then [] else [BuildClone(n, i), CheckCloneSkew(n, i)];
  }

  lemma NoJoins(cfg: Config, c: Command)
    ensures c.Replace? ==> JoinNodes !in RemoveNode(cfg, c.name)
    ensures !c.Add? && !c.Clone? && !c.Replace? ==> JoinNodes !in Body(cfg, c)
  {}

  lemma AddedNow(o: Outcome, add: Step, n: Name)
    requires (add.MapAdd? && add.name == n) || (add.MapClone? && add.cloneName == n)
    ensures var o' := Do(o, add); o'.ok ==> Introduced(o'.world.log, n, |o'.world.log|)
  {
    StepLogs(o, add);
    hide Do;
    var o' := Do(o, add);
    if o'.ok { assert Introduces(o'.world.log[|o.world.log|], n); }
  }

  lemma InvokeKeepsJoins(w: World, c: Command)
    requires SafeJoins(w.log)
    ensures SafeJoins(Invoke(w, c).world.log)
  {
    var o := Outcome(w, true);
    hide Exec, Do, Run, Body, JoinMachine, SafeJoins, Introduced;
    if c.Add? || c.Clone? || c.Replace? {
      var before, add, n, after := CommandShape(w.cfg, c);
      var first := [ReadConfig] + before;
      assert [ReadConfig] + Body(w.cfg, c) == first + ([add] + (JoinMachine(w.cfg, n) + after));
      RunAppend(o, first, [add] + (JoinMachine(w.cfg, n) + after));
      var a := Run(o, first);
      OthersKeep(o, first);
      Cons(a, add, JoinMachine(w.cfg, n) + after);
      var b := Do(a, add);
      One(a, add);
      OthersKeep(a, [add]);
      AddedNow(a, add, n);
      RunAppend(b, JoinMachine(w.cfg, n), after);
      JoinKeeps(b, w.cfg, n);
      OthersKeep(Run(b, JoinMachine(w.cfg, n)), after);
    } else {
      NoJoins(w.cfg, c);
      OthersKeep(o, [ReadConfig] + Body(w.cfg, c));
    }
  }

  /** Whatever commands run and wherever they fail, nodes are only ever joined right after the machine that
      the same process put into the map was found in the Terraform state, answered over SSH, and the nodes
      were prepared. */
  lemma {:induction false} JoinsAlwaysPrepared(w: World, cs: seq<Command>)
    requires SafeJoins(w.log)
    ensures SafeJoins(InvokeAll(w, cs).log)
    decreases |cs|
  {
    if cs != [] {
      InvokeKeepsJoins(w, cs[0]);
      hide Invoke, SafeJoins;
      JoinsAlwaysPrepared(Invoke(w, cs[0]).world, cs[1..]);
    }
  }
}
