/** What each stage of a command does to the world, whatever the tools do. */
module Stages {
  import opened Fleet
  import opened Wrappers
  import opened Lifecycle
  import PlanCheck

  function Want(w: World): Fleet
    requires w.file.Some?
  {
    Current(w.file.value, w.cfg.clusterType)
  }

  /** From the first world to the second the log grows, and nothing else but the draws changes. */
  ghost predicate Quiet(w: World, w': World) {
    w.log <= w'.log && w' == w.(log := w'.log, draws := w'.draws)
  }

  ghost predicate QuietButMem(w: World, w': World) {
    w.log <= w'.log && w' == w.(mem := w'.mem, log := w'.log, draws := w'.draws)
  }

  /** Nothing is pending: file and Terraform state describe the same machines, and nothing else is to do. */
  ghost predicate Settled(w: World) {
    w.file.Some? && Want(w) == Infra(w) && w.rest == NOTHING
  }

  /******* Steps that change nothing *******/

  predicate Inert(s: Step) {
    || s.RemoteInit? || s.RemoteConfig? || s.RemoteApply? || s.TfInit? || s.TfOutput? || s.WriteInfraJSON?
    || s.FindState? || s.WaitSSH? || s.PrepareNodes? || s.Infrastructure? || s.EncryptKubeconfig?
    || s.Drain? || s.DrainIfSeen?
    || s.Build? || s.CheckSkew? || s.FindConfigured? || s.BuildClone? || s.CheckCloneSkew?
  }

  lemma InertStep(o: Outcome, s: Step)
    requires Inert(s)
    ensures Quiet(o.world, Do(o, s).world)
    ensures Do(o, s).ok ==> o.ok
  {}

  lemma {:induction false} InertRun(o: Outcome, script: seq<Step>)
    requires forall s :: s in script ==> Inert(s)
    ensures Quiet(o.world, Run(o, script).world)
    ensures Run(o, script).ok ==> o.ok
    decreases |script|
  {
    hide Do;
    if script != [] {
      InertStep(o, script[0]);
      InertRun(Do(o, script[0]), script[1..]);
    }
  }

  /******* Reading and checking *******/

  lemma ReadStage(w: World) returns (o: Outcome)
    ensures o == Run(Outcome(w, true), [ReadConfig])
    ensures QuietButMem(w, o.world)
    ensures if o.ok then w.file.Some? && o.world.mem == w.file.value else o.world.mem == w.mem
  {
    One(Outcome(w, true), ReadConfig);
    o := Do(Outcome(w, true), ReadConfig);
  }

  /** The most additions a plan prints for a number of missing machines. */
  function MostAdditions(resources: nat, missing: nat): nat {
    if resources == 0 then missing else resources * missing
  }

  /** Nothing is to change or be destroyed. */
  ghost predicate OnlyAdds(w: World) {
    && w.file.Some?
    && Changed(Infra(w), Want(w)) == {} && Extra(Infra(w), Want(w)) == {}
    && w.rest.changes == 0 && w.rest.destroys == 0
  }

  /** A plan that is not empty may still print the phrase the check looks for: nothing is to change or be
      destroyed, and between the fewest and the most additions lies a multiple of ten. */
  ghost predicate Passable(w: World) {
    && OnlyAdds(w)
    && var missing := |Missing(Infra(w), Want(w))|;
       RoundUp(missing + w.rest.adds) <= MostAdditions(w.cfg.resources, missing) + w.rest.adds
  }

  /** Additions lie between one and `resources` for each missing machine. */
  lemma SpareBounds(resources: nat, missing: nat, extra: nat)
    ensures missing + Spare(resources, missing, extra) <= MostAdditions(resources, missing)
  {
    assert resources * missing == (resources - 1) * missing + missing;
  }

  lemma SpareReaches(resources: nat, missing: nat, a: nat)
    requires missing <= a <= MostAdditions(resources, missing)
    ensures missing + Spare(resources, missing, a - missing) == a
  {
    assert resources * missing == (resources - 1) * missing + missing;
  }

  /** In any world at all the check passes exactly when the plan succeeds, nothing is to be changed or
      destroyed and the additions are a multiple of ten, or when it does not and its exit code is lost. */
  lemma CheckPassesExactly(w: World, d: Draw)
    requires w.file.Some?
    ensures var (a, _, _) := PlanCounts(w, Want(w), d);
            Exec(w, TfPlan, d).1 <==> if d.works then OnlyAdds(w) && a % 10 == 0 else d.lost
  {
    var (a, c, x) := PlanCounts(w, Want(w), d);
    PlanCheck.AcceptedExactly(a, c, x);
    hide PlanCheck.Accepted;
  }

  lemma CleanCounts(w: World, d: Draw)
    requires OnlyAdds(w)
    ensures var missing := |Missing(Infra(w), Want(w))|;
            PlanCounts(w, Want(w), d) == (missing + Spare(w.cfg.resources, missing, d.extra) + w.rest.adds, 0, 0)
  {
    hide Spare, Missing, Extra, Changed;
  }

  function RoundUp(m: nat): (a: nat)
    ensures m <= a && a % 10 == 0
  {
    (m + 9) / 10 * 10
  }

  lemma RoundUpLeast(m: nat, b: nat)
    requires m <= b && b % 10 == 0
    ensures RoundUp(m) <= b
  {}

  /** A working plan that passes adds a multiple of ten and nothing else. */
  lemma WorkingPlan(w: World, d: Draw)
    requires d.works && Exec(w, TfPlan, d).1
    ensures OnlyAdds(w)
    ensures var missing := |Missing(Infra(w), Want(w))|;
            (missing + Spare(w.cfg.resources, missing, d.extra) + w.rest.adds) % 10 == 0
  {
    PlanNeedsFile(w, d);
    CheckPassesExactly(w, d);
    hide Exec;
    CleanCounts(w, d);
    hide PlanCounts, OnlyAdds, Spare, Missing, Extra, Changed;
  }

  lemma PlanNeedsFile(w: World, d: Draw)
    requires d.works && Exec(w, TfPlan, d).1
    ensures w.file.Some?
  {
    hide PlanCounts;
  }

  lemma TenBetween(m: nat, spare: nat, most: nat, adds: nat)
    requires m + spare <= most && (m + spare + adds) % 10 == 0
    ensures RoundUp(m + adds) <= most + adds
  {
    RoundUpLeast(m + adds, m + spare + adds);
  }

  lemma PassedIsPassable(w: World, d: Draw)
    requires d.works && Exec(w, TfPlan, d).1
    ensures Passable(w)
  {
    hide RoundUp, Spare, MostAdditions, Missing;
    PlanNeedsFile(w, d);
    WorkingPlan(w, d);
    hide Exec, OnlyAdds;
    var missing := |Missing(Infra(w), Want(w))|;
    SpareBounds(w.cfg.resources, missing, d.extra);
    TenBetween(missing, Spare(w.cfg.resources, missing, d.extra), MostAdditions(w.cfg.resources, missing), w.rest.adds);
  }

  lemma NextTen(m: nat, most: nat, adds: nat) returns (a: nat)
    requires RoundUp(m + adds) <= most + adds
    ensures m <= a <= most && (a + adds) % 10 == 0
  {
    a := RoundUp(m + adds) - adds;
  }

  lemma PassableCanPass(w: World) returns (d: Draw)
    requires Passable(w)
    ensures d.works && Exec(w, TfPlan, d).1
  {
    hide Exec, PlanCounts, Spare, RoundUp, MostAdditions, Missing;
    var missing := |Missing(Infra(w), Want(w))|;
    var a := NextTen(missing, MostAdditions(w.cfg.resources, missing), w.rest.adds);
    SpareReaches(w.cfg.resources, missing, a);
    d := Draw(true, false, true, {}, {}, NOTHING, a - missing);
    CleanCounts(w, d);
    CheckPassesExactly(w, d);
  }

  lemma PlanStep(o: Outcome)
    ensures Quiet(o.world, Do(o, TfPlan).world)
    ensures Do(o, TfPlan).ok ==> o.ok
    ensures Do(o, TfPlan).ok && Heard(Do(o, TfPlan).world.log, |o.world.log|, TfPlan) ==> Passable(o.world)
  {
    if Do(o, TfPlan).ok && Heard(Do(o, TfPlan).world.log, |o.world.log|, TfPlan) {
      HeardWorked(o, TfPlan);
      PassedIsPassable(o.world, o.world.draws[0]);
    }
    hide PlanCounts, Passable;
  }

  lemma PassableQuiet(w: World, w': World)
    requires Quiet(w, w')
    ensures Passable(w) <==> Passable(w')
  {
    hide RoundUp, MostAdditions, Missing, Extra, Changed;
  }

  /** The check lets a command go on only in a world in which it can pass. */
  lemma PlanStage(o: Outcome) returns (o': Outcome)
    ensures o' == Run(o, PlanNoDiff())
    ensures o'.ok ==> o.ok
    ensures Quiet(o.world, o'.world)
    ensures o'.ok && Heard(o'.world.log, |o.world.log|, TfPlan) ==> Passable(o.world)
  {
    hide Exec, Do, Passable;
    assert PlanNoDiff() == [TfInit] + [TfPlan];
    Cons(o, TfInit, [TfPlan]);
    var a := Do(o, TfInit);
    One(a, TfPlan);
    o' := Do(a, TfPlan);
    InertStep(o, TfInit);
    PlanStep(a);
    PassableQuiet(o.world, a.world);
    if Heard(o'.world.log, |o.world.log|, TfPlan) {
      HeardPart(o'.world.log, o'.world.log, |o.world.log|, |a.world.log|, TfPlan);
    }
  }

  /******* Changing the map *******/

  /** `now` holds one machine more than `before`. */
  ghost predicate Grown(before: Fleet, now: Fleet, n: Name, m: Machine) {
    n !in before && now == before[n := m]
  }

  ghost predicate OnlyMem(w: World, w': World) {
    QuietButMem(w, w') && Other(w'.mem, w.cfg.clusterType) == Other(w.mem, w.cfg.clusterType)
  }

  lemma CheckStep(o: Outcome, step: Step)
    requires step.CheckSkew? || step.FindConfigured? || step.CheckCloneSkew?
    ensures var o' := Do(o, step);
            && (o'.ok && step.CheckSkew? ==> SkewOk(o.world.cfg, step.nodeType, step.image))
            && (o'.ok && step.FindConfigured? ==> step.name in Mem(o.world))
            && (o'.ok && step.CheckCloneSkew? ==>
                  step.name in Mem(o.world) && SkewOk(o.world.cfg, Mem(o.world)[step.name].nodeType, step.image))
  {}

  lemma AddStep(o: Outcome, n: Name, t: NodeType, size: string, i: string, settings: map<string, int>)
    ensures var o' := Do(o, MapAdd(n, t, size, i, settings));
            && OnlyMem(o.world, o'.world)
            && if o'.ok then o.ok && Grown(Mem(o.world), Mem(o'.world), n,
                Machine(t, size, ImageName(o.world.cfg, t, i), settings))
               else o'.world.mem == o.world.mem
  {}

  lemma AddStage(o: Outcome, n: Name, t: NodeType, size: string, i: string, settings: map<string, int>)
      returns (o': Outcome, m: Machine)
    ensures o' == Run(o, [Build(t, i), CheckSkew(t, i), MapAdd(n, t, size, i, settings)])
    ensures OnlyMem(o.world, o'.world)
    ensures m == Machine(t, size, ImageName(o.world.cfg, t, i), settings)
    ensures if o'.ok then o.ok && Grown(Mem(o.world), Mem(o'.world), n, m) && SkewOk(o.world.cfg, t, i)
            else o'.world.mem == o.world.mem
  {
    hide Exec, Do;
    var add := MapAdd(n, t, size, i, settings);
    assert [Build(t, i), CheckSkew(t, i), add] == [Build(t, i)] + ([CheckSkew(t, i)] + [add]);
    Cons(o, Build(t, i), [CheckSkew(t, i)] + [add]);
    var a := Do(o, Build(t, i));
    InertStep(o, Build(t, i));
    Cons(a, CheckSkew(t, i), [add]);
    var b := Do(a, CheckSkew(t, i));
    InertStep(a, CheckSkew(t, i));
    CheckStep(a, CheckSkew(t, i));
    One(b, add);
    o' := Do(b, add);
    AddStep(b, n, t, size, i, settings);
    m := Machine(t, size, ImageName(o.world.cfg, t, i), settings);
  }

  function CloneOf(cfg: Config, m: Machine, image: string): Machine {
    if image == "" then m else m.(image := ImageName(cfg, m.nodeType, image))
  }

  lemma CloneStep(o: Outcome, n: Name, i: string, cn: Name)
    ensures var o' := Do(o, MapClone(n, i, cn));
            && OnlyMem(o.world, o'.world)
            && if o'.ok then o.ok && n in Mem(o.world)
                && Grown(Mem(o.world), Mem(o'.world), cn, CloneOf(o.world.cfg, Mem(o.world)[n], i))
               else o'.world.mem == o.world.mem
  {}

  function CloneChecks(n: Name, i: string): seq<Step> {
    [FindConfigured(n)] + if i == "" then [] else [BuildClone(n, i), CheckCloneSkew(n, i)]
  }

  lemma CloneChecked(o: Outcome, n: Name, i: string) returns (b: Outcome)
    ensures b == Run(o, CloneChecks(n, i))
    ensures Quiet(o.world, b.world)
    ensures b.ok ==> o.ok
    ensures b.ok && i != "" ==> n in Mem(o.world) && SkewOk(o.world.cfg, Mem(o.world)[n].nodeType, i)
  {
    hide Exec, Do;
    InertRun(o, CloneChecks(n, i));
    b := Run(o, CloneChecks(n, i));
    if i != "" {
      var two := [FindConfigured(n), BuildClone(n, i)];
      assert CloneChecks(n, i) == two + [CheckCloneSkew(n, i)];
      RunAppend(o, two, [CheckCloneSkew(n, i)]);
      InertRun(o, two);
      One(Run(o, two), CheckCloneSkew(n, i));
      CheckStep(Run(o, two), CheckCloneSkew(n, i));
    }
  }

  lemma CloneStage(o: Outcome, n: Name, i: string, cn: Name) returns (o': Outcome)
    ensures o' == Run(o, CloneChecks(n, i) + [MapClone(n, i, cn)])
    ensures OnlyMem(o.world, o'.world)
    ensures if o'.ok then
              && o.ok && n in Mem(o.world)
              && Grown(Mem(o.world), Mem(o'.world), cn, CloneOf(o.world.cfg, Mem(o.world)[n], i))
              && (i != "" ==> SkewOk(o.world.cfg, Mem(o.world)[n].nodeType, i))
            else o'.world.mem == o.world.mem
  {
    hide Exec, Do, CloneChecks;
    RunAppend(o, CloneChecks(n, i), [MapClone(n, i, cn)]);
    var b := CloneChecked(o, n, i);
    One(b, MapClone(n, i, cn));
    o' := Do(b, MapClone(n, i, cn));
    CloneStep(b, n, i, cn);
  }

  /******* Applying *******/

  /** Every machine of `now` is as it was or as it should be, and one that should not change did not. */
  ghost predicate Between(have: Fleet, want: Fleet, now: Fleet) {
    && (forall n :: n in now ==> (n in have && now[n] == have[n]) || (n in want && now[n] == want[n]))
    && (forall n :: n in have && n in want && have[n] == want[n] ==> n in now && now[n] == have[n])
  }

  /** A failed apply can stop anywhere between what was and what should be, and nowhere else. */
  lemma PartlyAppliedExactly(have: Fleet, want: Fleet, now: Fleet)
    ensures Between(have, want, now) <==>
              exists done: set<Name>, gone: set<Name> :: PartlyApplied(have, want, done, gone) == now
  {
    if Between(have, want, now) {
      var done := (set n | n in now && n in want && now[n] == want[n]) + (set n | n in have && n !in want && n !in now);
      var gone := set n | n in have && n !in now;
      var f := PartlyApplied(have, want, done, gone);
      forall n ensures (n in f <==> n in now) && (n in f && n in now ==> f[n] == now[n]) {}
      assert f == now;
    }
  }

  /** A Terraform apply writes the machine map to the file and moves the infrastructure towards it;
      `ok` if it worked to the end. */
  ghost predicate Applied(w: World, w': World, ok: bool) {
    && w.log <= w'.log
    && w' == w.(file := w'.file, infra := w'.infra, rest := w'.rest, inventory := w'.inventory,
                kubelets := w'.kubelets, log := w'.log, draws := w'.draws)
    && Other(w'.infra, w.cfg.clusterType) == Other(w.infra, w.cfg.clusterType)
    && (w'.file == Some(w.mem) ||
          (!ok && w'.infra == w.infra && w'.rest == w.rest && w'.kubelets == w.kubelets
           && (w'.file == w.file || w'.file == None)))
    && Between(Infra(w), Mem(w), Infra(w'))
    && NoMore(w'.rest, w.rest)
    && w'.kubelets <= w.kubelets
    && (w.kubelets <= Infra(w).Keys ==> w'.kubelets <= Infra(w').Keys)
    && (ok ==> Infra(w') == Mem(w) && w'.rest == NOTHING)
  }

  lemma WriteStep(o: Outcome)
    ensures var o' := Do(o, WriteTFVars);
            && o.world.log <= o'.world.log
            && o'.world == o.world.(file := o'.world.file, log := o'.world.log, draws := o'.world.draws)
            && (o'.ok ==> o.ok && o'.world.file == Some(o.world.mem))
            && o'.world.file in {o.world.file, None, Some(o.world.mem)}
  {}

  lemma ApplyExec(w: World, d: Draw)
    requires w.file == Some(w.mem)
    ensures var w' := Exec(w, TfApply, d).0;
            Applied(w, w', d.works) && w'.inventory == w.inventory && w'.file == w.file
  {}

  /** A Terraform apply over a file that was just written. */
  lemma ApplyStep(o: Outcome)
    requires o.ok && o.world.file == Some(o.world.mem)
    ensures var o' := Do(o, TfApply);
            && Applied(o.world, o'.world, o'.ok && Heard(o'.world.log, |o.world.log|, TfApply))
            && o'.world.inventory == o.world.inventory && o'.world.file == o.world.file
  {
    var w, o' := o.world, Do(o, TfApply);
    if w.draws == [] {
      NotApplied(w, o'.world);
    } else {
      ApplyExec(w, w.draws[0]);
      ApplyLogged(o);
      if o'.ok && Heard(o'.world.log, |w.log|, TfApply) {
        HeardWorked(o, TfApply);
        ReportedWorks(w, w.draws[0]);
      }
    }
    hide Exec, Do, Between;
  }

  lemma ApplyLogged(o: Outcome)
    requires o.ok && o.world.draws != []
    ensures var w', o' := Exec(o.world, TfApply, o.world.draws[0]).0, Do(o, TfApply).world;
            o.world.log <= o'.log && o' == w'.(log := o'.log, draws := o'.draws)
  {}

  lemma ReportedWorks(w: World, d: Draw)
    requires Exec(w, TfApply, d).1 && !(!d.works && d.lost)
    ensures d.works
  {}

  lemma TailSteps(o: Outcome) returns (d: Outcome)
    ensures d == Run(o, [TfOutput, WriteInfraJSON, WriteInventory])
    ensures o.world.log <= d.world.log
    ensures d.world == o.world.(inventory := d.world.inventory, log := d.world.log, draws := d.world.draws)
    ensures d.ok ==> o.ok && d.world.inventory == Infra(o.world)
  {
    var two := [TfOutput, WriteInfraJSON];
    assert [TfOutput, WriteInfraJSON, WriteInventory] == two + [WriteInventory];
    hide Do;
    RunAppend(o, two, [WriteInventory]);
    InertRun(o, two);
    One(Run(o, two), WriteInventory);
    InventoryStep(Run(o, two));
    d := Do(Run(o, two), WriteInventory);
  }

  lemma InventoryStep(o: Outcome)
    ensures var d := Do(o, WriteInventory);
            && o.world.log <= d.world.log
            && d.world == o.world.(inventory := d.world.inventory, log := d.world.log, draws := d.world.draws)
            && (d.ok ==> o.ok && d.world.inventory == Infra(o.world))
  {}

  /** Nothing of a failed write or initialisation reaches the infrastructure. */
  lemma NotApplied(w: World, w': World)
    requires w.log <= w'.log
    requires w' == w.(file := w'.file, inventory := w'.inventory, log := w'.log, draws := w'.draws)
    requires w'.file in {w.file, None, Some(w.mem)}
    ensures Applied(w, w', false)
  {}

  lemma AppliedQuiet(w: World, b: World, c: World, d: World, ok: bool, ok': bool)
    requires w.log <= b.log && c.log <= d.log
    requires b == w.(file := b.file, log := b.log, draws := b.draws) && b.file == Some(w.mem)
    requires Applied(b, c, ok)
    requires d == c.(inventory := d.inventory, log := d.log, draws := d.draws)
    requires ok' ==> ok
    ensures Applied(w, d, ok')
  {}

  lemma ApplyStage(o: Outcome) returns (o': Outcome)
    ensures o' == Run(o, TerraformApply())
    ensures o'.ok ==> o.ok
    ensures if o.ok then Applied(o.world, o'.world, o'.ok && Heard(o'.world.log, |o.world.log|, TfApply)) else o' == o
    ensures o'.ok ==> o'.world.file == Some(o.world.mem) && o'.world.inventory == Infra(o'.world)
  {
    hide Exec, Do;
    var tail := [TfOutput, WriteInfraJSON, WriteInventory];
    assert TerraformApply() == [WriteTFVars] + ([TfInit] + ([TfApply] + tail));
    Cons(o, WriteTFVars, [TfInit] + ([TfApply] + tail));
    var a := Do(o, WriteTFVars);
    Cons(a, TfInit, [TfApply] + tail);
    var b := Do(a, TfInit);
    Cons(b, TfApply, tail);
    var c := Do(b, TfApply);
    if o.ok {
      WriteStep(o);
      InertStep(a, TfInit);
      o' := TailSteps(c);
      if b.ok {
        ApplyStep(b);
        if Heard(o'.world.log, |o.world.log|, TfApply) {
          HeardPart(c.world.log, o'.world.log, |o.world.log|, |b.world.log|, TfApply);
        }
        hide Applied, Heard;
        AppliedQuiet(o.world, b.world, c.world, o'.world, c.ok && Heard(c.world.log, |b.world.log|, TfApply),
                     o'.ok && Heard(o'.world.log, |o.world.log|, TfApply));
      } else {
        RunFailed(b, [TfApply] + tail);
        NotApplied(o.world, b.world);
      }
    } else {
      RunFailed(o, TerraformApply());
      o' := o;
    }
  }

  /******* Looking up, joining, resetting *******/

  lemma StateStage(o: Outcome, n: Name) returns (o': Outcome)
    ensures o' == Run(o, MachineState(n))
    ensures Quiet(o.world, o'.world)
    ensures o'.ok ==> o.ok && n in Infra(o.world)
  {
    hide Do;
    assert MachineState(n) == [TfInit, TfOutput] + [FindState(n)];
    RunAppend(o, [TfInit, TfOutput], [FindState(n)]);
    InertRun(o, [TfInit, TfOutput]);
    One(Run(o, [TfInit, TfOutput]), FindState(n));
    InertRun(o, MachineState(n));
    FoundStep(Run(o, [TfInit, TfOutput]), n);
    o' := Run(o, MachineState(n));
  }

  lemma FoundStep(o: Outcome, n: Name)
    ensures Do(o, FindState(n)).ok ==> n in Infra(o.world)
  {}

  /** Nodes joined: only hosts of the inventory, and if it worked all that held no kubelet.conf. */
  ghost predicate Joined(w: World, w': World, ok: bool) {
    && w.log <= w'.log
    && w' == w.(nodes := w'.nodes, kubelets := w'.kubelets, log := w'.log, draws := w'.draws)
    && w.nodes <= w'.nodes <= w.nodes + Joinable(w.inventory)
    && w.kubelets <= w'.kubelets <= w.kubelets + Joinable(w.inventory)
    && (ok ==> Joinable(w.inventory) - w.kubelets <= w'.nodes)
  }

  lemma JoinStep(o: Outcome, s: Step)
    requires s.JoinNodes? || s.DeployKubernetes?
    ensures Do(o, s).ok ==> o.ok
    ensures Joined(o.world, Do(o, s).world, Do(o, s).ok && Heard(Do(o, s).world.log, |o.world.log|, s))
  {
    if Do(o, s).ok && Heard(Do(o, s).world.log, |o.world.log|, s) { HeardWorked(o, s); }
  }

  lemma JoinedQuiet(w: World, a: World, b: World, w': World, ok: bool, ok': bool)
    requires Quiet(w, a) && Joined(a, b, ok) && Quiet(b, w') && (ok' ==> ok)
    ensures Joined(w, w', ok')
  {}

  /** Inert steps, a join, and inert steps again. */
  lemma JoinRun(o: Outcome, before: seq<Step>, s: Step, after: seq<Step>) returns (o': Outcome)
    requires (s.JoinNodes? || s.DeployKubernetes?) && forall x :: x in before || x in after ==> Inert(x)
    ensures o' == Run(o, before + ([s] + after))
    ensures o'.ok ==> o.ok
    ensures Joined(o.world, o'.world, o'.ok && Heard(o'.world.log, |o.world.log|, s))
  {
    hide Exec, Do;
    RunAppend(o, before, [s] + after);
    var a := Run(o, before);
    InertRun(o, before);
    Cons(a, s, after);
    JoinStep(a, s);
    var b := Do(a, s);
    InertRun(b, after);
    o' := Run(b, after);
    hide Run;
    if Heard(o'.world.log, |o.world.log|, s) { HeardPart(b.world.log, o'.world.log, |o.world.log|, |a.world.log|, s); }
    hide Heard;
    JoinedQuiet(o.world, a.world, b.world, o'.world, b.ok && Heard(b.world.log, |a.world.log|, s),
                o'.ok && Heard(o'.world.log, |o.world.log|, s));
  }

  lemma InertBalancer(cfg: Config)
    ensures forall s :: s in LoadBalancerUpdate(cfg) ==> Inert(s)
  {}

  lemma JoinShape(cfg: Config, n: Name)
    ensures JoinMachine(cfg, n)
         == TerraformApply() + (MachineState(n) + ([WaitSSH(n), PrepareNodes]
             + ([JoinNodes] + LoadBalancerUpdate(cfg))))
  {}

  /** `a` is the world right after the apply. */
  lemma JoinStage(o: Outcome, cfg: Config, n: Name) returns (a: Outcome, o': Outcome)
    ensures a == Run(o, TerraformApply()) && o' == Run(o, JoinMachine(cfg, n))
    ensures a.ok ==> o.ok && a.world.file == Some(a.world.mem) && a.world.inventory == Infra(a.world)
    ensures o'.ok ==> a.ok && n in Infra(a.world)
    ensures if o.ok then Applied(o.world, a.world, a.ok && Heard(a.world.log, |o.world.log|, TfApply)) else a == o
    ensures if a.ok then Joined(a.world, o'.world, o'.ok && Heard(o'.world.log, |a.world.log|, JoinNodes))
            else o' == a
  {
    JoinShape(cfg, n);
    InertBalancer(cfg);
    hide Exec, Do, JoinMachine, TerraformApply, MachineState, LoadBalancerUpdate, Run;
    var rest := [WaitSSH(n), PrepareNodes] + ([JoinNodes] + LoadBalancerUpdate(cfg));
    RunAppend(o, TerraformApply(), MachineState(n) + rest);
    a := ApplyStage(o);
    if !a.ok {
      RunFailed(a, MachineState(n) + rest);
      o' := a;
      return;
    }
    RunAppend(a, MachineState(n), rest);
    var b := StateStage(a, n);
    o' := JoinRun(b, [WaitSSH(n), PrepareNodes], JoinNodes, LoadBalancerUpdate(cfg));
    if Heard(o'.world.log, |a.world.log|, JoinNodes) {
      HeardPart(o'.world.log, o'.world.log, |a.world.log|, |b.world.log|, JoinNodes);
    }
    hide Heard, Applied;
    JoinedQuiet(a.world, b.world, o'.world, o'.world, o'.ok && Heard(o'.world.log, |b.world.log|, JoinNodes),
                o'.ok && Heard(o'.world.log, |a.world.log|, JoinNodes));
  }

  /** After a reset at most the named node and its kubelet.conf are gone; if it worked the node is. */
  ghost predicate WasReset(w: World, w': World, n: Name, ok: bool) {
    && w.log <= w'.log
    && w' == w.(nodes := w'.nodes, kubelets := w'.kubelets, log := w'.log, draws := w'.draws)
    && w.nodes - {n} <= w'.nodes <= w.nodes
    && w.kubelets - {n} <= w'.kubelets <= w.kubelets
    && (ok ==> n !in w'.nodes)
  }

  lemma SshResetStep(o: Outcome, n: Name)
    ensures var o' := Do(o, SshReset(n)); WasReset(o.world, o'.world, n, false) && (o'.ok ==> o.ok)
  {}

  lemma DeleteStep(o: Outcome, n: Name)
    ensures var o' := Do(o, DeleteNode(n));
            && WasReset(o.world, o'.world, n, o'.ok && Heard(o'.world.log, |o.world.log|, DeleteNode(n)))
            && (o'.ok ==> o.ok)
  {
    var o' := Do(o, DeleteNode(n));
    if o'.ok && Heard(o'.world.log, |o.world.log|, DeleteNode(n)) { HeardWorked(o, DeleteNode(n)); }
  }

  lemma ResetQuiet(w: World, a: World, b: World, w': World, n: Name, ok: bool, ok': bool)
    requires Quiet(w, a) && WasReset(a, b, n, false) && WasReset(b, w', n, ok) && (ok' ==> ok)
    ensures WasReset(w, w', n, ok')
  {}

  lemma ResetStage(o: Outcome, n: Name) returns (o': Outcome)
    ensures o' == Run(o, ResetNode(n))
    ensures o'.ok ==> o.ok && n in Infra(o.world)
    ensures WasReset(o.world, o'.world, n, o'.ok && Heard(o'.world.log, |o.world.log|, DeleteNode(n)))
  {
    hide Exec, Do;
    assert ResetNode(n) == MachineState(n) + ([SshReset(n)] + [DeleteNode(n)]);
    RunAppend(o, MachineState(n), [SshReset(n)] + [DeleteNode(n)]);
    var b := StateStage(o, n);
    Cons(b, SshReset(n), [DeleteNode(n)]);
    var c := Do(b, SshReset(n));
    SshResetStep(b, n);
    One(c, DeleteNode(n));
    hide Run;
    o' := Do(c, DeleteNode(n));
    DeleteStep(c, n);
    if Heard(o'.world.log, |o.world.log|, DeleteNode(n)) {
      HeardPart(o'.world.log, o'.world.log, |o.world.log|, |c.world.log|, DeleteNode(n));
    }
    hide Heard;
    ResetQuiet(o.world, b.world, c.world, o'.world, n, o'.ok && Heard(o'.world.log, |c.world.log|, DeleteNode(n)),
               o'.ok && Heard(o'.world.log, |o.world.log|, DeleteNode(n)));
  }

  /** Nothing but the last answer changed. */
  ghost predicate Asked(w: World, w': World) {
    w.log <= w'.log && w' == w.(seen := w'.seen, log := w'.log, draws := w'.draws)
  }

  lemma SeeSteps(o: Outcome, n: Name) returns (o': Outcome)
    ensures o' == Do(Do(o, GetNode(n)), DrainIfSeen(n))
    ensures Asked(o.world, o'.world)
    ensures o'.ok ==> o.ok
  {
    var a := Do(o, GetNode(n));
    assert Asked(o.world, a.world) && (a.ok ==> o.ok);
    hide Exec;
    InertStep(a, DrainIfSeen(n));
    o' := Do(a, DrainIfSeen(n));
  }

  lemma MapRemoveStep(o: Outcome, n: Name)
    ensures var o' := Do(o, MapRemove(n));
            && OnlyMem(o.world, o'.world)
            && (o'.ok ==> o.ok && Mem(o'.world) == Mem(o.world) - {n})
            && (!o'.ok ==> o'.world.mem == o.world.mem)
  {}

  lemma RemoveShape(cfg: Config, n: Name)
    ensures RemoveNode(cfg, n)
         == PlanNoDiff() + ([GetNode(n)] + ([DrainIfSeen(n)] +
            (ResetNode(n) + ([MapRemove(n)] + (TerraformApply() + LoadBalancerUpdate(cfg))))))
  {
    hide TerraformApply, PlanNoDiff, ResetNode, LoadBalancerUpdate;
  }

  /** The stages of a removal: checked, drained, reset, taken from the map, applied. */
  lemma RemoveStage(o: Outcome, cfg: Config, n: Name)
    returns (p: Outcome, s: Outcome, r: Outcome, m: Outcome, a: Outcome, o': Outcome)
    ensures p == Run(o, PlanNoDiff()) && o' == Run(o, RemoveNode(cfg, n))
    ensures p.ok ==> o.ok
    ensures s.ok ==> p.ok
    ensures r.ok ==> s.ok && n in Infra(s.world)
    ensures m.ok ==> r.ok
    ensures o'.ok ==> a.ok && m.ok
    ensures !p.ok ==> o' == p
    ensures Quiet(o.world, p.world)
    ensures p.ok && Heard(p.world.log, |o.world.log|, TfPlan) ==> Passable(o.world)
    ensures Asked(p.world, s.world)
    ensures WasReset(s.world, r.world, n, r.ok && Heard(r.world.log, |s.world.log|, DeleteNode(n)))
    ensures !r.ok ==> o' == r
    ensures OnlyMem(r.world, m.world)
    ensures m.ok ==> Mem(m.world) == Mem(r.world) - {n}
    ensures !m.ok ==> m.world.mem == r.world.mem && o' == m
    ensures m.ok ==> Applied(m.world, a.world, a.ok && Heard(a.world.log, |m.world.log|, TfApply))
    ensures m.ok ==> Quiet(a.world, o'.world)
    ensures m.ok && a.ok ==> a.world.file == Some(m.world.mem)
  {
    RemoveShape(cfg, n);
    InertBalancer(cfg);
    hide Exec, Do, RemoveNode, TerraformApply, PlanNoDiff, ResetNode, LoadBalancerUpdate, Run, Passable, Heard;
    var last := TerraformApply() + LoadBalancerUpdate(cfg);
    var rest := [GetNode(n)] + ([DrainIfSeen(n)] + (ResetNode(n) + ([MapRemove(n)] + last)));
    RunAppend(o, PlanNoDiff(), rest);
    p := PlanStage(o);
    if !p.ok { RunFailed(p, rest); }
    Cons(p, GetNode(n), [DrainIfSeen(n)] + (ResetNode(n) + ([MapRemove(n)] + last)));
    Cons(Do(p, GetNode(n)), DrainIfSeen(n), ResetNode(n) + ([MapRemove(n)] + last));
    s := SeeSteps(p, n);
    RunAppend(s, ResetNode(n), [MapRemove(n)] + last);
    r := ResetStage(s, n);
    Cons(r, MapRemove(n), last);
    m := Do(r, MapRemove(n));
    MapRemoveStep(r, n);
    RunAppend(m, TerraformApply(), LoadBalancerUpdate(cfg));
    a := ApplyStage(m);
    InertRun(a, LoadBalancerUpdate(cfg));
    o' := Run(a, LoadBalancerUpdate(cfg));
    hide WasReset, Applied;
    if !r.ok { RunFailed(r, [MapRemove(n)] + last); }
    if !m.ok { RunFailed(m, last); }
  }

  /******* Apply *******/

  function RemoteSteps(): seq<Step> { [RemoteInit, RemoteConfig, RemoteApply] }

  lemma ApplyShape(cfg: Config, order: seq<Name>)
    ensures ApplyAll(cfg, order)
         == RemoteSteps() + (TerraformApply() +
              (([TfInit, TfOutput] + WaitAll(order) + LoadBalancerUpdate(cfg))
                  + ([DeployKubernetes] + [EncryptKubeconfig])))
  {}

  lemma ApplyAllStage(o: Outcome, cfg: Config, order: seq<Name>) returns (f: Outcome, a: Outcome, o': Outcome)
    ensures o' == Run(o, ApplyAll(cfg, order))
    ensures Quiet(o.world, f.world) && (f.ok ==> o.ok)
    ensures a.ok ==> f.ok && a.world.file == Some(a.world.mem) && a.world.inventory == Infra(a.world)
    ensures o'.ok ==> a.ok
    ensures if f.ok then Applied(f.world, a.world, a.ok && Heard(a.world.log, |f.world.log|, TfApply)) else a == f
    ensures if a.ok then Joined(a.world, o'.world, o'.ok && Heard(o'.world.log, |a.world.log|, DeployKubernetes))
            else o' == a
  {
    ApplyShape(cfg, order);
    InertBalancer(cfg);
    hide Exec, Do;
    var before := [TfInit, TfOutput] + WaitAll(order) + LoadBalancerUpdate(cfg);
    var rest := before + ([DeployKubernetes] + [EncryptKubeconfig]);
    assert forall s :: s in before ==> Inert(s);
    InertRun(o, RemoteSteps());
    hide ApplyAll, TerraformApply, WaitAll, LoadBalancerUpdate, RemoteSteps, Run, Heard, Applied;
    RunAppend(o, RemoteSteps(), TerraformApply() + rest);
    f := Run(o, RemoteSteps());
    RunAppend(f, TerraformApply(), rest);
    a := ApplyStage(f);
    o' := JoinRun(a, before, DeployKubernetes, [EncryptKubeconfig]);
    if !a.ok { RunFailed(a, rest); }
  }
}
