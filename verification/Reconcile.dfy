/** Machine map, tfvars.json and Terraform state over all runs: when they agree, when a difference keeps
    commands from going on, and what no run ever touches. */
module Reconcile {
  import opened Fleet
  import opened Wrappers
  import opened Lifecycle
  import opened Stages
  import opened Images
  import PlanCheck

  /******* The other cluster *******/

  /** The other cluster's machines in memory, file and state. */
  ghost predicate OthersAre(w: World, configured: Fleet, provisioned: Fleet) {
    && Other(w.mem, w.cfg.clusterType) == configured
    && Other(w.infra, w.cfg.clusterType) == provisioned
    && (w.file.Some? ==> Other(w.file.value, w.cfg.clusterType) == configured)
  }

  lemma ExecKeepsOthers(w: World, s: Step, d: Draw, configured: Fleet, provisioned: Fleet)
    requires OthersAre(w, configured, provisioned)
    ensures OthersAre(Exec(w, s, d).0, configured, provisioned)
  {
    hide PlanCounts, PartlyApplied, Joinable, SkewOk, ImageName, PlanCheck.Accepted;
  }

  lemma StepKeepsOthers(o: Outcome, s: Step, configured: Fleet, provisioned: Fleet)
    requires OthersAre(o.world, configured, provisioned)
    ensures OthersAre(Do(o, s).world, configured, provisioned)
  {
    hide Exec;
    var step := if s.DrainIfSeen? then Drain(s.name) else s;
    if o.world.draws != [] { ExecKeepsOthers(o.world, step, o.world.draws[0], configured, provisioned); }
  }

  lemma {:induction false} RunKeepsOthers(o: Outcome, script: seq<Step>, configured: Fleet, provisioned: Fleet)
    requires OthersAre(o.world, configured, provisioned)
    ensures OthersAre(Run(o, script).world, configured, provisioned)
    decreases |script|
  {
    hide Do, OthersAre;
    if script != [] {
      StepKeepsOthers(o, script[0], configured, provisioned);
      RunKeepsOthers(Do(o, script[0]), script[1..], configured, provisioned);
    }
  }

  /** In file and state the other cluster's machines are what they were. */
  ghost predicate OthersKept(w: World, w': World) {
    && w'.cfg == w.cfg
    && Other(w'.infra, w.cfg.clusterType) == Other(w.infra, w.cfg.clusterType)
    && (w'.file.Some? ==>
          w.file.Some? && Other(w'.file.value, w.cfg.clusterType) == Other(w.file.value, w.cfg.clusterType))
  }

  lemma InvokeKeepsOthers(w: World, c: Command)
    ensures OthersKept(w, Invoke(w, c).world)
  {
    hide Exec, Do;
    var o := Split(w, c);
    RunGrows(o, Body(w.cfg, c));
    if o.ok {
      var configured, provisioned := Other(w.file.value, w.cfg.clusterType), Other(w.infra, w.cfg.clusterType);
      RunKeepsOthers(o, Body(w.cfg, c), configured, provisioned);
    }
  }

  /** Whatever commands run, from whatever world, and whatever fails: the other cluster's machines stay
      as they were in the file and in the Terraform state. */
  lemma {:induction false} OtherClusterUntouched(w: World, cs: seq<Command>)
    ensures OthersKept(w, InvokeAll(w, cs))
    decreases |cs|
  {
    hide Invoke;
    if cs != [] {
      InvokeKeepsOthers(w, cs[0]);
      OtherClusterUntouched(Invoke(w, cs[0]).world, cs[1..]);
    }
  }

  /******* What is due *******/

  /** Machines to be created or changed. */
  function Due(have: Fleet, want: Fleet): set<Name> { Missing(have, want) + Changed(have, want) }

  /** Creating what is due takes fewer than ten additions, and so does creating one machine. */
  ghost predicate Few(w: World) {
    && MostAdditions(w.cfg.resources, 1) < 10
    && (w.file.Some? ==> FewDue(w, Want(w)))
  }

  ghost predicate FewDue(w: World, want: Fleet) {
    MostAdditions(w.cfg.resources, |Due(Infra(w), want)|) + w.rest.adds < 10
  }

  lemma MoreAdditions(resources: nat, m: nat, n: nat)
    requires m <= n
    ensures MostAdditions(resources, m) <= MostAdditions(resources, n)
  {
    assert resources * m <= resources * n;
  }

  lemma NoTen(m: nat, most: nat, adds: nat)
    requires m <= most && most + adds < 10
    ensures RoundUp(m + adds) <= most + adds <==> m + adds == 0
  {}

  lemma MostIsMore(resources: nat, m: nat)
    ensures m <= MostAdditions(resources, m) && (m == 0 ==> MostAdditions(resources, m) == 0)
  {}

  /** With little due, only an empty plan passes. */
  lemma FewPassable(w: World)
    requires Few(w) && Passable(w)
    ensures Settled(w)
  {
    hide RoundUp, MostAdditions, Missing, Changed, Extra;
    var m := |Missing(Infra(w), Want(w))|;
    SubsetSize(Missing(Infra(w), Want(w)), Due(Infra(w), Want(w)));
    hide Due;
    MoreAdditions(w.cfg.resources, m, |Due(Infra(w), Want(w))|);
    MostIsMore(w.cfg.resources, m);
    NoTen(m, MostAdditions(w.cfg.resources, m), w.rest.adds);
    NothingToAdd(w);
  }

  lemma NothingToAdd(w: World)
    requires OnlyAdds(w) && |Missing(Infra(w), Want(w))| == 0 && w.rest.adds == 0
    ensures Settled(w)
  {
    NoDifference(Infra(w), Want(w));
    hide Missing, Extra, Changed;
  }

  /** Where nothing is to change or be destroyed, every provisioned machine is configured as it is. */
  lemma NothingElse(w: World)
    requires OnlyAdds(w)
    ensures forall k :: k in Infra(w) ==> k in Want(w) && Want(w)[k] == Infra(w)[k]
  {
    forall k | k in Infra(w) ensures k in Want(w) && Want(w)[k] == Infra(w)[k] {
      assert k !in Extra(Infra(w), Want(w)) && k !in Changed(Infra(w), Want(w));
    }
  }

  /******* Applying *******/

  lemma AppliedParts(w: World, w': World, ok: bool)
    requires Applied(w, w', ok)
    ensures w.log <= w'.log && w'.cfg == w.cfg && w'.mem == w.mem && w'.nodes == w.nodes
    ensures w'.file == w.file || w'.file == None || w'.file == Some(w.mem)
    ensures w'.file == Some(w.mem) || (Infra(w') == Infra(w) && w'.rest == w.rest)
    ensures Between(Infra(w), Mem(w), Infra(w')) && NoMore(w'.rest, w.rest)
    ensures w'.kubelets <= w.kubelets
    ensures w.kubelets <= Infra(w).Keys ==> w'.kubelets <= Infra(w').Keys
    ensures ok ==> Infra(w') == Mem(w) && w'.rest == NOTHING
  {}

  lemma DueShrinks(have: Fleet, want: Fleet, now: Fleet)
    requires Between(have, want, now)
    ensures |Due(now, want)| <= |Due(have, want)|
  {
    assert Due(now, want) <= Due(have, want);
    hide Due;
    SubsetSize(Due(now, want), Due(have, want));
  }

  /** Nothing becomes due that was not: a machine once created or changed stays, and only what the file
      asks for anew is added. */
  lemma ApplyDue(w: World, w': World, ok: bool)
    requires Applied(w, w', ok) && Few(w) && FewDue(w, Mem(w))
    ensures Few(w')
  {
    hide MostAdditions, Due, Between;
    AppliedParts(w, w', ok);
    hide Applied;
    if w'.file == Some(w.mem) {
      DueShrinks(Infra(w), Mem(w), Infra(w'));
      MoreAdditions(w.cfg.resources, |Due(Infra(w'), Mem(w))|, |Due(Infra(w), Mem(w))|);
    }
  }

  lemma JoinedParts(w: World, w': World, ok: bool)
    requires Joined(w, w', ok)
    ensures w.log <= w'.log
    ensures w'.cfg == w.cfg && w'.mem == w.mem && w'.file == w.file && w'.infra == w.infra && w'.rest == w.rest
    ensures w.nodes <= w'.nodes
    ensures ok ==> Joinable(w.inventory) - w.kubelets <= w'.nodes
    ensures Few(w) ==> Few(w')
  {
    hide MostAdditions, Due;
  }

  /******* One machine more *******/

  /** The first half of add, clone and replace: either it stops with at most the map changed,
      or the map gained one machine, and the check could pass unless its exit code was lost. */
  ghost predicate Gained(w: World, o: Outcome, n: Name, x: Machine) {
    && OnlyMem(w, o.world)
    && (if o.ok then Grown(Mem(w), Mem(o.world), n, x) else o.world.mem == w.mem)
    && (o.ok && Heard(o.world.log, |w.log|, TfPlan) ==> Passable(w))
  }

  lemma HeardSoFar(w: World, p: World, w': World, s: Step)
    requires w.log <= p.log <= w'.log && Heard(w'.log, |w.log|, s)
    ensures Heard(p.log, |w.log|, s)
  {
    HeardPart(p.log, w'.log, |w.log|, |w.log|, s);
  }

  lemma AddGains(o: Outcome, n: Name, t: NodeType, size: string, i: string, settings: map<string, int>)
      returns (o': Outcome, x: Machine)
    requires o.ok
    ensures o' == Run(o, AddMachine(n, t, size, i, settings))
    ensures Gained(o.world, o', n, x)
    ensures o'.ok ==> x == Machine(t, size, ImageName(o.world.cfg, t, i), settings) && SkewOk(o.world.cfg, t, i)
  {
    hide Exec, Do, Passable;
    var rest := [Build(t, i), CheckSkew(t, i), MapAdd(n, t, size, i, settings)];
    RunAppend(o, PlanNoDiff(), rest);
    var p := PlanStage(o);
    o', x := AddStage(p, n, t, size, i, settings);
    hide Run;
    if Heard(o'.world.log, |o.world.log|, TfPlan) { HeardSoFar(o.world, p.world, o'.world, TfPlan); }
  }

  lemma CloneGains(o: Outcome, n: Name, i: string, cn: Name) returns (o': Outcome, x: Machine)
    requires o.ok
    ensures o' == Run(o, CloneMachine(n, i, cn))
    ensures Gained(o.world, o', cn, x)
    ensures o'.ok ==> n in Mem(o.world) && x == CloneOf(o.world.cfg, Mem(o.world)[n], i)
    ensures o'.ok && i != "" ==> SkewOk(o.world.cfg, Mem(o.world)[n].nodeType, i)
  {
    hide Exec, Do, Passable;
    assert CloneMachine(n, i, cn) == PlanNoDiff() + (CloneChecks(n, i) + [MapClone(n, i, cn)]);
    hide CloneChecks, CloneMachine;
    RunAppend(o, PlanNoDiff(), CloneChecks(n, i) + [MapClone(n, i, cn)]);
    var p := PlanStage(o);
    o' := CloneStage(p, n, i, cn);
    x := if o'.ok then CloneOf(o.world.cfg, Mem(o.world)[n], i) else Machine(Master, "", "", map[]);
    hide Run;
    if Heard(o'.world.log, |o.world.log|, TfPlan) { HeardSoFar(o.world, p.world, o'.world, TfPlan); }
  }

  lemma GrownFew(w: World, g: World, n: Name, x: Machine)
    requires w.file == Some(w.mem) && OnlyMem(w, g) && Grown(Mem(w), Mem(g), n, x) && Passable(w) && Few(w)
    ensures Few(g) && FewDue(g, Mem(g))
  {
    FewPassable(w);
    assert Due(Infra(g), Mem(g)) <= {n};
    SubsetSize(Due(Infra(g), Mem(g)), {n});
    MoreAdditions(w.cfg.resources, |Due(Infra(g), Mem(g))|, 1);
    MemIrrelevant(w, g);
    hide Due, Passable, MostAdditions;
  }

  /** Map, file and Terraform state are equal and nothing else is to do. */
  ghost predicate Agreed(w: World) {
    w.file == Some(w.mem) && Infra(w) == Mem(w) && w.rest == NOTHING
  }

  /** Machine `k` of the first world is provisioned in the second as it was. */
  ghost predicate Stays(w: World, w': World, k: Name) {
    k in Infra(w) && k in Infra(w') && Infra(w')[k] == Infra(w)[k]
  }

  /** Machines configured as they are. */
  ghost predicate Alike(w: World, k: Name) {
    k in Infra(w) && k in Mem(w) && Mem(w)[k] == Infra(w)[k]
  }

  /** What the apply after a gain keeps, whatever it got done. */
  lemma GainStays(r: World, g: World, a: World, n: Name, x: Machine, ok: bool)
    requires r.file == Some(r.mem) && OnlyMem(r, g) && Grown(Mem(r), Mem(g), n, x) && Applied(g, a, ok)
    ensures forall k :: Alike(r, k) ==> Stays(r, a, k)
    ensures n !in Infra(r) && n in Infra(a) ==> Infra(a)[n] == x
    ensures Settled(r) && n in Infra(a) ==> Infra(a) == Mem(g) && a.rest == NOTHING
    ensures ok ==> Infra(a) == Mem(g) && a.rest == NOTHING
  {
    AppliedParts(g, a, ok);
    hide Applied;
  }

  lemma GainFew(r: World, g: World, a: World, w': World, n: Name, x: Machine, ok: bool, joined: bool)
    requires r.file == Some(r.mem) && OnlyMem(r, g) && Grown(Mem(r), Mem(g), n, x) && Applied(g, a, ok)
    requires Few(r) && Passable(r) && (w' == a || Joined(a, w', joined))
    ensures Few(w')
  {
    hide Few, Applied, Passable, Joined, Grown;
    GrownFew(r, g, n, x);
    ApplyDue(g, a, ok);
    if w' != a { JoinedParts(a, w', joined); }
  }

  /** Joining the machine the map gained; `r` is the world after the configuration was read. */
  lemma JoinAfterGain(r: Outcome, g: Outcome, cfg: Config, n: Name, x: Machine) returns (o': Outcome)
    requires r.ok && r.world.file == Some(r.world.mem) && Gained(r.world, g, n, x)
    ensures o' == Run(g, JoinMachine(cfg, n))
    ensures r.world.log <= g.world.log <= o'.world.log
    ensures o'.world.mem == g.world.mem && o'.world.cfg == r.world.cfg
    ensures !g.ok ==> o' == g
    ensures o'.ok ==> g.ok && o'.world.file == Some(o'.world.mem) && n in Infra(o'.world)
    ensures o'.ok && (Settled(r.world) || Heard(o'.world.log, |g.world.log|, TfApply)) ==> Agreed(o'.world)
    ensures Few(r.world) && Heard(o'.world.log, |r.world.log|, TfPlan) ==> Few(o'.world)
    ensures r.world.nodes <= o'.world.nodes
    ensures forall k :: Alike(r.world, k) ==> Stays(r.world, o'.world, k)
    ensures o'.ok && n !in Infra(r.world) ==>
              && Infra(o'.world)[n] == x
              && (x.nodeType != LoadBalancer && n !in r.world.kubelets ==>
                    Heard(o'.world.log, |g.world.log|, JoinNodes) ==> n in o'.world.nodes)
  {
    hide Exec, Do, Run, Passable, Few, Heard;
    if !g.ok {
      RunFailed(g, JoinMachine(cfg, n));
      o' := g;
      MemIrrelevant(r.world, g.world);
      return;
    }
    var a;
    a, o' := JoinStage(g, cfg, n);
    var heard, joined := a.ok && Heard(a.world.log, |g.world.log|, TfApply), false;
    GainStays(r.world, g.world, a.world, n, x, heard);
    AppliedParts(g.world, a.world, heard);
    if a.ok {
      joined := o'.ok && Heard(o'.world.log, |a.world.log|, JoinNodes);
      JoinedParts(a.world, o'.world, joined);
    }
    if Heard(o'.world.log, |r.world.log|, TfPlan) { HeardSoFar(r.world, g.world, o'.world, TfPlan); }
    if Few(r.world) && Heard(o'.world.log, |r.world.log|, TfPlan) {
      GainFew(r.world, g.world, a.world, o'.world, n, x, heard, joined);
    }
    if Heard(o'.world.log, |g.world.log|, TfApply) { HeardSoFar(g.world, a.world, o'.world, TfApply); }
    if Heard(o'.world.log, |g.world.log|, JoinNodes) { HeardLater(g.world, a.world, o'.world, JoinNodes); }
    hide Applied, Joined, Grown;
  }

  lemma MemIrrelevant(w: World, w': World)
    requires QuietButMem(w, w')
    ensures Few(w) <==> Few(w')
    ensures Settled(w) <==> Settled(w')
    ensures Passable(w) <==> Passable(w')
  {
    hide MostAdditions, RoundUp, Missing, Extra, Changed;
  }

  /******* One machine less *******/

  lemma ResetParts(p: World, s: World, r: World, n: Name, ok: bool)
    requires Asked(p, s) && WasReset(s, r, n, ok)
    ensures p.log <= r.log
    ensures r.cfg == p.cfg && r.mem == p.mem && r.file == p.file && r.infra == p.infra && r.rest == p.rest
    ensures p.nodes - {n} <= r.nodes <= p.nodes && (ok ==> n !in r.nodes)
    ensures Few(p) ==> Few(r)
  {
    hide MostAdditions, Due;
  }

  lemma ShrunkFew(w: World, m: World, n: Name)
    requires w.file == Some(w.mem) && OnlyMem(w, m) && Mem(m) == Mem(w) - {n} && Few(w)
    ensures Few(m) && FewDue(m, Mem(m))
  {
    MemIrrelevant(w, m);
    hide MostAdditions;
    DueOfFewer(Infra(w), Mem(w), n);
    hide Due;
    MoreAdditions(w.cfg.resources, |Due(Infra(m), Mem(m))|, |Due(Infra(w), Mem(w))|);
  }

  lemma DueOfFewer(have: Fleet, want: Fleet, n: Name)
    ensures |Due(have, want - {n})| <= |Due(have, want)|
  {
    assert Due(have, want - {n}) <= Due(have, want);
    hide Due;
    SubsetSize(Due(have, want - {n}), Due(have, want));
  }

  lemma LessDue(r: World, m: World, a: World, n: Name, ok: bool)
    requires r.file == Some(r.mem) && OnlyMem(r, m) && Mem(m) == Mem(r) - {n} && Few(r) && Applied(m, a, ok)
    ensures Few(a)
  {
    hide Few, Applied;
    ShrunkFew(r, m, n);
    ApplyDue(m, a, ok);
  }

  /** A removal touches no machine but the named one, and stops at once where the check cannot pass, unless
      the check's exit code was lost. */
  lemma RemoveKeeps(o: Outcome, cfg: Config, n: Name) returns (o': Outcome)
    requires o.ok && o.world.file == Some(o.world.mem)
    ensures o' == Run(o, RemoveNode(cfg, n))
    ensures o.world.log <= o'.world.log && o'.world.cfg == o.world.cfg
    ensures Mem(o'.world) == Mem(o.world) || Mem(o'.world) == Mem(o.world) - {n}
    ensures o'.ok ==> Mem(o'.world) == Mem(o.world) - {n} && n in Infra(o.world)
    ensures o'.ok ==> o'.world.file == Some(o'.world.mem)
    ensures o.world.nodes - {n} <= o'.world.nodes <= o.world.nodes
    ensures forall k :: k != n && Alike(o.world, k) ==> Stays(o.world, o'.world, k)
    ensures o'.ok && Heard(o'.world.log, |o.world.log|, TfApply) ==> Agreed(o'.world)
    ensures o'.ok && Settled(o.world) ==> (Agreed(o'.world) <==> n !in Infra(o'.world))
    ensures Few(o.world) ==> Few(o'.world)
    ensures !Passable(o.world) && Heard(o'.world.log, |o.world.log|, TfPlan) ==> !o'.ok && Quiet(o.world, o'.world)
  {
    hide Exec, Do, Run, Passable, Few, Heard;
    var p, s, r, m, a;
    p, s, r, m, a, o' := RemoveStage(o, cfg, n);
    MemIrrelevant(o.world, p.world);
    if !p.ok { return; }
    var heard := a.ok && Heard(a.world.log, |m.world.log|, TfApply);
    ResetParts(p.world, s.world, r.world, n, r.ok && Heard(r.world.log, |s.world.log|, DeleteNode(n)));
    MemIrrelevant(r.world, m.world);
    if m.ok {
      AppliedParts(m.world, a.world, heard);
      if Few(o.world) { LessDue(r.world, m.world, a.world, n, heard); }
      MemIrrelevant(a.world, o'.world);
      if Heard(o'.world.log, |o.world.log|, TfApply) {
        HeardPart(a.world.log, o'.world.log, |o.world.log|, |m.world.log|, TfApply);
      }
    }
    if Heard(o'.world.log, |o.world.log|, TfPlan) { HeardSoFar(o.world, p.world, o'.world, TfPlan); }
    hide Applied, WasReset;
    if o'.ok && Settled(o.world) { OneLingers(Infra(o.world), n, Infra(o'.world)); }
  }

  /** An apply that is to destroy one machine either did so or did nothing. */
  lemma OneLingers(have: Fleet, n: Name, now: Fleet)
    requires Between(have, have - {n}, now)
    ensures now == have - {n} <==> n !in now
  {}

  /******* Commands *******/

  lemma Split(w: World, c: Command) returns (o: Outcome)
    ensures o == Run(Outcome(w, true), [ReadConfig])
    ensures Invoke(w, c) == Run(o, Body(w.cfg, c))
    ensures QuietButMem(w, o.world)
    ensures if o.ok then w.file.Some? && o.world.mem == w.file.value else o.world.mem == w.mem && Invoke(w, c) == o
  {
    o := ReadStage(w);
    hide Exec, Do;
    RunAppend(Outcome(w, true), [ReadConfig], Body(w.cfg, c));
    if !o.ok { RunFailed(o, Body(w.cfg, c)); }
  }

  /** Nothing but log, draws and the process's own memory changed, and the command failed. */
  ghost predicate Stopped(w: World, o: Outcome) {
    !o.ok && QuietButMem(w, o.world)
  }

  /** The commands that check for pending changes first. */
  predicate Checks(c: Command) { c.Add? || c.Clone? || c.Remove? || c.Replace? }

  /** What a replacement does before it removes the old machine. */
  function FirstHalf(cfg: Config, c: Command): seq<Step>
    requires c.Replace?
  {
    [ReadConfig] + (CloneMachine(c.name, c.image, c.cloneName) + JoinMachine(cfg, c.cloneName))
  }

  /** Where in the log the part of the command with its last apply begins. */
  function LastPart(w: World, c: Command): nat {
    if c.Replace? then |Run(Outcome(w, true), FirstHalf(w.cfg, c)).world.log| else |w.log|
  }

  /** What every command that changes the configuration comes to. */
  ghost predicate Regular(w: World, c: Command, o: Outcome) {
    && w.log <= o.world.log
    && (o.ok && Heard(o.world.log, LastPart(w, c), TfApply) ==> Agreed(o.world))
    && (Few(w) && Heard(o.world.log, |w.log|, TfPlan) ==> Few(o.world))
    && (!Passable(w) && Checks(c) && Heard(o.world.log, |w.log|, TfPlan) ==> Stopped(w, o))
  }

  /** What a success comes to where nothing was pending before. */
  ghost predicate FromSettled(w: World, c: Command, o: Outcome) {
    Settled(w) && o.ok && Checks(c) ==> (Agreed(o.world) <==> (c.Remove? || c.Replace? ==> c.name !in Infra(o.world)))
  }

  lemma HeardLater(w: World, r: World, w': World, s: Step)
    requires w.log <= r.log && Heard(w'.log, |w.log|, s)
    ensures Heard(w'.log, |r.log|, s)
  {
    HeardPart(w'.log, w'.log, |w.log|, |r.log|, s);
  }

  lemma InvokeGains(w: World, c: Command) returns (o: Outcome)
    requires c.Add? || c.Clone?
    ensures o == Invoke(w, c) && Regular(w, c, o) && FromSettled(w, c, o)
  {
    hide Exec, Do, Few, Passable, Heard;
    var r := Split(w, c);
    MemIrrelevant(w, r.world);
    o := r;
    if r.ok {
      var n := if c.Add? then c.name else c.cloneName;
      var first := if c.Add? then AddMachine(c.name, c.nodeType, c.size, c.image, c.settings)
                   else CloneMachine(c.name, c.image, c.cloneName);
      RunAppend(r, first, JoinMachine(w.cfg, n));
      hide Run;
      var g, x;
      if c.Add? {
        g, x := AddGains(r, c.name, c.nodeType, c.size, c.image, c.settings);
      } else {
        g, x := CloneGains(r, c.name, c.image, c.cloneName);
      }
      o := JoinAfterGain(r, g, w.cfg, n, x);
      assert o == Invoke(w, c);
      HeardInJoin(w, r.world, g.world, o.world);
    }
    hide Run, Invoke;
  }

  lemma HeardInJoin(w: World, r: World, g: World, w': World)
    requires w.log <= r.log <= g.log <= w'.log
    ensures Heard(w'.log, |w.log|, TfApply) ==> Heard(w'.log, |g.log|, TfApply)
    ensures Heard(w'.log, |w.log|, TfPlan) ==> Heard(w'.log, |r.log|, TfPlan) && Heard(g.log, |r.log|, TfPlan)
  {
    if Heard(w'.log, |w.log|, TfApply) { HeardLater(w, g, w', TfApply); }
    if Heard(w'.log, |w.log|, TfPlan) {
      HeardLater(w, r, w', TfPlan);
      HeardSoFar(r, g, w', TfPlan);
    }
  }

  lemma InvokeRemove(w: World, c: Command) returns (o: Outcome)
    requires c.Remove?
    ensures o == Invoke(w, c) && Regular(w, c, o) && FromSettled(w, c, o)
  {
    hide Run, Exec, Do, Few, Passable, Heard;
    var r := Split(w, c);
    MemIrrelevant(w, r.world);
    o := r;
    if r.ok {
      o := RemoveKeeps(r, w.cfg, c.name);
      HeardInJoin(w, r.world, r.world, o.world);
    }
  }

  /** The halves of a replacement: `j` is the world after the clone was joined. */
  lemma ReplaceHalves(w: World, c: Command) returns (r: Outcome, g: Outcome, j: Outcome, o: Outcome, x: Machine)
    requires c.Replace?
    ensures r == Run(Outcome(w, true), [ReadConfig]) && QuietButMem(w, r.world)
    ensures if r.ok then w.file.Some? && r.world.mem == w.file.value else r.world.mem == w.mem && g == j == r
    ensures r.ok ==> Gained(r.world, g, c.cloneName, x) && j == Run(g, JoinMachine(w.cfg, c.cloneName))
    ensures r.ok && g.ok ==> c.name in Mem(r.world) && x == CloneOf(w.cfg, Mem(r.world)[c.name], c.image)
    ensures j == Run(Outcome(w, true), FirstHalf(w.cfg, c))
    ensures o == Invoke(w, c) && o == if j.ok then Run(j, RemoveNode(w.cfg, c.name)) else j
  {
    hide Exec, Do, Passable, Heard;
    r := Split(w, c);
    var clone, join := CloneMachine(c.name, c.image, c.cloneName), JoinMachine(w.cfg, c.cloneName);
    RunAppend(r, clone + join, RemoveNode(w.cfg, c.name));
    RunAppend(Outcome(w, true), [ReadConfig], clone + join);
    RunAppend(r, clone, join);
    hide Run;
    g := Run(r, clone);
    j := Run(g, join);
    o := Run(j, RemoveNode(w.cfg, c.name));
    x := Machine(Master, "", "", map[]);
    if r.ok {
      g, x := CloneGains(r, c.name, c.image, c.cloneName);
    } else {
      RunFailed(r, clone);
      RunFailed(r, join);
    }
    if !j.ok { RunFailed(j, RemoveNode(w.cfg, c.name)); }
  }

  lemma InvokeReplace(w: World, c: Command) returns (o: Outcome)
    requires c.Replace?
    ensures o == Invoke(w, c) && Regular(w, c, o) && FromSettled(w, c, o)
  {
    hide Exec, Do, Few, Passable, Heard, Run, Invoke;
    var r, g, j, x;
    r, g, j, o, x := ReplaceHalves(w, c);
    MemIrrelevant(w, r.world);
    if r.ok {
      j := JoinAfterGain(r, g, w.cfg, c.cloneName, x);
      if j.ok { o := RemoveKeeps(j, w.cfg, c.name); }
      HeardInJoin(w, r.world, g.world, o.world);
      if Heard(o.world.log, |w.log|, TfPlan) { HeardSoFar(r.world, j.world, o.world, TfPlan); }
    }
  }

  lemma InvokeApply(w: World, c: Command) returns (o: Outcome)
    requires c.Apply?
    ensures o == Invoke(w, c) && Regular(w, c, o) && FromSettled(w, c, o)
  {
    hide Run, Exec, Do, Few, Passable, Heard;
    var r := Split(w, c);
    MemIrrelevant(w, r.world);
    o := r;
    if r.ok {
      var f, a;
      f, a, o := ApplyAllStage(r, w.cfg, c.order);
      MemIrrelevant(r.world, f.world);
      if f.ok {
        AppliedParts(f.world, a.world, a.ok && Heard(a.world.log, |f.world.log|, TfApply));
        if Few(w) {
          assert FewDue(f.world, Mem(f.world)) by { FewMeans(f.world); }
          ApplyDue(f.world, a.world, a.ok && Heard(a.world.log, |f.world.log|, TfApply));
        }
        if a.ok {
          JoinedParts(a.world, o.world, o.ok && Heard(o.world.log, |a.world.log|, DeployKubernetes));
        }
        hide Applied, Joined;
        if Heard(o.world.log, |w.log|, TfApply) {
          HeardPart(a.world.log, o.world.log, |w.log|, |f.world.log|, TfApply);
        }
      }
    }
  }

  lemma FewMeans(w: World)
    requires Few(w) && w.file.Some?
    ensures FewDue(w, Want(w))
  {}

  lemma InvokeOther(w: World, c: Command) returns (o: Outcome)
    requires c.DrainOnly? || c.Reset?
    ensures o == Invoke(w, c)
    ensures o.world.file == w.file && o.world.infra == w.infra && o.world.rest == w.rest && o.world.cfg == w.cfg
  {
    hide Run, Exec, Do;
    o := Split(w, c);
    if o.ok {
      if c.DrainOnly? {
        InertRun(o, [Drain(c.name)]);
        o := Run(o, [Drain(c.name)]);
      } else {
        o := ResetStage(o, c.name);
      }
    }
  }

  lemma InvokeRegular(w: World, c: Command)
    requires !c.DrainOnly? && !c.Reset?
    ensures Regular(w, c, Invoke(w, c)) && FromSettled(w, c, Invoke(w, c))
  {
    hide Invoke, Run, Regular, FromSettled;
    match c
    case Add(_, _, _, _, _) => var o := InvokeGains(w, c);
    case Clone(_, _, _) => var o := InvokeGains(w, c);
    case Remove(_) => var o := InvokeRemove(w, c);
    case Replace(_, _, _) => var o := InvokeReplace(w, c);
    case Apply(_) => var o := InvokeApply(w, c);
  }

  /******* Main results *******/

  /** From any world, a command that changes the configuration and succeeds ends with map, file and
      Terraform state equal and nothing left to do, unless the exit code of its last apply was lost. */
  lemma SuccessReconciles(w: World, c: Command)
    requires !c.DrainOnly? && !c.Reset? && Invoke(w, c).ok
    requires Heard(Invoke(w, c).world.log, LastPart(w, c), TfApply)
    ensures Agreed(Invoke(w, c).world)
  {
    hide Invoke, LastPart;
    InvokeRegular(w, c);
  }

  /** A successful add puts a machine of the type, size, image and settings asked for into map and file under the
      name asked for, with the type's latest image if none is named; it is in the Terraform state, and as
      configured there unless something of that name was there before. */
  lemma AddedAsAsked(w: World, n: Name, t: NodeType, size: string, i: string, settings: map<string, int>)
    requires Invoke(w, Add(n, t, size, i, settings)).ok
    ensures w.file.Some? && t in w.cfg.images && w.cfg.images[t] != []
    ensures i != "" ==> exists x :: x in w.cfg.images[t] && x.name == i
    ensures var w' := Invoke(w, Add(n, t, size, i, settings)).world;
            var x := Machine(t, size, if i == "" then w.cfg.images[t][|w.cfg.images[t]| - 1].name else i, settings);
            && n !in Want(w) && w'.cfg == w.cfg && w'.file == Some(w'.mem) && Mem(w') == Want(w)[n := x]
            && n in Infra(w') && (n !in Infra(w) ==> Infra(w')[n] == x)
  {
    hide Exec, Do, Few, Passable, Heard, SkewOk, ImageName;
    var c := Add(n, t, size, i, settings);
    var r := Split(w, c);
    RunAppend(r, AddMachine(n, t, size, i, settings), JoinMachine(w.cfg, n));
    hide Run;
    var g, x := AddGains(r, n, t, size, i, settings);
    var o := JoinAfterGain(r, g, w.cfg, n, x);
    AskedImage(w.cfg, t, i);
  }

  lemma AskedImage(cfg: Config, t: NodeType, i: string)
    requires SkewOk(cfg, t, i)
    ensures t in cfg.images && cfg.images[t] != []
    ensures i != "" ==> exists x :: x in cfg.images[t] && x.name == i
    ensures ImageName(cfg, t, i) == if i == "" then cfg.images[t][|cfg.images[t]| - 1].name else i
  {
    if i != "" { var r := Lookup(cfg.images[t], i); }
  }

  /** From a settled world, whatever exit codes get lost: a successful add or clone always ends with all of
      them equal, and a successful removal or replacement exactly if the old machine is gone from the state. */
  lemma SettledReconciles(w: World, c: Command)
    requires Settled(w) && Checks(c) && Invoke(w, c).ok
    ensures c.Add? || c.Clone? ==> Agreed(Invoke(w, c).world)
    ensures c.Remove? || c.Replace? ==> (Agreed(Invoke(w, c).world) <==> c.name !in Infra(Invoke(w, c).world))
  {
    hide Invoke, LastPart, Settled;
    InvokeRegular(w, c);
  }

  /** From any world, unless the plan can print the phrase or its exit code was lost, adding, cloning,
      removing and replacing stop before changing anything. */
  lemma PendingStops(w: World, c: Command)
    requires !Passable(w) && Checks(c) && Heard(Invoke(w, c).world.log, |w.log|, TfPlan)
    ensures Stopped(w, Invoke(w, c))
  {
    hide Invoke, Passable;
    InvokeRegular(w, c);
  }

  /** From such a world the commands get past their check exactly if the configuration is read, the
      initialisation reports success, and the plan fails with its exit code lost. */
  lemma PastTheCheckExactly(w: World)
    requires !Passable(w)
    ensures Run(Outcome(w, true), [ReadConfig] + PlanNoDiff()).ok <==>
              && |w.draws| >= 3 && w.draws[0].works && w.file.Some? && Reports(w.draws[1])
              && !w.draws[2].works && w.draws[2].lost
  {
    var o := Outcome(w, true);
    assert [ReadConfig] + PlanNoDiff() == [ReadConfig] + ([TfInit] + [TfPlan]);
    var a := Do(o, ReadConfig);
    var b := Do(a, TfInit);
    ReadAnswer(o);
    InitAnswer(a);
    PlanAnswered(b);
    hide Exec, Do;
    Cons(o, ReadConfig, [TfInit] + [TfPlan]);
    Cons(a, TfInit, [TfPlan]);
    One(b, TfPlan);
    hide Run;
    if b.ok {
      MemIrrelevant(w, b.world);
      if b.world.draws != [] && Exec(b.world, TfPlan, b.world.draws[0]).1 && b.world.draws[0].works {
        PassedIsPassable(b.world, b.world.draws[0]);
      }
      if b.world.draws != [] && !b.world.draws[0].works { LostPlan(b.world, b.world.draws[0]); }
    }
  }

  lemma ReadAnswer(o: Outcome)
    requires o.ok
    ensures var a, w := Do(o, ReadConfig), o.world;
            && (a.ok <==> w.draws != [] && w.draws[0].works && w.file.Some?)
            && QuietButMem(w, a.world)
            && a.world.draws == if w.draws == [] then [] else w.draws[1..]
  {}

  lemma InitAnswer(o: Outcome)
    ensures var a, w := Do(o, TfInit), o.world;
            && (a.ok <==> o.ok && w.draws != [] && Reports(w.draws[0]))
            && Quiet(w, a.world)
            && (o.ok ==> a.world.draws == if w.draws == [] then [] else w.draws[1..])
  {}

  lemma PlanAnswered(o: Outcome)
    ensures Do(o, TfPlan).ok <==> o.ok && o.world.draws != [] && Exec(o.world, TfPlan, o.world.draws[0]).1
  {
    hide Exec;
  }

  lemma LostPlan(w: World, d: Draw)
    requires !d.works
    ensures Exec(w, TfPlan, d).1 <==> d.lost
  {}

  /** The condition is exact: it is when some run of the check goes on with its exit code known. */
  lemma CheckCanPassExactly(w: World)
    ensures (exists draws: seq<Draw> ::
               var o := Run(Outcome(w.(draws := draws), true), PlanNoDiff());
               o.ok && Heard(o.world.log, |w.log|, TfPlan))
       <==> Passable(w)
  {
    hide Passable;
    if draws: seq<Draw> :| var o := Run(Outcome(w.(draws := draws), true), PlanNoDiff());
                           o.ok && Heard(o.world.log, |w.log|, TfPlan) {
      var o := PlanStage(Outcome(w.(draws := draws), true));
      PassableQuiet(w, w.(draws := draws));
    }
    if Passable(w) {
      var d := PassableCanPass(w);
      var draws := [Draw(true, false, false, {}, {}, NOTHING, 0), d];
      CheckGoesOn(w, d, draws);
    }
  }

  lemma CheckGoesOn(w: World, d: Draw, draws: seq<Draw>)
    requires d.works && Exec(w, TfPlan, d).1 && |draws| == 2 && draws[0].works && draws[1] == d
    ensures var o := Run(Outcome(w.(draws := draws), true), PlanNoDiff());
            o.ok && Heard(o.world.log, |w.log|, TfPlan)
  {
    var o := Outcome(w.(draws := draws), true);
    var a := InitGoes(o);
    var b := Do(a, TfPlan);
    PlanIgnoresLog(w, a.world, d);
    hide Exec;
    PlanGoesOn(a);
    hide Do;
    assert PlanNoDiff() == [TfInit] + [TfPlan];
    Cons(o, TfInit, [TfPlan]);
    One(a, TfPlan);
    hide Run;
    assert |b.world.log| == |w.log| + 2;
  }

  lemma InitGoes(o: Outcome) returns (a: Outcome)
    requires o.ok && o.world.draws != [] && o.world.draws[0].works
    ensures a == Do(o, TfInit) && a.ok && Quiet(o.world, a.world) && a.world.draws == o.world.draws[1..]
    ensures |a.world.log| == |o.world.log| + 1 && !a.world.log[|o.world.log|].lost
  {
    a := Do(o, TfInit);
  }

  lemma PlanGoesOn(o: Outcome)
    requires o.ok && o.world.draws != [] && o.world.draws[0].works && Exec(o.world, TfPlan, o.world.draws[0]).1
    ensures var b := Do(o, TfPlan);
            && b.ok && o.world.log <= b.world.log && |b.world.log| == |o.world.log| + 1
            && !b.world.log[|o.world.log|].lost
  {
    ExecFrame(o.world, TfPlan, o.world.draws[0]);
    hide Exec;
  }

  lemma PlanIgnoresLog(w: World, w': World, d: Draw)
    requires Quiet(w, w')
    ensures Exec(w, TfPlan, d).1 == Exec(w', TfPlan, d).1
  {
    hide Missing, Extra, Changed, Spare, PlanCheck.Accepted;
  }

  /** The guard a caller can check: something to change or destroy, or something to create that takes fewer
      than ten additions in all, keeps every later change away. */
  lemma PendingIsSeen(w: World)
    requires w.file.Some?
    requires || Changed(Infra(w), Want(w)) != {} || Extra(Infra(w), Want(w)) != {}
             || w.rest.changes > 0 || w.rest.destroys > 0
             || 0 < MostAdditions(w.cfg.resources, |Missing(Infra(w), Want(w))|) + w.rest.adds < 10
    ensures !Passable(w)
  {
    var m := |Missing(Infra(w), Want(w))|;
    MostIsMore(w.cfg.resources, m);
    if MostAdditions(w.cfg.resources, m) + w.rest.adds < 10 {
      NoTen(m, MostAdditions(w.cfg.resources, m), w.rest.adds);
    }
    hide RoundUp, MostAdditions;
  }

  lemma PassableSame(w: World, w': World)
    requires w'.file == w.file && w'.infra == w.infra && w'.rest == w.rest && w'.cfg == w.cfg
    ensures Passable(w) <==> Passable(w')
  {
    hide RoundUp, MostAdditions, Missing, Extra, Changed;
  }

  lemma PendingStays(w: World, c: Command)
    requires !Passable(w) && !c.Apply? && Heard(Invoke(w, c).world.log, |w.log|, TfPlan)
    ensures var w' := Invoke(w, c).world;
            w'.file == w.file && w'.infra == w.infra && w'.rest == w.rest && !Passable(w')
  {
    hide Run, Passable, Heard;
    if c.DrainOnly? || c.Reset? {
      var o := InvokeOther(w, c);
    } else {
      PendingStops(w, c);
      InvokeGrows(w, c);
    }
    RunGrows(Outcome(w, true), [ReadConfig] + Body(w.cfg, c));
    PassableSame(w, Invoke(w, c).world);
  }

  /** ... and this lasts through any number of commands, until an apply runs or a plan's exit code is lost. */
  lemma {:induction false} PendingUntilApply(w: World, cs: seq<Command>)
    requires !Passable(w) && Heard(InvokeAll(w, cs).log, |w.log|, TfPlan)
    requires forall c :: c in cs ==> !c.Apply?
    ensures var w' := InvokeAll(w, cs);
            w'.file == w.file && w'.infra == w.infra && w'.rest == w.rest && !Passable(w')
    decreases |cs|
  {
    hide Heard, Passable, Invoke;
    if cs != [] {
      HeardBefore(w, cs, TfPlan);
      PendingStays(w, cs[0]);
      PendingUntilApply(Invoke(w, cs[0]).world, cs[1..]);
    }
  }

  lemma HeardBefore(w: World, cs: seq<Command>, s: Step)
    requires cs != [] && Heard(InvokeAll(w, cs).log, |w.log|, s)
    ensures var w1 := Invoke(w, cs[0]).world;
            Heard(w1.log, |w.log|, s) && Heard(InvokeAll(w1, cs[1..]).log, |w1.log|, s)
  {
    var w1 := Invoke(w, cs[0]).world;
    InvokeGrows(w, cs[0]);
    AllGrows(w1, cs[1..]);
    hide Invoke;
    HeardPart(w1.log, InvokeAll(w, cs).log, |w.log|, |w.log|, s);
    HeardPart(InvokeAll(w, cs).log, InvokeAll(w, cs).log, |w.log|, |w1.log|, s);
  }

  lemma InvokeFew(w: World, c: Command)
    requires Few(w) && Heard(Invoke(w, c).world.log, |w.log|, TfPlan)
    ensures Few(Invoke(w, c).world)
  {
    hide Run, LastPart;
    if c.DrainOnly? || c.Reset? {
      hide MostAdditions, Due;
      var o := InvokeOther(w, c);
    } else {
      hide Few, Invoke;
      InvokeRegular(w, c);
    }
  }

  lemma {:induction false} ReachableFew(w: World, cs: seq<Command>)
    requires Few(w) && Heard(InvokeAll(w, cs).log, |w.log|, TfPlan)
    ensures Few(InvokeAll(w, cs))
    decreases |cs|
  {
    hide Invoke, Few, Heard;
    if cs != [] {
      HeardBefore(w, cs, TfPlan);
      InvokeFew(w, cs[0]);
      ReachableFew(Invoke(w, cs[0]).world, cs[1..]);
    }
  }

  /** From any world in which creating what is due takes fewer than ten additions, a plan that works is taken
      as empty exactly if it is, in every world that is reached without a plan's exit code lost; a plan that
      does not work passes exactly if its exit code is lost. */
  lemma CheckIsExactWhenReachable(w: World, cs: seq<Command>, d: Draw)
    requires Few(w) && Heard(InvokeAll(w, cs).log, |w.log|, TfPlan)
    ensures var w' := InvokeAll(w, cs); Exec(w', TfPlan, d).1 <==> if d.works then Settled(w') else d.lost
  {
    ReachableFew(w, cs);
    var w' := InvokeAll(w, cs);
    if d.works && Exec(w', TfPlan, d).1 {
      PassedIsPassable(w', d);
      FewPassable(w');
    }
    if d.works && Settled(w') {
      NoDifference(Infra(w'), Want(w'));
      CleanCounts(w', d);
      CheckPassesExactly(w', d);
    }
    if !d.works { LostPlan(w', d); }
    hide InvokeAll, Few, Exec;
  }

  lemma TenWithin(adds: nat)
    ensures RoundUp(2 + adds) <= 10 + adds <==> adds % 10 != 9
  {}

  /** Without that condition it can fail: an apply that stopped before it created the two machines of a new
      cluster, where a machine takes five resources, leaves additions among which is a multiple of ten, unless
      the number of other resources ends in nine. */
  lemma BootstrapCanPass(w: World)
    requires w.file.Some? && w.cfg.resources == 5 && Infra(w) == map[] && |Want(w)| == 2
    requires w.rest.changes == 0 && w.rest.destroys == 0
    ensures !Settled(w) && (Passable(w) <==> w.rest.adds % 10 != 9)
  {
    hide RoundUp, MostAdditions, Missing, Extra, Changed, Settled;
    AllMissing(Infra(w), Want(w));
    MostOfTwo();
    TenWithin(w.rest.adds);
    assert !Settled(w) by { NotThere(w); }
  }

  lemma MostOfTwo()
    ensures MostAdditions(5, 2) == 10
  {}

  lemma NotThere(w: World)
    requires w.file.Some? && Infra(w) == map[] && |Want(w)| == 2
    ensures !Settled(w)
  {}

  lemma AllMissing(have: Fleet, want: Fleet)
    requires have == map[]
    ensures |Missing(have, want)| == |want| && Extra(have, want) == {} && Changed(have, want) == {}
  {
    assert Missing(have, want) == want.Keys;
    assert |want.Keys| == |want|;
  }

  /** So does one that stopped with one such machine and five other resources missing. */
  lemma PartialCanPass(w: World, n: Name)
    requires w.file.Some? && w.cfg.resources == 5 && n in Want(w) && Infra(w) == Want(w) - {n}
    requires w.rest == Rest(5, 0, 0)
    ensures !Settled(w) && Passable(w)
  {
    assert Missing(Infra(w), Want(w)) == {n};
    assert Extra(Infra(w), Want(w)) == {} && Changed(Infra(w), Want(w)) == {};
  }
}
