/** Further guarantees over all runs: version skew, waiting before deploying, and every point of a run. */
module Guarantees {
  import opened Fleet
  import opened Images
  import opened Wrappers
  import opened Lifecycle
  import opened Stages
  import opened Reconcile
  import opened Replace
  import PlanCheck
  import KeptNodes
  import Removal

  /******* Version skew *******/

  /** The machine's image, found by name in the provider's list, is at most two minors behind the server;
      only a load balancer may run an image without a kubelet. */
  ghost predicate MachineInSkew(cfg: Config, m: Machine) {
    var i := ImageFor(cfg, m.nodeType, m.image);
    i.Some? && if i.value.kubelet.None? then m.nodeType == LoadBalancer else InSkew(i.value, cfg.server)
  }

  ghost predicate FleetInSkew(cfg: Config, f: Fleet) {
    forall n :: n in f ==> MachineInSkew(cfg, f[n])
  }

  ghost predicate InSkewEverywhere(w: World) {
    FleetInSkew(w.cfg, Mem(w)) && FleetInSkew(w.cfg, Infra(w)) && (w.file.Some? ==> FleetInSkew(w.cfg, Want(w)))
  }

  /** The name an image is recorded under finds the same image again. */
  lemma {:induction false} LookupAgain(images: seq<Image>, name: string)
    requires Lookup(images, name).Some?
    ensures Lookup(images, Lookup(images, name).value.name) == Lookup(images, name)
  {}

  /** Image names are distinct for a node type and none is empty, as in every provider's list. */
  ghost predicate NamesDistinct(images: seq<Image>) {
    && (forall i, j :: 0 <= i < j < |images| ==> images[i].name != images[j].name)
    && (forall i :: 0 <= i < |images| ==> images[i].name != "")
  }

  lemma {:induction false} LookupFinds(images: seq<Image>, k: nat)
    requires NamesDistinct(images) && k < |images|
    ensures Lookup(images, images[k].name) == Some(images[k])
    decreases |images|
  {
    if k > 0 {
      assert images[0].name != images[k].name;
      LookupFinds(images[1..], k - 1);
    }
  }

  ghost predicate GoodCatalogue(cfg: Config) {
    forall t :: t in cfg.images ==> NamesDistinct(cfg.images[t])
  }

  /** A machine that passes the test is recorded under a name that finds an image in skew. */
  lemma RecordedImage(cfg: Config, m: Machine, i: string)
    requires GoodCatalogue(cfg) && SkewOk(cfg, m.nodeType, i) && m.image == ImageName(cfg, m.nodeType, i)
    ensures MachineInSkew(cfg, m)
  {
    var images := cfg.images[m.nodeType];
    if i == "" {
      LookupFinds(images, |images| - 1);
    } else {
      LookupAgain(images, i);
    }
    SupportedExactly(ImageFor(cfg, m.nodeType, i).value, cfg.server);
  }

  lemma BetweenInSkew(cfg: Config, have: Fleet, want: Fleet, now: Fleet)
    requires FleetInSkew(cfg, have) && FleetInSkew(cfg, want) && Between(have, want, now)
    ensures FleetInSkew(cfg, now)
  {
    hide MachineInSkew;
  }

  lemma AppliedInSkew(w: World, w': World, ok: bool)
    requires InSkewEverywhere(w) && Applied(w, w', ok)
    ensures InSkewEverywhere(w')
  {
    AppliedParts(w, w', ok);
    hide Applied, MachineInSkew;
    BetweenInSkew(w.cfg, Infra(w), Mem(w), Infra(w'));
  }

  lemma GrownInSkew(w: World, g: Outcome, n: Name, x: Machine)
    requires InSkewEverywhere(w) && Gained(w, g, n, x) && (g.ok ==> MachineInSkew(w.cfg, x))
    ensures InSkewEverywhere(g.world)
  {
    hide MachineInSkew, Passable;
  }

  lemma JoinInSkew(o: Outcome, cfg: Config, n: Name) returns (o': Outcome)
    requires InSkewEverywhere(o.world)
    ensures o' == Run(o, JoinMachine(cfg, n))
    ensures InSkewEverywhere(o'.world) && o'.world.cfg == o.world.cfg
  {
    hide Run, Exec, Do, JoinMachine, MachineInSkew;
    var a;
    a, o' := JoinStage(o, cfg, n);
    if o.ok { AppliedInSkew(o.world, a.world, a.ok && Heard(a.world.log, |o.world.log|, TfApply)); }
  }

  lemma RemoveInSkew(o: Outcome, cfg: Config, n: Name) returns (o': Outcome)
    requires InSkewEverywhere(o.world)
    ensures o' == Run(o, RemoveNode(cfg, n))
    ensures InSkewEverywhere(o'.world) && o'.world.cfg == o.world.cfg
  {
    hide Run, Exec, Do, RemoveNode, Passable, MachineInSkew;
    var p, s, r, m, a;
    p, s, r, m, a, o' := RemoveStage(o, cfg, n);
    assert InSkewEverywhere(r.world);
    assert InSkewEverywhere(m.world);
    if m.ok { AppliedInSkew(m.world, a.world, a.ok && Heard(a.world.log, |m.world.log|, TfApply)); }
  }

  lemma CloneInSkew(cfg: Config, m: Machine, i: string)
    requires GoodCatalogue(cfg) && MachineInSkew(cfg, m) && (i != "" ==> SkewOk(cfg, m.nodeType, i))
    ensures MachineInSkew(cfg, CloneOf(cfg, m, i))
  {
    if i != "" { RecordedImage(cfg, CloneOf(cfg, m, i), i); }
  }

  lemma InvokeInSkew(w: World, c: Command)
    requires GoodCatalogue(w.cfg) && InSkewEverywhere(w)
    ensures InSkewEverywhere(Invoke(w, c).world) && Invoke(w, c).world.cfg == w.cfg
  {
    hide Exec, Do, RemoveNode, JoinMachine, CloneMachine, AddMachine, ApplyAll, ResetNode, MachineInSkew, Passable;
    var o := Split(w, c);
    if o.ok {
      match c
      case Add(n, t, size, i, settings) =>
        RunAppend(o, AddMachine(n, t, size, i, settings), JoinMachine(w.cfg, n));
        var g, x := AddGains(o, n, t, size, i, settings);
        if g.ok { RecordedImage(w.cfg, x, i); }
        GrownInSkew(o.world, g, n, x);
        var o' := JoinInSkew(g, w.cfg, n);
      case Clone(n, i, cn) =>
        RunAppend(o, CloneMachine(n, i, cn), JoinMachine(w.cfg, cn));
        var g, x := CloneGains(o, n, i, cn);
        if g.ok { CloneInSkew(w.cfg, Mem(o.world)[n], i); }
        GrownInSkew(o.world, g, cn, x);
        var o' := JoinInSkew(g, w.cfg, cn);
      case Remove(n) =>
        var o' := RemoveInSkew(o, w.cfg, n);
      case Replace(n, i, cn) =>
        RunAppend(o, CloneMachine(n, i, cn) + JoinMachine(w.cfg, cn), RemoveNode(w.cfg, n));
        RunAppend(o, CloneMachine(n, i, cn), JoinMachine(w.cfg, cn));
        var g, x := CloneGains(o, n, i, cn);
        if g.ok { CloneInSkew(w.cfg, Mem(o.world)[n], i); }
        GrownInSkew(o.world, g, cn, x);
        var j := JoinInSkew(g, w.cfg, cn);
        var o' := RemoveInSkew(j, w.cfg, n);
      case Apply(order) =>
        var f, a, o' := ApplyAllStage(o, w.cfg, order);
        if f.ok { AppliedInSkew(f.world, a.world, a.ok && Heard(a.world.log, |f.world.log|, TfApply)); }
      case DrainOnly(n) =>
        InertRun(o, [Drain(n)]);
      case Reset(n) =>
        var o' := ResetStage(o, n);
    }
  }

  /** Fixed server version: no run of commands ever brings in a machine outside the version skew. */
  lemma {:induction false} SkewInvariant(w: World, cs: seq<Command>)
    requires GoodCatalogue(w.cfg) && InSkewEverywhere(w)
    ensures InSkewEverywhere(InvokeAll(w, cs))
    decreases |cs|
  {
    if cs != [] {
      InvokeInSkew(w, cs[0]);
      SkewInvariant(Invoke(w, cs[0]).world, cs[1..]);
    }
  }

  /** Cloning a machine with an image, where the provider's images of its type hold no kubelet, never
      succeeds and changes nothing: if the image is found, the skew test reads the kubelet version that is
      not there. */
  lemma CloneWithoutKubelet(w: World, c: Command)
    requires c.Clone? && c.image != "" && w.file == Some(w.mem) && c.name in Mem(w)
    requires var t := Mem(w)[c.name].nodeType; t in w.cfg.images && forall i :: i in w.cfg.images[t] ==> i.kubelet.None?
    ensures !Invoke(w, c).ok && Quiet(w, Invoke(w, c).world)
    ensures var i := ImageFor(w.cfg, Mem(w)[c.name].nodeType, c.image);
            i.Some? ==> IsSupported(i.value, Some(w.cfg.server)) == NilDereference
  {
    hide Exec, Do, CloneMachine, JoinMachine, Passable;
    var o := Split(w, c);
    if o.ok {
      RunAppend(o, CloneMachine(c.name, c.image, c.cloneName), JoinMachine(w.cfg, c.cloneName));
      hide Run;
      var g, x := CloneGains(o, c.name, c.image, c.cloneName);
      assert !g.ok;
      RunFailed(g, JoinMachine(w.cfg, c.cloneName));
    }
  }

  /******* Waiting before deploying *******/

  ghost predicate Answered(log: seq<Event>, n: Name, from: nat) {
    exists k :: from <= k < |log| && log[k].ok && log[k].step == WaitSSH(n)
  }

  lemma WaitStep(o: Outcome, n: Name)
    ensures var a := Do(o, WaitSSH(n));
            a.ok ==> |a.world.log| == |o.world.log| + 1 && Removal.Done(a.world.log[|o.world.log|], WaitSSH(n))
  {}

  lemma {:induction false} WaitsAnswered(o: Outcome, order: seq<Name>, from: nat)
    requires from <= |o.world.log|
    ensures var o' := Run(o, WaitAll(order));
            o'.ok ==> forall n :: n in order ==> Answered(o'.world.log, n, from)
    decreases |order|
  {
    hide Do;
    if order != [] {
      assert WaitAll(order) == [WaitSSH(order[0])] + WaitAll(order[1..]);
      Cons(o, WaitSSH(order[0]), WaitAll(order[1..]));
      var a := Do(o, WaitSSH(order[0]));
      DoGrows(o, WaitSSH(order[0]));
      WaitsAnswered(a, order[1..], from);
      RunGrows(a, WaitAll(order[1..]));
      var o' := Run(a, WaitAll(order[1..]));
      if o'.ok {
        if !a.ok { RunFailed(a, WaitAll(order[1..])); }
        WaitStep(o, order[0]);
        var k := |o.world.log|;
        assert o'.world.log[k] == a.world.log[k];
        assert Answered(o'.world.log, order[0], from);
      }
    }
  }

  /** The script of an apply up to the waiting, and up to the deployment. */
  function BeforeWaiting(): seq<Step> { RemoteSteps() + (TerraformApply() + [TfInit, TfOutput]) }

  function BeforeDeploy(cfg: Config, order: seq<Name>): seq<Step> {
    BeforeWaiting() + (WaitAll(order) + LoadBalancerUpdate(cfg))
  }

  lemma AppliedBeforeWaiting(o: Outcome) returns (b: Outcome)
    requires o.ok
    ensures b == Run(o, BeforeWaiting())
    ensures o.world.log <= b.world.log
    ensures b.ok ==> Infra(b.world) == b.world.inventory
    ensures b.ok && Heard(b.world.log, |o.world.log|, TfApply) ==> Infra(b.world) == Mem(b.world)
  {
    hide Exec, Do;
    InertRun(o, RemoteSteps());
    hide RemoteSteps, TerraformApply, Run;
    RunAppend(o, RemoteSteps(), TerraformApply() + [TfInit, TfOutput]);
    var f := Run(o, RemoteSteps());
    RunAppend(f, TerraformApply(), [TfInit, TfOutput]);
    var a := ApplyStage(f);
    InertRun(a, [TfInit, TfOutput]);
    b := Run(a, [TfInit, TfOutput]);
    if f.ok { AppliedParts(f.world, a.world, a.ok && Heard(a.world.log, |f.world.log|, TfApply)); }
    if Heard(b.world.log, |o.world.log|, TfApply) {
      HeardPart(a.world.log, b.world.log, |o.world.log|, |f.world.log|, TfApply);
    }
  }

  /** An apply reaches the deployment only after every machine of the Terraform state, which is the inventory,
      answered; `order` is any order of them. The state is equal to the configuration unless the exit code of
      the Terraform apply was lost. */
  lemma DeployAfterAllAnswered(o: Outcome, cfg: Config, order: seq<Name>)
    requires o.ok && forall n :: n in order <==> n in Infra(Run(o, BeforeWaiting()).world)
    ensures ApplyAll(cfg, order) == BeforeDeploy(cfg, order) + [DeployKubernetes, EncryptKubeconfig]
    ensures var b := Run(o, BeforeDeploy(cfg, order));
            b.ok ==>
              && Infra(b.world) == b.world.inventory
              && (Heard(b.world.log, |o.world.log|, TfApply) ==> Infra(b.world) == Mem(b.world))
              && forall n :: n in Infra(b.world) ==> Answered(b.world.log, n, |o.world.log|)
  {
    InertBalancer(cfg);
    var b := AppliedBeforeWaiting(o);
    hide Exec, Do, Run, LoadBalancerUpdate, BeforeWaiting, Heard;
    var lb := LoadBalancerUpdate(cfg);
    RunAppend(o, BeforeWaiting(), WaitAll(order) + lb);
    RunGrows(o, BeforeWaiting());
    RunAppend(b, WaitAll(order), lb);
    InertRun(b, WaitAll(order));
    WaitsAnswered(b, order, |o.world.log|);
    var c := Run(b, WaitAll(order));
    InertRun(c, lb);
    RunGrows(c, lb);
    var d := Run(c, lb);
    hide Answered;
    if Heard(d.world.log, |o.world.log|, TfApply) { HeardSoFar(o.world, b.world, d.world, TfApply); }
    if d.ok {
      forall n | n in Infra(d.world) ensures Answered(d.world.log, n, |o.world.log|) {
        StaysAnswered(c.world.log, d.world.log, n, |o.world.log|);
      }
    }
    ApplyParts(cfg, order);
    hide BeforeDeploy, ApplyAll;
  }

  lemma StaysAnswered(log: seq<Event>, more: seq<Event>, n: Name, from: nat)
    requires Answered(log, n, from) && log <= more
    ensures Answered(more, n, from)
  {
    var k :| from <= k < |log| && log[k].ok && log[k].step == WaitSSH(n);
    assert more[k] == log[k];
  }

  lemma ApplyParts(cfg: Config, order: seq<Name>)
    ensures ApplyAll(cfg, order) == BeforeDeploy(cfg, order) + [DeployKubernetes, EncryptKubeconfig]
  {}

  /******* Every point of a run *******/

  /** The same world with the last `k` draws left out. */
  function Shortened(o: Outcome, k: nat): Outcome
    requires k <= |o.world.draws|
  {
    o.(world := o.world.(draws := o.world.draws[..|o.world.draws| - k]))
  }

  lemma DoShortened(o: Outcome, s: Step, k: nat)
    requires Do(o, s).ok && k <= |Do(o, s).world.draws|
    ensures k <= |o.world.draws| && Do(Shortened(o, k), s) == Shortened(Do(o, s), k)
  {
    hide Exec;
    var step := if s.DrainIfSeen? then Drain(s.name) else s;
    var draws := o.world.draws;
    assert |Do(o, s).world.draws| <= |draws|;
    if draws != [] {
      ExecIgnoresDraws(o.world, step, draws[0], draws[..|draws| - k]);
      ExecFrame(o.world, step, draws[0]);
      if k < |draws| { assert draws[..|draws| - k][1..] == draws[1..][..|draws[1..]| - k]; }
    }
  }

  lemma {:induction false} RunShortened(o: Outcome, s: seq<Step>, k: nat)
    requires Run(o, s).ok && k <= |Run(o, s).world.draws|
    ensures k <= |o.world.draws| && Run(Shortened(o, k), s) == Shortened(Run(o, s), k)
    decreases |s|
  {
    hide Do, Shortened;
    if s != [] {
      var a := Do(o, s[0]);
      if !a.ok { RunFailed(a, s[1..]); }
      RunShortened(a, s[1..], k);
      DoShortened(o, s[0], k);
    }
  }

  /** A process that is gone does nothing more. */
  lemma {:induction false} GoneDoesNothing(o: Outcome, s: seq<Step>)
    requires o.world.draws == []
    ensures Quiet(o.world, Run(o, s).world)
    ensures forall i :: |o.world.log| <= i < |Run(o, s).world.log| ==> !Run(o, s).world.log[i].lost
    decreases |s|
  {
    hide Exec;
    if s != [] { GoneDoesNothing(Do(o, s[0]), s[1..]); }
  }

  lemma NothingLost(log: seq<Event>, more: seq<Event>, from: nat, s: Step)
    requires log <= more && forall i :: |log| <= i < |more| ==> !more[i].lost
    ensures Heard(log, from, s) ==> Heard(more, from, s)
  {
    if Heard(log, from, s) {
      forall i | from <= i < |more| && more[i].step == s ensures !more[i].lost {
        if i < |log| { assert log[i] == more[i]; }
      }
    }
  }

  /** After any number of steps of any run the world is the final world of a run, but for log and draws: of
      one that is given only the draws used so far. So what holds of the final worlds of all runs holds at
      every point of every run. */
  lemma PrefixIsARun(w: World, script: seq<Step>, k: nat) returns (ds: seq<Draw>)
    requires k <= |script|
    ensures ds <= w.draws
    ensures var a, b := Run(Outcome(w, true), script[..k]).world, Run(Outcome(w.(draws := ds), true), script).world;
            Quiet(a, b) && forall s :: Heard(a.log, |w.log|, s) ==> Heard(b.log, |w.log|, s)
  {
    var o := Outcome(w, true);
    var a := Run(o, script[..k]);
    assert script == script[..k] + script[k..];
    hide Do, Run;
    RunAppend(o, script[..k], script[k..]);
    if !a.ok {
      RunFailed(a, script[k..]);
      ds := w.draws;
      assert w.(draws := ds) == w;
    } else {
      var left := |a.world.draws|;
      RunShortened(o, script[..k], left);
      ds := w.draws[..|w.draws| - left];
      var o1 := Outcome(w.(draws := ds), true);
      assert o1 == Shortened(o, left);
      RunAppend(o1, script[..k], script[k..]);
      GoneDoesNothing(Shortened(a, left), script[k..]);
      forall s { NothingLost(a.world.log, Run(o1, script).world.log, |w.log|, s); }
    }
  }

  /** At every point of a replacement, not only where it ends, no node type has fewer configured machines,
      provisioned machines or live nodes than before: the first always, the second if nothing waits to be
      changed or destroyed or no plan's exit code was lost so far, the third from worlds that keep every node's
      machine if the join's was not. */
  lemma CapacityThroughout(w: World, c: Command, k: nat)
    requires c.Replace? && w.file == Some(w.mem) && c.cloneName !in Infra(w) && k <= |Body(w.cfg, c)| + 1
    ensures var w' := KeptNodes.After(w, c, k).world;
            && NoLess(Mem(w), Mem(w'))
            && (NothingGoes(w) || Heard(w'.log, |w.log|, TfPlan) ==> NoLess(Infra(w), Infra(w')))
            && (KeptNodes.Safe(w) && Heard(w'.log, |w.log|, JoinNodes) ==> NoLess(Live(w), Live(w')))
  {
    hide Run, Body, NoLess, Live, Heard, KeptNodes.Safe, NothingGoes;
    var script := [ReadConfig] + Body(w.cfg, c);
    var draws := PrefixIsARun(w, script, k);
    var w1, w' := w.(draws := draws), KeptNodes.After(w, c, k).world;
    SameButDraws(w, w1);
    ReplaceKeepsConfigured(w1, c);
    if NothingGoes(w) || Heard(w'.log, |w.log|, TfPlan) { ReplaceKeepsProvisioned(w1, c); }
    if KeptNodes.Safe(w) && Heard(w'.log, |w.log|, JoinNodes) { ReplaceKeepsLive(w1, c); }
    SameButDraws(w', Invoke(w1, c).world);
  }

  /** At every point of a replacement the map is what it was, or has gained the clone, or has the clone instead of
      the old machine; and a machine provisioned as it was configured is gone from the state only when the
      clone is there, and a node no more only when the clone is a node, unless the join's exit code was lost. */
  lemma OldStaysUntilClone(w: World, c: Command, k: nat)
    requires c.Replace? && w.file == Some(w.mem) && Alike(w, c.name) && c.cloneName !in Infra(w)
    requires k <= |Body(w.cfg, c)| + 1
    ensures var w' := KeptNodes.After(w, c, k).world;
            && Swaps(w.cfg, Mem(w), Mem(w'), c)
            && (c.name !in Infra(w') ==> c.cloneName in Infra(w'))
            && (c.name in w.nodes && c.name !in w'.nodes && Mem(w)[c.name].nodeType != LoadBalancer ==>
                  c.cloneName !in w.kubelets && Heard(w'.log, |w.log|, JoinNodes) ==> c.cloneName in w'.nodes)
  {
    hide Run, Body, Heard;
    var script := [ReadConfig] + Body(w.cfg, c);
    var draws := PrefixIsARun(w, script, k);
    var w1, w' := w.(draws := draws), KeptNodes.After(w, c, k).world;
    ReplaceKeepsConfigured(w1, c);
    OldGoesAfterClone(w1, c);
    hide Swaps;
  }

  lemma SameButDraws(w: World, w': World)
    requires Quiet(w, w')
    ensures Mem(w') == Mem(w) && Infra(w') == Infra(w) && Live(w') == Live(w)
    ensures KeptNodes.Safe(w) <==> KeptNodes.Safe(w')
    ensures NothingGoes(w) <==> NothingGoes(w')
  {}

  /******* A torn file *******/

  /** A write of the file can tear it, and then it fails. */
  lemma WriteTears(w: World, d: Draw)
    requires !d.works && d.odd
    ensures Exec(w, WriteTFVars, d) == (w.(file := None), false)
  {}

  /** Once the file is torn no command does anything any more: each one fails at reading its configuration. */
  lemma {:induction false} TornFileStops(w: World, cs: seq<Command>)
    requires w.file.None?
    ensures var w' := InvokeAll(w, cs); w' == w.(log := w'.log, draws := w'.draws)
    ensures cs != [] ==> !Invoke(w, cs[0]).ok
    decreases |cs|
  {
    if cs != [] {
      var o := Outcome(w, true);
      var a := Do(o, ReadConfig);
      assert !a.ok && Quiet(w, a.world);
      hide Exec, Do, Body;
      Cons(o, ReadConfig, Body(w.cfg, cs[0]));
      RunFailed(a, Body(w.cfg, cs[0]));
      hide Run;
      TornFileStops(a.world, cs[1..]);
    }
  }
}
