/** Replacing a node never costs capacity, wherever it stops, and gives back what it took: configured machines
    in every run, provisioned machines and live nodes as far as exit codes are heard. */
module Replace {
  import opened Fleet
  import opened Wrappers
  import opened Lifecycle
  import opened Stages
  import opened Reconcile
  import KeptNodes

  /** The machines that are up and Kubernetes nodes. */
  function Live(w: World): Fleet {
    map n | n in w.nodes && n in Infra(w) :: Infra(w)[n]
  }

  ghost predicate NoLess(f: Fleet, g: Fleet) {
    forall t :: Count(f, t) <= Count(g, t)
  }

  lemma SubFleet(f: Fleet, g: Fleet)
    requires forall n :: n in f ==> n in g && g[n].nodeType == f[n].nodeType
    ensures NoLess(f, g)
  {
    forall t { CountMonotone(f, g, t); }
  }

  /** `g` holds everything of `f` but `out`, and a machine of the same type instead. */
  lemma Swapped(f: Fleet, g: Fleet, out: Name, into: Name, x: Machine)
    requires out in f && into !in f && x.nodeType == f[out].nodeType
    requires into in g && g[into] == x
    requires forall n :: n in f && n != out ==> n in g && g[n] == f[n]
    ensures NoLess(f, g)
  {
    var h := f[into := x] - {out};
    SubFleet(h, g);
    forall t ensures Count(f, t) <= Count(g, t) {
      CountSwap(f, out, into, x, t);
      assert Count(h, t) <= Count(g, t);
    }
  }

  /******* The parts of a replacement *******/

  /** The map gained the clone of the old machine. */
  ghost predicate GrewBy(w: World, w': World, c: Command, x: Machine)
    requires c.Replace?
  {
    && Grown(Mem(w), Mem(w'), c.cloneName, x)
    && c.name in Mem(w) && x == CloneOf(w.cfg, Mem(w)[c.name], c.image)
  }

  /** Reading, cloning and joining, in worlds where the process's map is the file's. */
  lemma Halves(w: World, c: Command) returns (j: Outcome, o: Outcome, x: Machine)
    requires c.Replace? && w.file == Some(w.mem)
    ensures o == Invoke(w, c) && j == Run(Outcome(w, true), FirstHalf(w.cfg, c))
    ensures o == if j.ok then Run(j, RemoveNode(w.cfg, c.name)) else j
    ensures w.log <= j.world.log && j.world.cfg == w.cfg && w.nodes <= j.world.nodes
    ensures Mem(j.world) == Mem(w) || GrewBy(w, j.world, c, x)
    ensures j.ok ==> GrewBy(w, j.world, c, x) && j.world.file == Some(j.world.mem) && c.cloneName in Infra(j.world)
    ensures forall k :: Alike(w, k) ==> Stays(w, j.world, k)
    ensures Passable(w) || !Heard(j.world.log, |w.log|, TfPlan)
            || (!j.ok && j.world.infra == w.infra && j.world.nodes == w.nodes)
    ensures j.ok && c.cloneName !in Infra(w) ==>
              && Infra(j.world)[c.cloneName] == x
              && (x.nodeType != LoadBalancer && c.cloneName !in w.kubelets ==>
                    Heard(j.world.log, |w.log|, JoinNodes) ==> c.cloneName in j.world.nodes)
  {
    hide Exec, Do, Run, Passable, Few, Heard;
    var r, g;
    r, g, j, o, x := ReplaceHalves(w, c);
    MemIrrelevant(w, r.world);
    if r.ok {
      assert forall k :: Alike(w, k) ==> Alike(r.world, k);
      j := JoinAfterGain(r, g, w.cfg, c.cloneName, x);
      if Heard(j.world.log, |w.log|, TfPlan) {
        HeardLater(w, r.world, j.world, TfPlan);
        HeardSoFar(r.world, g.world, j.world, TfPlan);
      }
      if Heard(j.world.log, |w.log|, JoinNodes) { HeardLater(w, g.world, j.world, JoinNodes); }
    }
  }

  /******* The machine map *******/

  /** `f` became `g`: nothing, a clone gained, or the old machine swapped for its clone. */
  ghost predicate Swaps(cfg: Config, f: Fleet, g: Fleet, c: Command)
    requires c.Replace?
  {
    || g == f
    || (c.name in f && c.cloneName !in f
        && var f1 := f[c.cloneName := CloneOf(cfg, f[c.name], c.image)]; g == f1 || g == f1 - {c.name})
  }

  /** Whatever fails and whatever exit codes get lost: the map keeps every machine but the old one, which
      leaves it only after its clone came in, of the same node type, so no type has fewer machines. */
  lemma ReplaceKeepsConfigured(w: World, c: Command)
    requires c.Replace? && w.file == Some(w.mem)
    ensures var w' := Invoke(w, c).world; Swaps(w.cfg, Mem(w), Mem(w'), c) && NoLess(Mem(w), Mem(w'))
  {
    hide Exec, Do, Run, Invoke, Passable, Heard;
    var j, o, x := Halves(w, c);
    if j.ok { var o' := RemoveKeeps(j, w.cfg, c.name); }
    SwapsEnough(w.cfg, Mem(w), Mem(o.world), c);
  }

  lemma SwapsEnough(cfg: Config, f: Fleet, g: Fleet, c: Command)
    requires c.Replace? && Swaps(cfg, f, g, c)
    ensures NoLess(f, g)
  {
    if g == f || c.name in g {
      SubFleet(f, g);
    } else {
      Swapped(f, g, c.name, c.cloneName, CloneOf(cfg, f[c.name], c.image));
    }
  }

  /** A successful replacement swaps exactly the one machine and keeps every count; without an image the clone
      is equal to it. Map, file and state are equal again unless the last apply's exit code was lost. */
  lemma ReplaceSwaps(w: World, c: Command)
    requires c.Replace? && w.file == Some(w.mem)
    ensures var o := Invoke(w, c);
            o.ok ==>
              && c.name in Mem(w) && c.cloneName !in Mem(w)
              && Mem(o.world) == Mem(w)[c.cloneName := CloneOf(w.cfg, Mem(w)[c.name], c.image)] - {c.name}
              && (c.image == "" ==> Mem(o.world) == Mem(w)[c.cloneName := Mem(w)[c.name]] - {c.name})
              && (forall t :: Count(Mem(o.world), t) == Count(Mem(w), t))
              && (Heard(o.world.log, LastPart(w, c), TfApply) ==> Agreed(o.world))
  {
    hide Exec, Do, Run, Invoke, Passable, Heard;
    var j, o, x := Halves(w, c);
    if j.ok {
      var o' := RemoveKeeps(j, w.cfg, c.name);
      if o.ok {
        forall t { CountSwap(Mem(w), c.name, c.cloneName, x, t); }
      }
    }
  }

  /******* The order of joining and removing *******/

  /** The steps that take the old machine away. */
  predicate Removes(s: Step) {
    s.GetNode? || s.Drain? || s.DrainIfSeen? || s.SshReset? || s.DeleteNode? || s.MapRemove?
  }

  ghost predicate RemovedSince(log: seq<Event>, from: nat) {
    exists i :: from <= i < |log| && Removes(log[i].step)
  }

  lemma StepRemovesNot(o: Outcome, s: Step)
    requires !Removes(s)
    ensures var more := Do(o, s).world.log;
            |more| <= |o.world.log| + 1 && (|more| > |o.world.log| ==> !Removes(more[|o.world.log|].step))
  {
    hide Exec;
  }

  lemma {:induction false} RemovesNot(o: Outcome, script: seq<Step>)
    requires forall s :: s in script ==> !Removes(s)
    ensures !RemovedSince(Run(o, script).world.log, |o.world.log|)
    decreases |script|
  {
    hide Do, Removes;
    if script != [] {
      var a := Do(o, script[0]);
      assert !Removes(script[0]);
      StepRemovesNot(o, script[0]);
      DoGrows(o, script[0]);
      RemovesNot(a, script[1..]);
      RunGrows(a, script[1..]);
      var log := Run(o, script).world.log;
      forall i | |o.world.log| <= i < |log| ensures !Removes(log[i].step) {
        if i < |a.world.log| { assert log[i] == a.world.log[i]; }
      }
    }
  }

  lemma RemovalSecond(o: Outcome, first: seq<Step>, second: seq<Step>, k: nat)
    requires forall s :: s in first ==> !Removes(s)
    requires k <= |first + second| && RemovedSince(Run(o, (first + second)[..k]).world.log, |o.world.log|)
    ensures |first| < k && Run(o, first).ok
  {
    hide Do, Run, Removes;
    if k <= |first| {
      assert (first + second)[..k] == first[..k];
      RemovesNot(o, first[..k]);
    } else {
      var rest := second[..k - |first|];
      assert (first + second)[..k] == first + rest;
      RunAppend(o, first, rest);
      RemovesNot(o, first);
      if !Run(o, first).ok { RunFailed(Run(o, first), rest); }
    }
  }

  /** From any world and at every point of a replacement: once the old node is as much as asked for, reading
      the configuration, cloning and joining have succeeded. */
  lemma RemovalAfterJoin(w: World, c: Command, k: nat)
    requires c.Replace? && k <= |Body(w.cfg, c)| + 1
    requires RemovedSince(KeptNodes.After(w, c, k).world.log, |w.log|)
    ensures |FirstHalf(w.cfg, c)| < k && Run(Outcome(w, true), FirstHalf(w.cfg, c)).ok
  {
    HalfRemovesNot(w.cfg, c);
    HalfShape(w.cfg, c);
    hide Body, FirstHalf, Run, RemovedSince, Removes;
    RemovalSecond(Outcome(w, true), FirstHalf(w.cfg, c), RemoveNode(w.cfg, c.name), k);
  }

  lemma HalfRemovesNot(cfg: Config, c: Command)
    requires c.Replace?
    ensures forall s :: s in FirstHalf(cfg, c) ==> !Removes(s)
  {}

  lemma HalfShape(cfg: Config, c: Command)
    requires c.Replace?
    ensures [ReadConfig] + Body(cfg, c) == FirstHalf(cfg, c) + RemoveNode(cfg, c.name)
  {
    hide CloneMachine, JoinMachine, RemoveNode;
  }

  /******* Provisioned machines *******/

  /** Nothing is to change or be destroyed among the machines. */
  ghost predicate NothingGoes(w: World) { forall k :: k in Infra(w) ==> Alike(w, k) }

  lemma PassableNothingGoes(w: World)
    requires Passable(w) && w.file == Some(w.mem)
    ensures NothingGoes(w)
  {
    NothingElse(w);
    hide Passable;
  }

  /** Where no machine waits to be changed or destroyed, or no plan's exit code is lost: no node type has fewer
      provisioned machines, wherever the replacement stops, and whatever other exit codes get lost. */
  lemma ReplaceKeepsProvisioned(w: World, c: Command)
    requires c.Replace? && w.file == Some(w.mem) && c.cloneName !in Infra(w)
    requires NothingGoes(w) || Heard(Invoke(w, c).world.log, |w.log|, TfPlan)
    ensures NoLess(Infra(w), Infra(Invoke(w, c).world))
  {
    hide Exec, Do, Run, Invoke, Passable, Heard;
    var j, o, x := Halves(w, c);
    if j.ok { o := RemoveKeeps(j, w.cfg, c.name); }
    if Heard(o.world.log, |w.log|, TfPlan) { HeardSoFar(w, j.world, o.world, TfPlan); }
    if Passable(w) { PassableNothingGoes(w); }
    if !NothingGoes(w) || !j.ok {
      SubFleet(Infra(w), Infra(o.world));
    } else {
      assert Alike(j.world, c.cloneName);
      assert forall k :: k in Infra(w) ==> Alike(j.world, k);
      StandsIn(Infra(w), Infra(o.world), Mem(w)[c.name].nodeType, c.name, c.cloneName, x);
    }
  }

  /** The clone stands in for a machine that may be gone. */
  lemma StandsIn(f: Fleet, g: Fleet, t: NodeType, n: Name, cn: Name, x: Machine)
    requires n in f ==> f[n].nodeType == t == x.nodeType && cn in g && g[cn] == x
    requires cn !in f
    requires forall k :: k in f && k != n ==> k in g && g[k] == f[k]
    ensures NoLess(f, g)
  {
    if n in f { Swapped(f, g, n, cn, x); } else { SubFleet(f, g); }
  }

  /******* Live nodes *******/

  lemma LiveAlike(w: World, n: Name)
    requires KeptNodes.Safe(w) && w.file == Some(w.mem)
    ensures forall k :: k in Live(w) ==> k in w.nodes && Alike(w, k) && Infra(w)[k].nodeType != LoadBalancer
    ensures n !in Infra(w) ==> n !in w.kubelets && n !in Live(w)
  {}

  /** Every live node but one is live still, and the clone is in place of that one. */
  lemma LiveSwap(w: World, w': World, n: Name, cn: Name, x: Machine)
    requires forall k :: k in Live(w) && k != n ==> k in w'.nodes && Stays(w, w', k)
    requires n in Live(w) ==> Live(w)[n].nodeType == x.nodeType && cn in w'.nodes
    requires n in Live(w) ==> cn in Infra(w') && Infra(w')[cn] == x
    requires cn !in Infra(w)
    ensures NoLess(Live(w), Live(w'))
  {
    hide NoLess;
    StandsIn(Live(w), Live(w'), x.nodeType, n, cn, x);
  }

  /** From a world in which every node's machine is kept, unless the exit code of the join is lost: no node type
      has fewer live nodes, wherever the replacement stops, and whatever other exit codes get lost. */
  lemma ReplaceKeepsLive(w: World, c: Command)
    requires c.Replace? && w.file == Some(w.mem) && KeptNodes.Safe(w) && c.cloneName !in Infra(w)
    requires Heard(Invoke(w, c).world.log, |w.log|, JoinNodes)
    ensures NoLess(Live(w), Live(Invoke(w, c).world))
  {
    hide Exec, Do, Run, Invoke, Passable, Heard, NoLess, Live, KeptNodes.Safe;
    var j, o, x := Halves(w, c);
    LiveAlike(w, c.cloneName);
    if !j.ok {
      LiveKept(w, j.world);
    } else {
      o := RemoveKeeps(j, w.cfg, c.name);
      HeardSoFar(w, j.world, o.world, JoinNodes);
      assert Alike(j.world, c.cloneName);
      assert forall k :: k in Live(w) ==> Alike(j.world, k);
      LiveKind(w, c.name);
      LiveSwap(w, o.world, c.name, c.cloneName, x);
    }
  }

  lemma LiveKind(w: World, n: Name)
    ensures n in Live(w) ==> n in Infra(w) && Live(w)[n] == Infra(w)[n]
  {}

  lemma LiveKept(w: World, w': World)
    requires forall k :: k in Live(w) ==> k in w'.nodes && Stays(w, w', k)
    ensures NoLess(Live(w), Live(w'))
  {
    SubFleet(Live(w), Live(w'));
  }

  /** A machine provisioned as it is configured is gone from the state only when the clone is provisioned; and
      a node only when the clone is a node, unless the exit code of the join was lost. */
  lemma OldGoesAfterClone(w: World, c: Command)
    requires c.Replace? && w.file == Some(w.mem) && Alike(w, c.name) && c.cloneName !in Infra(w)
    ensures var w' := Invoke(w, c).world;
            && (c.name !in Mem(w') ==> c.cloneName in Mem(w'))
            && (c.name !in Infra(w') ==> c.cloneName in Infra(w'))
            && (c.name in w.nodes && c.name !in w'.nodes && Mem(w)[c.name].nodeType != LoadBalancer ==>
                  c.cloneName !in w.kubelets && Heard(w'.log, |w.log|, JoinNodes) ==> c.cloneName in w'.nodes)
  {
    hide Exec, Do, Run, Invoke, Passable, Heard;
    var j, o, x := Halves(w, c);
    if j.ok {
      assert Alike(j.world, c.cloneName);
      o := RemoveKeeps(j, w.cfg, c.name);
      if Heard(o.world.log, |w.log|, JoinNodes) { HeardSoFar(w, j.world, o.world, JoinNodes); }
    }
  }
}
