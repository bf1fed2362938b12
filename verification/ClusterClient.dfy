/**
 The client as the program it is: a cluster object whose machine maps are updated in place, and a
 client whose methods call one tool after the other and return at the first error. Every method is
 proved to do what the lifecycle's script of the same name does.
 */
module ClusterClient {
  import opened Fleet
  import opened Wrappers
  import opened Lifecycle
  import Reconcile

  lemma NameChosen(given: Name, random: Name)
    ensures given != "" ==> Chosen(given, random) == given
    ensures given == "" ==> Chosen(given, random) == random
  {}

  function Chosen(given: Name, random: Name): Name { if given == "" then random else given }

  /** The cluster object with the two machine maps of its tfvars; a map is nil until it is first used. */
  class Cluster {
    const clusterType: ClusterType
    var machinesSC: Option<Fleet>
    var machinesWC: Option<Fleet>

    constructor (clusterType: ClusterType)
      ensures this.clusterType == clusterType && Vars() == TFVars(map[], map[])
    {
      this.clusterType := clusterType;
      machinesSC, machinesWC := None, None;
    }

    function Vars(): TFVars
      reads this
    {
      TFVars(if machinesSC.Some? then machinesSC.value else map[],
             if machinesWC.Some? then machinesWC.value else map[])
    }

    method Load(v: TFVars)
      modifies this
      ensures Vars() == v
    {
      machinesSC, machinesWC := Some(v.machinesSC), Some(v.machinesWC);
    }

    /** The current cluster's map, allocated if it was nil. */
    method Machines() returns (machines: Fleet)
      modifies this
      ensures machines == Current(old(Vars()), clusterType) && Vars() == old(Vars())
    {
      match clusterType
      case ServiceCluster =>
        if machinesSC.None? { machinesSC := Some(map[]); }
        machines := machinesSC.value;
      case WorkloadCluster =>
        if machinesWC.None? { machinesWC := Some(map[]); }
        machines := machinesWC.value;
    }

    method Update(machines: Fleet)
      modifies this
      ensures Vars() == WithCurrent(old(Vars()), clusterType, machines)
    {
      match clusterType
      case ServiceCluster => machinesSC := Some(machines);
      case WorkloadCluster => machinesWC := Some(machines);
    }

    /** Without a name a random one is taken. A taken name is refused and nothing changes; the other
        cluster's map never changes. */
    method AddMachine(given: Name, random: Name, machine: Machine) returns (used: Option<Name>)
      modifies this
      ensures var before, name := Current(old(Vars()), clusterType), Chosen(given, random);
              && used == (if name in before then None else Some(name))
              && Vars() == WithCurrent(old(Vars()), clusterType, if used.Some? then before[name := machine] else before)
      ensures given != "" ==> used == if given in Current(old(Vars()), clusterType) then None else Some(given)
      ensures given == "" ==> used == if random in Current(old(Vars()), clusterType) then None else Some(random)
      ensures used.Some? ==> Current(Vars(), clusterType) == Current(old(Vars()), clusterType)[used.value := machine]
      ensures used.None? ==> Vars() == old(Vars())
      ensures clusterType.ServiceCluster? ==> Vars().machinesWC == old(Vars()).machinesWC
      ensures clusterType.WorkloadCluster? ==> Vars().machinesSC == old(Vars()).machinesSC
    {
      var name := if given == "" then random else given;
      var machines := Machines();
      if name in machines {
        return None;
      }
      Update(machines[name := machine]);
      used := Some(name);
    }

    /** Removing a machine that is not there is no error. */
    method RemoveMachine(name: Name)
      modifies this
      ensures Vars() == WithCurrent(old(Vars()), clusterType, Current(old(Vars()), clusterType) - {name})
      ensures clusterType.ServiceCluster? ==> Vars() == TFVars(old(Vars()).machinesSC - {name}, old(Vars()).machinesWC)
      ensures clusterType.WorkloadCluster? ==> Vars() == TFVars(old(Vars()).machinesSC, old(Vars()).machinesWC - {name})
    {
      var machines := Machines();
      Update(machines - {name});
    }
  }

  class Client {
    const cfg: Config
    const cluster: Cluster

    // The world outside the process.
    var file: Option<TFVars>
    var infra: TFVars
    var rest: Rest
    var inventory: Fleet
    var nodes: set<Name>
    var kubelets: set<Name>
    var seen: bool
    var log: seq<Event>
    var draws: seq<Draw>

    ghost predicate Valid() {
      cluster.clusterType == cfg.clusterType
    }

    /** A client in the given world, with the machine maps the cluster object holds. */
    constructor (w: World, cluster: Cluster)
      requires cluster.clusterType == w.cfg.clusterType
      ensures Valid() && this.cluster == cluster && View() == w.(mem := cluster.Vars())
    {
      cfg, this.cluster := w.cfg, cluster;
      file, infra, rest, inventory := w.file, w.infra, w.rest, w.inventory;
      nodes, kubelets := w.nodes, w.kubelets;
      seen, log, draws := w.seen, w.log, w.draws;
    }

    function View(): World
      reads this, cluster
    {
      World(cfg, cluster.Vars(), file, infra, rest, inventory, nodes, kubelets, seen, log, draws)
    }

    ghost function Now(): Outcome
      reads this, cluster
    {
      Outcome(View(), true)
    }

    method Note(step: Step, ok: bool)
      modifies this`log, this`draws
      ensures View() == old(View()).(log := old(log) + [Event(step, ok, seen, ok && Lost(old(View())))],
                                     draws := if old(draws) == [] then [] else old(draws)[1..])
    {
      log := log + [Event(step, ok, seen, ok && draws != [] && !draws[0].works && draws[0].lost)];
      draws := if draws == [] then [] else draws[1..];
    }

    /** Call an external tool, or look something up, unless the process is gone; only reading the configuration
        changes the cluster object. */
    method Tool(step: Step) returns (ok: bool)
      requires Valid() && !step.DrainIfSeen? && !step.MapAdd? && !step.MapClone? && !step.MapRemove?
      modifies this, cluster
      ensures Valid() && Outcome(View(), ok) == Do(old(Now()), step)
    {
      if draws == [] {
        Note(step, false);
        return false;
      }
      ExecFrame(View(), step, draws[0]);
      hide Exec;
      var (w, success) := Exec(View(), step, draws[0]);
      file, infra, rest, inventory := w.file, w.infra, w.rest, w.inventory;
      nodes, kubelets, seen := w.nodes, w.kubelets, w.seen;
      cluster.Load(w.mem);
      ok := success;
      Note(step, ok);
    }

    method TerraformPlanNoDiff() returns (ok: bool)
      requires Valid()
      modifies this, cluster
      ensures Valid() && Outcome(View(), ok) == Run(old(Now()), PlanNoDiff())
    {
      hide Exec, View;
      Unroll2(Now(), TfInit, TfPlan);
      ok := Tool(TfInit);
      if !ok { return; }
      ok := Tool(TfPlan);
    }

    method TerraformApply() returns (ok: bool)
      requires Valid()
      modifies this, cluster
      ensures Valid() && Outcome(View(), ok) == Run(old(Now()), Lifecycle.TerraformApply())
    {
      hide Exec, View;
      Unroll6(Now(), WriteTFVars, TfInit, TfApply, TfOutput, WriteInfraJSON, WriteInventory);
      hide Run;
      ok := Tool(WriteTFVars);
      if !ok { return; }
      ok := Tool(TfInit);
      if !ok { return; }
      ok := Tool(TfApply);
      if !ok { return; }
      ok := Tool(TfOutput);
      if !ok { return; }
      ok := Tool(WriteInfraJSON);
      if !ok { return; }
      ok := Tool(WriteInventory);
    }

    method FindMachine(name: Name) returns (ok: bool)
      requires Valid()
      modifies this, cluster
      ensures Valid() && Outcome(View(), ok) == Run(old(Now()), MachineState(name))
    {
      hide Exec, View;
      Unroll3(Now(), TfInit, TfOutput, FindState(name));
      hide Run;
      ok := Tool(TfInit);
      if !ok { return; }
      ok := Tool(TfOutput);
      if !ok { return; }
      ok := Tool(FindState(name));
    }

    method AddMachine(given: Name, random: Name, nodeType: NodeType, size: string, image: string,
        settings: map<string, int>)
        returns (ok: bool)
      requires Valid()
      modifies this, cluster
      ensures Valid()
      ensures Outcome(View(), ok)
           == Run(old(Now()), Lifecycle.AddMachine(Chosen(given, random), nodeType, size, image, settings))
    {
      hide Exec, View;
      ghost var name := Chosen(given, random);
      ghost var rest := [Build(nodeType, image), CheckSkew(nodeType, image),
          MapAdd(name, nodeType, size, image, settings)];
      RunAppend(Now(), PlanNoDiff(), rest);
      ok := TerraformPlanNoDiff();
      Unroll3(Outcome(View(), ok), rest[0], rest[1], rest[2]);
      hide Run, Chosen;
      if !ok { return; }
      ok := Tool(Build(nodeType, image));
      if !ok { return; }
      ok := Tool(CheckSkew(nodeType, image));
      if !ok { return; }
      ok := AddToCluster(given, random, MapAdd(Chosen(given, random), nodeType, size, image, settings));
    }

    /** Put a new machine, built or cloned, into the cluster object. */
    method AddToCluster(given: Name, random: Name, step: Step) returns (ok: bool)
      requires Valid()
      requires || (step.MapAdd? && step.name == Chosen(given, random))
               || (step.MapClone? && step.cloneName == Chosen(given, random) && step.name in Mem(View()))
      modifies this, cluster
      ensures Valid() && Outcome(View(), ok) == Do(old(Now()), step)
    {
      AddedTo(Now(), step);
      hide Exec, Do;
      if draws == [] {
        Note(step, false);
        return false;
      }
      var machines := cluster.Machines();
      var machine;
      if step.MapAdd? {
        machine := Machine(step.nodeType, step.size, ImageName(cfg, step.nodeType, step.image), step.settings);
      } else {
        var m := machines[step.name];
        machine := if step.image == "" then m else m.(image := ImageName(cfg, m.nodeType, step.image));
      }
      hide ImageName;
      var used := cluster.AddMachine(given, random, machine);
      ok := used.Some?;
      Note(step, ok);
    }

    method CloneMachine(name: Name, image: string, cloneName: Name) returns (ok: bool)
      requires Valid()
      modifies this, cluster
      ensures Valid() && Outcome(View(), ok) == Run(old(Now()), Lifecycle.CloneMachine(name, image, cloneName))
    {
      ghost var start := Now();
      ghost var checks := if image == "" then [] else [BuildClone(name, image), CheckCloneSkew(name, image)];
      ghost var last := [MapClone(name, image, cloneName)];
      CloneChain(start, name, image, cloneName);
      hide Exec, Do, Lifecycle.CloneMachine, Run;
      ok := TerraformPlanNoDiff();
      if !ok {
        StopsHere(Outcome(View(), ok), FindConfigured(name), checks, last);
        return;
      }
      ok := Tool(FindConfigured(name));
      ghost var f := Outcome(View(), ok);
      FoundStays(Run(start, PlanNoDiff()), name, image);
      if !ok {
        StopsHere(f, FindConfigured(name), checks, last);
        return;
      }
      if image != "" {
        ok := Tool(BuildClone(name, image));
        if !ok {
          StopsHere(Outcome(View(), ok), CheckCloneSkew(name, image), [], last);
          return;
        }
        ok := Tool(CheckCloneSkew(name, image));
        if !ok {
          RunFailed(Outcome(View(), ok), last);
          return;
        }
      }
      One(Outcome(View(), ok), MapClone(name, image, cloneName));
      ok := AddToCluster("", cloneName, MapClone(name, image, cloneName));
    }

    method Join(name: Name) returns (ok: bool)
      requires Valid()
      modifies this, cluster
      ensures Valid() && Outcome(View(), ok) == Run(old(Now()), JoinMachine(cfg, name))
    {
      ghost var start := Now();
      JoinChain(start, cfg, name);
      hide Exec, Do, JoinMachine, Run, View;
      ok := TerraformApply();
      if !ok {
        RunFailed(Outcome(View(), ok), MachineState(name));
        StopsAt4(Outcome(View(), ok), WaitSSH(name), PrepareNodes, JoinNodes, LoadBalancerUpdate(cfg));
        return;
      }
      ok := FindMachine(name);
      if !ok {
        StopsAt4(Outcome(View(), ok), WaitSSH(name), PrepareNodes, JoinNodes, LoadBalancerUpdate(cfg));
        return;
      }
      ok := Tool(WaitSSH(name));
      if !ok {
        StopsAt4(Outcome(View(), ok), WaitSSH(name), PrepareNodes, JoinNodes, LoadBalancerUpdate(cfg));
        return;
      }
      ok := Tool(PrepareNodes);
      if !ok {
        StopsAt4(Outcome(View(), ok), WaitSSH(name), PrepareNodes, JoinNodes, LoadBalancerUpdate(cfg));
        return;
      }
      ok := Tool(JoinNodes);
      if !ok {
        RunFailed(Outcome(View(), ok), LoadBalancerUpdate(cfg));
        return;
      }
      ok := UpdateLoadBalancer();
    }

    method UpdateLoadBalancer() returns (ok: bool)
      requires Valid()
      modifies this, cluster
      ensures Valid() && Outcome(View(), ok) == Run(old(Now()), LoadBalancerUpdate(cfg))
    {
      One(Now(), Infrastructure);
      ok := true;
      if cfg.provider == Safespring {
        ok := Tool(Infrastructure);
      }
    }

    method ResetNode(name: Name) returns (ok: bool)
      requires Valid()
      modifies this, cluster
      ensures Valid() && Outcome(View(), ok) == Run(old(Now()), Lifecycle.ResetNode(name))
    {
      hide Exec, View;
      RunAppend(Now(), MachineState(name), [SshReset(name), DeleteNode(name)]);
      ok := FindMachine(name);
      Unroll2(Outcome(View(), ok), SshReset(name), DeleteNode(name));
      hide Run;
      if !ok { return; }
      ok := Tool(SshReset(name));
      if !ok { return; }
      ok := Tool(DeleteNode(name));
    }

    method RemoveNode(name: Name) returns (ok: bool)
      requires Valid()
      modifies this, cluster
      ensures Valid() && Outcome(View(), ok) == Run(old(Now()), Lifecycle.RemoveNode(cfg, name))
    {
      ghost var start := Now();
      RemoveChain(start, cfg, name);
      hide Exec, Do, Lifecycle.RemoveNode, Run;
      ok := TerraformPlanNoDiff();
      if !ok {
        RemoveStops(Outcome(View(), ok), cfg, name);
        return;
      }
      ok := Tool(GetNode(name));
      if !ok {
        RemoveStops(Outcome(View(), ok), cfg, name);
        return;
      }
      DrainStep(Now(), name);
      if seen {
        ok := Tool(Drain(name));
        if !ok {
          RemoveStops(Outcome(View(), ok), cfg, name);
          return;
        }
      }
      ok := ResetNode(name);
      if !ok {
        RemoveStops(Outcome(View(), ok), cfg, name);
        return;
      }
      ok := DropFromCluster(name);
      if !ok {
        RemoveStops(Outcome(View(), ok), cfg, name);
        return;
      }
      ok := TerraformApply();
      if !ok {
        RunFailed(Outcome(View(), ok), LoadBalancerUpdate(cfg));
        return;
      }
      ok := UpdateLoadBalancer();
    }

    method DropFromCluster(name: Name) returns (ok: bool)
      requires Valid()
      modifies this, cluster
      ensures Valid() && Outcome(View(), ok) == Do(old(Now()), MapRemove(name))
    {
      ok := draws != [];
      if ok { cluster.RemoveMachine(name); }
      Note(MapRemove(name), ok);
    }

    /** Applying the whole configuration waits for the machines in whatever order the map yields them. */
    method Apply() returns (ok: bool, ghost order: seq<Name>)
      requires Valid()
      modifies this, cluster
      ensures Valid() && Outcome(View(), ok) == Run(old(Now()), ApplyAll(cfg, order))
      ensures ok ==> forall n :: n in order <==> n in Infra(View())
    {
      ghost var start := Now();
      order := [];
      ok := ApplyTerraform();
      if !ok {
        ApplyChain(start, cfg, order);
        hide Exec, Do, ApplyAll, Run;
        ApplyStops(Outcome(View(), ok), cfg, order);
        return;
      }
      ok, order := WaitForMachines();
      ApplyChain(start, cfg, order);
      hide Exec, Do, ApplyAll, Run;
      if !ok {
        DeployStops(Outcome(View(), ok), cfg);
        return;
      }
      ok := Deploy();
    }

    method Deploy() returns (ok: bool)
      requires Valid()
      modifies this, cluster
      ensures Valid()
      ensures Outcome(View(), ok) == Run(Run(old(Now()), LoadBalancerUpdate(cfg)),
          [DeployKubernetes, EncryptKubeconfig])
      ensures Infra(View()) == Infra(old(View()))
    {
      DeployKeepsInfra(Now(), cfg);
      hide Exec, Do, Run, Infra, View;
      ok := UpdateLoadBalancer();
      Unroll2(Outcome(View(), ok), DeployKubernetes, EncryptKubeconfig);
      if !ok {
        RunFailed(Outcome(View(), ok), [DeployKubernetes, EncryptKubeconfig]);
        return;
      }
      ok := Tool(DeployKubernetes);
      if !ok {
        DoFailed(Outcome(View(), ok), EncryptKubeconfig);
        return;
      }
      ok := Tool(EncryptKubeconfig);
    }

    /** A command reads the configuration first and then calls the client. */
    method AddNode(given: Name, random: Name, nodeType: NodeType, size: string, image: string, settings: map<string,
        int>)
        returns (ok: bool)
      requires Valid()
      modifies this, cluster
      ensures Valid()
      ensures Outcome(View(), ok) == Invoke(old(View()), Add(Chosen(given, random), nodeType, size, image, settings))
      ensures ok ==>
                var n := if given != "" then given else random;
                && n in Mem(View()) && Mem(View())[n].nodeType == nodeType && Mem(View())[n].size == size
                && Mem(View())[n].settings == settings && (image != "" ==> Mem(View())[n].image == image)
                && View().file == Some(View().mem) && n in Infra(View())
                && (n !in Infra(old(View())) ==> Infra(View())[n] == Mem(View())[n])
    {
      hide Exec, Do, Run, Invoke, Lifecycle.AddMachine, JoinMachine, Chosen;
      var name := Chosen(given, random);
      ghost var add := Lifecycle.AddMachine(name, nodeType, size, image, settings);
      InvokeIs(View(), Add(name, nodeType, size, image, settings), add, JoinMachine(cfg, name), []);
      ReadFirst(Now(), add, JoinMachine(cfg, name), []);
      ok := Tool(ReadConfig);
      if ok { ok := AddMachine(given, random, nodeType, size, image, settings); }
      if ok { ok := Join(name); }
      if ok {
        Reconcile.AddedAsAsked(old(View()), name, nodeType, size, image, settings);
        NameChosen(given, random);
      }
    }

    method CloneNode(name: Name, image: string, cloneName: Name) returns (ok: bool)
      requires Valid()
      modifies this, cluster
      ensures Valid() && Outcome(View(), ok) == Invoke(old(View()), Clone(name, image, cloneName))
    {
      hide Exec, Do, Run, Invoke, Lifecycle.CloneMachine, JoinMachine;
      ghost var clone := Lifecycle.CloneMachine(name, image, cloneName);
      InvokeIs(View(), Clone(name, image, cloneName), clone, JoinMachine(cfg, cloneName), []);
      ReadFirst(Now(), clone, JoinMachine(cfg, cloneName), []);
      ok := Tool(ReadConfig);
      if ok { ok := CloneMachine(name, image, cloneName); }
      if ok { ok := Join(cloneName); }
    }

    /** Replacing clones and joins first; the old node is removed only after both succeeded. */
    method ReplaceNode(name: Name, image: string, cloneName: Name) returns (ok: bool)
      requires Valid()
      modifies this, cluster
      ensures Valid() && Outcome(View(), ok) == Invoke(old(View()), Replace(name, image, cloneName))
    {
      hide Exec, Do, Run, Invoke, Lifecycle.CloneMachine, JoinMachine, Lifecycle.RemoveNode;
      ghost var clone := Lifecycle.CloneMachine(name, image, cloneName);
      ghost var remove := Lifecycle.RemoveNode(cfg, name);
      InvokeIs(View(), Replace(name, image, cloneName), clone, JoinMachine(cfg, cloneName), remove);
      ReadFirst(Now(), clone, JoinMachine(cfg, cloneName), remove);
      ok := Tool(ReadConfig);
      if ok { ok := CloneMachine(name, image, cloneName); }
      if ok { ok := Join(cloneName); }
      if ok { ok := RemoveNode(name); }
    }

    method ApplyTerraform() returns (ok: bool)
      requires Valid()
      modifies this, cluster
      ensures Valid()
      ensures Outcome(View(), ok)
          == Run(Run(Run(old(Now()), [RemoteInit, RemoteConfig, RemoteApply]), Lifecycle.TerraformApply()),
              [TfInit, TfOutput])
    {
      hide Exec, View;
      Unroll3(Now(), RemoteInit, RemoteConfig, RemoteApply);
      hide Run;
      ok := Tool(RemoteInit);
      if ok { ok := Tool(RemoteConfig); }
      if ok { ok := Tool(RemoteApply); }
      if !ok {
        RunFailed(Outcome(View(), ok), Lifecycle.TerraformApply());
        RunFailed(Outcome(View(), ok), [TfInit, TfOutput]);
        return;
      }
      ok := TerraformApply();
      Unroll2(Outcome(View(), ok), TfInit, TfOutput);
      if !ok { return; }
      ok := Tool(TfInit);
      if !ok { return; }
      ok := Tool(TfOutput);
    }

    method WaitForMachines() returns (ok: bool, ghost order: seq<Name>)
      requires Valid()
      modifies this, cluster
      ensures Valid() && Outcome(View(), ok) == Run(old(Now()), WaitAll(order))
      ensures Infra(View()) == Infra(old(View()))
      ensures ok ==> forall n :: n in order <==> n in Infra(View())
    {
      ghost var start := Now();
      var todo := Infra(View()).Keys;
      order, ok := [], true;
      assert Run(start, WaitAll([])) == start;
      while todo != {}
        invariant Valid() && ok && Now() == Run(start, WaitAll(order))
        invariant Infra(View()) == Infra(old(View()))
        invariant forall n :: n in Infra(View()) <==> n in order || n in todo
        decreases todo
      {
        var n :| n in todo;
        WaitOneMore(start, order, n);
        ok := Tool(WaitSSH(n));
        order, todo := order + [n], todo - {n};
        if !ok { return; }
      }
    }
  }

  /******* Steps of the proofs *******/

  /** The name and the machine that a step puts into the map. */
  function NewName(step: Step): Name
    requires step.MapAdd? || step.MapClone?
  {
    if step.MapAdd? then step.name else step.cloneName
  }

  function NewMachine(w: World, step: Step): Machine
    requires step.MapAdd? || (step.MapClone? && step.name in Mem(w))
  {
    if step.MapAdd? then Machine(step.nodeType, step.size, ImageName(w.cfg, step.nodeType, step.image), step.settings)
    else
      var m := Mem(w)[step.name];
      if step.image == "" then m else m.(image := ImageName(w.cfg, m.nodeType, step.image))
  }

  lemma AddedTo(o: Outcome, step: Step)
    requires o.ok && (step.MapAdd? || (step.MapClone? && step.name in Mem(o.world)))
    ensures var (w, n) := (o.world, NewName(step));
            var ok := w.draws != [] && n !in Mem(w);
            Do(o, step) == Outcome((if ok then SetMem(w, Mem(w)[n := NewMachine(w, step)]) else w)
                                     .(log := w.log + [Event(step, ok, w.seen, ok && Lost(w))],
                                       draws := if w.draws == [] then [] else w.draws[1..]), ok)
  {}

  lemma InvokeIs(w: World, c: Command, x: seq<Step>, y: seq<Step>, z: seq<Step>)
    requires Body(w.cfg, c) == x + y + z
    ensures Invoke(w, c) == Run(Outcome(w, true), [ReadConfig] + (x + (y + z)))
  {
    hide Run, Body;
    assert x + y + z == x + (y + z);
  }

  /** A command made of a read and up to three scripts; a failure anywhere is the final outcome. */
  lemma ReadFirst(o: Outcome, a: seq<Step>, b: seq<Step>, c: seq<Step>)
    ensures var r := Do(o, ReadConfig);
            && Run(o, [ReadConfig] + (a + (b + c))) == Run(Run(Run(r, a), b), c)
            && (!r.ok ==> Run(Run(Run(r, a), b), c) == r)
            && (!Run(r, a).ok ==> Run(Run(Run(r, a), b), c) == Run(r, a))
            && (!Run(Run(r, a), b).ok ==> Run(Run(Run(r, a), b), c) == Run(Run(r, a), b))
    ensures forall x :: Run(x, []) == x
  {
    hide Exec, Do;
    Cons(o, ReadConfig, a + (b + c));
    var r := Do(o, ReadConfig);
    RunAppend(r, a, b + c);
    RunAppend(Run(r, a), b, c);
    if !r.ok { StopsHere(r, ReadConfig, a, b); RunFailed(r, c); }
    if !Run(r, a).ok { StopsHere(Run(r, a), ReadConfig, b, c); }
    if !Run(Run(r, a), b).ok { RunFailed(Run(Run(r, a), b), c); }
  }

  lemma DoFailed(o: Outcome, a: Step)
    requires !o.ok
    ensures Do(o, a) == o
  {}

  lemma Unroll2(o: Outcome, a: Step, b: Step)
    ensures Run(o, [a, b]) == Do(Do(o, a), b)
  {
    hide Exec, Do;
    assert [a, b] == [a] + [b];
    Cons(o, a, [b]);
    One(Do(o, a), b);
  }

  lemma Unroll3(o: Outcome, a: Step, b: Step, c: Step)
    ensures Run(o, [a, b, c]) == Do(Do(Do(o, a), b), c)
  {
    hide Exec, Do;
    assert [a, b, c] == [a] + [b, c];
    Cons(o, a, [b, c]);
    Unroll2(Do(o, a), b, c);
  }

  lemma Unroll6(o: Outcome, a: Step, b: Step, c: Step, d: Step, e: Step, f: Step)
    ensures Run(o, [a, b, c, d, e, f]) == Do(Do(Do(Do(Do(Do(o, a), b), c), d), e), f)
  {
    hide Exec, Do;
    assert [a, b, c, d, e, f] == [a, b, c] + [d, e, f];
    RunAppend(o, [a, b, c], [d, e, f]);
    Unroll3(o, a, b, c);
    Unroll3(Do(Do(Do(o, a), b), c), d, e, f);
  }

  lemma CloneChain(o: Outcome, n: Name, i: string, cn: Name)
    ensures var checks := if i == "" then [] else [BuildClone(n, i), CheckCloneSkew(n, i)];
            var f := Do(Run(o, PlanNoDiff()), FindConfigured(n));
            && Run(o, Lifecycle.CloneMachine(n, i, cn)) == Run(Run(f, checks), [MapClone(n, i, cn)])
            && Run(f, checks) == if i == "" then f else Do(Do(f, BuildClone(n, i)), CheckCloneSkew(n, i))
  {
    hide Exec, Do;
    var checks := if i == "" then [] else [BuildClone(n, i), CheckCloneSkew(n, i)];
    var last := [MapClone(n, i, cn)];
    assert Lifecycle.CloneMachine(n, i, cn) == PlanNoDiff() + ([FindConfigured(n)] + (checks + last));
    RunAppend(o, PlanNoDiff(), [FindConfigured(n)] + (checks + last));
    var p := Run(o, PlanNoDiff());
    Cons(p, FindConfigured(n), checks + last);
    var f := Do(p, FindConfigured(n));
    RunAppend(f, checks, last);
    if i != "" { Unroll2(f, BuildClone(n, i), CheckCloneSkew(n, i)); }
  }

  /** Nothing happens after a failure: not the step, not the scripts that follow. */
  lemma StopsHere(o: Outcome, s: Step, a: seq<Step>, b: seq<Step>)
    requires !o.ok
    ensures Do(o, s) == o && Run(o, a) == o && Run(o, b) == o
  {
    DoFailed(o, s);
    RunFailed(o, a);
    RunFailed(o, b);
  }

  lemma FoundStays(p: Outcome, n: Name, i: string)
    ensures var f := Do(p, FindConfigured(n));
            && (f.ok ==> n in Mem(f.world))
            && (f.ok ==> n in Mem(Do(Do(f, BuildClone(n, i)), CheckCloneSkew(n, i)).world))
  {}

  lemma JoinChain(o: Outcome, cfg: Config, n: Name)
    ensures Run(o, JoinMachine(cfg, n))
         == Run(Do(Do(Do(Run(Run(o, Lifecycle.TerraformApply()), MachineState(n)), WaitSSH(n)), PrepareNodes),
             JoinNodes),
                LoadBalancerUpdate(cfg))
  {
    hide Exec, Do;
    var lb := LoadBalancerUpdate(cfg);
    var three := [WaitSSH(n), PrepareNodes, JoinNodes];
    assert JoinMachine(cfg, n) == Lifecycle.TerraformApply() + (MachineState(n) + (three + lb));
    RunAppend(o, Lifecycle.TerraformApply(), MachineState(n) + (three + lb));
    var a := Run(o, Lifecycle.TerraformApply());
    RunAppend(a, MachineState(n), three + lb);
    var b := Run(a, MachineState(n));
    RunAppend(b, three, lb);
    Unroll3(b, WaitSSH(n), PrepareNodes, JoinNodes);
  }

  lemma StopsAt4(o: Outcome, a: Step, b: Step, c: Step, rest: seq<Step>)
    requires !o.ok
    ensures Do(o, a) == o && Do(o, b) == o && Do(o, c) == o && Run(o, rest) == o
  {
    DoFailed(o, a);
    DoFailed(o, b);
    DoFailed(o, c);
    RunFailed(o, rest);
  }

  lemma RemoveChain(o: Outcome, cfg: Config, n: Name)
    ensures var r := Run(Do(Do(Run(o, PlanNoDiff()), GetNode(n)), DrainIfSeen(n)), Lifecycle.ResetNode(n));
            Run(o, Lifecycle.RemoveNode(cfg, n))
                == Run(Run(Do(r, MapRemove(n)), Lifecycle.TerraformApply()), LoadBalancerUpdate(cfg))
  {
    hide Exec, Do;
    var lb, tf := LoadBalancerUpdate(cfg), Lifecycle.TerraformApply();
    var tail := [MapRemove(n)] + (tf + lb);
    assert Lifecycle.RemoveNode(cfg, n)
        == PlanNoDiff() + ([GetNode(n)] + ([DrainIfSeen(n)] + (Lifecycle.ResetNode(n) + tail)));
    hide Lifecycle.RemoveNode, Lifecycle.TerraformApply, PlanNoDiff, Lifecycle.ResetNode, LoadBalancerUpdate, Run;
    RunAppend(o, PlanNoDiff(), [GetNode(n)] + ([DrainIfSeen(n)] + (Lifecycle.ResetNode(n) + tail)));
    var p := Run(o, PlanNoDiff());
    Cons(p, GetNode(n), [DrainIfSeen(n)] + (Lifecycle.ResetNode(n) + tail));
    Cons(Do(p, GetNode(n)), DrainIfSeen(n), Lifecycle.ResetNode(n) + tail);
    var s := Do(Do(p, GetNode(n)), DrainIfSeen(n));
    RunAppend(s, Lifecycle.ResetNode(n), tail);
    var r := Run(s, Lifecycle.ResetNode(n));
    Cons(r, MapRemove(n), tf + lb);
    RunAppend(Do(r, MapRemove(n)), tf, lb);
  }

  lemma RemoveStops(o: Outcome, cfg: Config, n: Name)
    requires !o.ok
    ensures Do(o, GetNode(n)) == o && Do(o, DrainIfSeen(n)) == o && Run(o, Lifecycle.ResetNode(n)) == o
    ensures Do(o, MapRemove(n)) == o && Run(o, Lifecycle.TerraformApply()) == o && Run(o, LoadBalancerUpdate(cfg)) == o
  {
    DoFailed(o, GetNode(n));
    DoFailed(o, DrainIfSeen(n));
    DoFailed(o, MapRemove(n));
    RunFailed(o, Lifecycle.ResetNode(n));
    RunFailed(o, Lifecycle.TerraformApply());
    RunFailed(o, LoadBalancerUpdate(cfg));
  }

  lemma DrainStep(o: Outcome, n: Name)
    ensures Do(o, DrainIfSeen(n)) == if o.world.seen then Do(o, Drain(n)) else o
  {}

  lemma ApplyChain(o: Outcome, cfg: Config, order: seq<Name>)
    ensures var t := Run(Run(Run(o, [RemoteInit, RemoteConfig, RemoteApply]), Lifecycle.TerraformApply()),
        [TfInit, TfOutput]);
            Run(o, ApplyAll(cfg, order))
                == Run(Run(Run(t, WaitAll(order)), LoadBalancerUpdate(cfg)), [DeployKubernetes, EncryptKubeconfig])
  {
    hide Exec, Do;
    var lb, last := LoadBalancerUpdate(cfg), [DeployKubernetes, EncryptKubeconfig];
    var first, tf := [RemoteInit, RemoteConfig, RemoteApply], Lifecycle.TerraformApply();
    assert ApplyAll(cfg, order) == first + (tf + ([TfInit, TfOutput] + (WaitAll(order) + (lb + last))));
    hide ApplyAll, Lifecycle.TerraformApply, WaitAll, LoadBalancerUpdate, Run;
    RunAppend(o, first, tf + ([TfInit, TfOutput] + (WaitAll(order) + (lb + last))));
    RunAppend(Run(o, first), tf, [TfInit, TfOutput] + (WaitAll(order) + (lb + last)));
    var a := Run(Run(o, first), tf);
    RunAppend(a, [TfInit, TfOutput], WaitAll(order) + (lb + last));
    var b := Run(a, [TfInit, TfOutput]);
    RunAppend(b, WaitAll(order), lb + last);
    RunAppend(Run(b, WaitAll(order)), lb, last);
  }

  lemma ApplyStops(o: Outcome, cfg: Config, order: seq<Name>)
    requires !o.ok
    ensures Run(Run(Run(o, WaitAll(order)), LoadBalancerUpdate(cfg)), [DeployKubernetes, EncryptKubeconfig]) == o
  {
    RunFailed(o, WaitAll(order));
    DeployStops(o, cfg);
  }

  lemma DeployStops(o: Outcome, cfg: Config)
    requires !o.ok
    ensures Run(Run(o, LoadBalancerUpdate(cfg)), [DeployKubernetes, EncryptKubeconfig]) == o
  {
    RunFailed(o, LoadBalancerUpdate(cfg));
    RunFailed(o, [DeployKubernetes, EncryptKubeconfig]);
  }

  lemma StepKeepsInfra(o: Outcome, s: Step)
    requires s.Infrastructure? || s.DeployKubernetes? || s.EncryptKubeconfig?
    ensures Infra(Do(o, s).world) == Infra(o.world)
  {}

  lemma DeployKeepsInfra(o: Outcome, cfg: Config)
    ensures Infra(Run(Run(o, LoadBalancerUpdate(cfg)), [DeployKubernetes, EncryptKubeconfig]).world) == Infra(o.world)
  {
    hide Do;
    Cons(o, Infrastructure, []);
    One(o, Infrastructure);
    var b := Run(o, LoadBalancerUpdate(cfg));
    assert b == o || b == Do(o, Infrastructure);
    hide Run, LoadBalancerUpdate, Infra;
    StepKeepsInfra(o, Infrastructure);
    StepKeepsInfra(b, DeployKubernetes);
    StepKeepsInfra(Do(b, DeployKubernetes), EncryptKubeconfig);
    Unroll2(b, DeployKubernetes, EncryptKubeconfig);
  }

  lemma WaitOneMore(o: Outcome, order: seq<Name>, n: Name)
    ensures Run(o, WaitAll(order + [n])) == Do(Run(o, WaitAll(order)), WaitSSH(n))
    ensures Infra(Do(Run(o, WaitAll(order)), WaitSSH(n)).world) == Infra(Run(o, WaitAll(order)).world)
  {
    assert WaitAll(order + [n]) == WaitAll(order) + [WaitSSH(n)];
    RunAppend(o, WaitAll(order), [WaitSSH(n)]);
    One(Run(o, WaitAll(order)), WaitSSH(n));
  }
}
