/**
 The node lifecycle: what `ck8s add`, `clone`, `remove`, `replace`, `apply`, `drain` and `reset`
 do to the configuration, the Terraform state and the Kubernetes cluster.

 A command is a script of steps, each an external tool or a change of the machine map. A run
 executes the script until a step fails. How each tool behaves is drawn from the world:
 a draw says whether the tool succeeds, how far it got, and whether its exit code got lost, in which
 case the runner reports success whatever happened. When no draw is left the process is gone: the step
 fails without effect, so every prefix of a run is itself a run.
 */
module Lifecycle {
  import opened Fleet
  import opened Images
  import opened Wrappers
  import PlanCheck

  datatype Provider = Exoscale | Safespring | CityCloud | Azure

  /** What does not change while commands run. `resources` bounds the Terraform resources per machine. */
  datatype Config = Config(
    clusterType: ClusterType,
    provider: Provider,
    images: map<NodeType, seq<Image>>,
    server: Version,
    resources: nat)

  datatype Step =
    | ReadConfig
    | RemoteInit | RemoteConfig | RemoteApply
    | TfInit | TfPlan | WriteTFVars | TfApply | TfOutput | WriteInfraJSON | WriteInventory
    | FindState(name: Name)
    | GetNode(name: Name) | DrainIfSeen(name: Name) | Drain(name: Name)
    | SshReset(name: Name) | DeleteNode(name: Name)
    | Build(nodeType: NodeType, image: string) | CheckSkew(nodeType: NodeType, image: string)
    | FindConfigured(name: Name) | BuildClone(name: Name, image: string) | CheckCloneSkew(name: Name, image: string)
    | MapAdd(name: Name, nodeType: NodeType, size: string, image: string, settings: map<string, int>)
    | MapClone(name: Name, image: string, cloneName: Name)
    | MapRemove(name: Name)
    | WaitSSH(name: Name)
    | PrepareNodes | JoinNodes | Infrastructure | DeployKubernetes | EncryptKubeconfig

  /** Terraform resources that belong to no machine and are to be created, changed or destroyed. */
  datatype Rest = Rest(adds: nat, changes: nat, destroys: nat)

  const NOTHING := Rest(0, 0, 0)

  predicate NoMore(r: Rest, s: Rest) { r.adds <= s.adds && r.changes <= s.changes && r.destroys <= s.destroys }

  function Least(r: Rest, s: Rest): (l: Rest)
    ensures NoMore(l, r) && NoMore(l, s)
  {
    Rest(if r.adds <= s.adds then r.adds else s.adds,
         if r.changes <= s.changes then r.changes else s.changes,
         if r.destroys <= s.destroys then r.destroys else s.destroys)
  }

  /** A tool's behaviour. `works`: it succeeds. `lost`: it does not, but its exit code cannot be determined.
      `odd`: the file was torn, the effect happened although the tool failed, the change needs a replacement,
      or a node is reported missing that is there. `done` and `gone` say which machines a failing tool got to,
      `left` what it left of the other resources, `extra` how many more additions a plan prints. */
  datatype Draw = Draw(works: bool, lost: bool, odd: bool, done: set<Name>, gone: set<Name>, left: Rest, extra: nat)

  /** What a tool called through the runner reports: an undeterminable exit code counts as success. */
  predicate Reports(d: Draw) { d.works || d.lost }

  /** `lost`: the step reported success without having worked, its exit code unknown. */
  datatype Event = Event(step: Step, ok: bool, seen: bool, lost: bool)

  datatype World = World(
    cfg: Config,
    mem: TFVars,               // the cluster object of the running process
    file: Option<TFVars>,      // tfvars.json; None when it does not parse
    infra: TFVars,             // the machines in the Terraform state
    rest: Rest,                // what else of the current cluster Terraform has yet to do
    inventory: Fleet,          // the Ansible inventory
    nodes: set<Name>,          // the Kubernetes nodes of the current cluster
    kubelets: set<Name>,       // machines that hold a kubelet.conf
    seen: bool,                // the last answer about a node's existence
    log: seq<Event>,
    draws: seq<Draw>)

  datatype Outcome = Outcome(world: World, ok: bool)

  function Mem(w: World): Fleet { Current(w.mem, w.cfg.clusterType) }
  function Infra(w: World): Fleet { Current(w.infra, w.cfg.clusterType) }

  /** The machines an Ansible join turns into nodes. */
  function Joinable(f: Fleet): set<Name> {
    set n | n in f && f[n].nodeType != LoadBalancer
  }

  /** A join runs `kubeadm join` only where no kubelet.conf exists. */
  function Join(w: World, hosts: set<Name>): World {
    w.(nodes := w.nodes + (hosts - w.kubelets), kubelets := w.kubelets + hosts)
  }

  /** Additions beyond one per missing machine. */
  function Spare(resources: nat, missing: nat, extra: nat): (n: nat)
    ensures missing == 0 ==> n == 0
    ensures missing == 1 && resources >= 1 ==> n <= resources - 1
  {
    if resources == 0 then 0
    else if extra <= (resources - 1) * missing then extra
    else if missing == 0 then 0
    else assert (resources - 1) * missing >= 0; (resources - 1) * missing
  }

  /** The numbers a plan prints: a missing machine is between one and `resources` additions,
      a changed one is an update in place or a replacement, and the other resources count as they are. */
  function PlanCounts(w: World, want: Fleet, d: Draw): (nat, nat, nat) {
    var have := Infra(w);
    var missing, extra, changed := |Missing(have, want)|, |Extra(have, want)|, |Changed(have, want)|;
    (missing + Spare(w.cfg.resources, missing, d.extra) + w.rest.adds + (if d.odd then 0 else changed),
     w.rest.changes + if d.odd then changed else 0,
     extra + w.rest.destroys + if d.odd then 0 else changed)
  }

  function ImageFor(cfg: Config, t: NodeType, image: string): Option<Image> {
    if t !in cfg.images || cfg.images[t] == [] then None
    else if image == "" then Some(cfg.images[t][|cfg.images[t]| - 1])
    else Lookup(cfg.images[t], image)
  }

  function ImageName(cfg: Config, t: NodeType, image: string): string {
    var i := ImageFor(cfg, t, image);
    if i.Some? then i.value.name else image
  }

  predicate SkewOk(cfg: Config, t: NodeType, image: string) {
    var i := ImageFor(cfg, t, image);
    i.Some? && IsSupported(i.value, Some(cfg.server)) == Supported
  }

  function SetMem(w: World, f: Fleet): World {
    w.(mem := WithCurrent(w.mem, w.cfg.clusterType, f))
  }

  /** A machine that was destroyed, or created anew, holds no kubelet.conf. */
  function SetInfra(w: World, f: Fleet): World {
    w.(infra := WithCurrent(w.infra, w.cfg.clusterType, f),
       kubelets := w.kubelets - (Extra(Infra(w), f) + Changed(Infra(w), f)))
  }

  /** The effect of one step and whether it reports success. */
  function Exec(w: World, step: Step, d: Draw): (World, bool) {
    match step
    case ReadConfig =>
      if d.works && w.file.Some? then (w.(mem := w.file.value), true) else (w, false)
    case TfPlan =>
      if !d.works then (w, d.lost)
      else if w.file.None? then (w, false)
      else
        var (a, c, x) := PlanCounts(w, Current(w.file.value, w.cfg.clusterType), d);
        (w, PlanCheck.Accepted(a, c, x))
    case WriteTFVars =>
      if d.works then (w.(file := Some(w.mem)), true)
      else if d.odd then (w.(file := None), false)
      else (w, false)
    case TfApply =>
      if w.file.None? then (w, !d.works && d.lost)
      else
        var want := Current(w.file.value, w.cfg.clusterType);
        if d.works then (SetInfra(w, want).(rest := NOTHING), true)
        else
          (SetInfra(w, PartlyApplied(Infra(w), want, d.done, d.gone)).(rest := Least(w.rest, d.left)), d.lost)
    case WriteInventory =>
      if d.works then (w.(inventory := Infra(w)), true)
      else if d.odd then (w.(inventory := map n | n in Infra(w) && n in d.done :: Infra(w)[n]), false)
      else (w, false)
    case FindState(n) => (w, n in Infra(w))
    case GetNode(n) =>
      if d.works then (w.(seen := n in w.nodes && !d.odd), true)
      else if d.lost then (w.(seen := true), true)
      else (w, false)
    case SshReset(n) =>
      (if d.works || d.odd then w.(kubelets := w.kubelets - {n}) else w, Reports(d))
    case DeleteNode(n) =>
      (if d.works || d.odd then w.(nodes := w.nodes - {n}) else w, Reports(d))
    case Build(t, i) => (w, ImageFor(w.cfg, t, i).Some?)
    case CheckSkew(t, i) => (w, d.works && SkewOk(w.cfg, t, i))
    case FindConfigured(n) => (w, n in Mem(w))
    case BuildClone(n, i) => (w, n in Mem(w) && ImageFor(w.cfg, Mem(w)[n].nodeType, i).Some?)
    case CheckCloneSkew(n, i) => (w, d.works && n in Mem(w) && SkewOk(w.cfg, Mem(w)[n].nodeType, i))
    case MapAdd(n, t, size, i, settings) =>
      if n in Mem(w) then (w, false)
      else (SetMem(w, Mem(w)[n := Machine(t, size, ImageName(w.cfg, t, i), settings)]), true)
    case MapClone(n, i, cloneName) =>
      if n !in Mem(w) || cloneName in Mem(w) then (w, false)
      else
        var m := Mem(w)[n];
        (SetMem(w, Mem(w)[cloneName := if i == "" then m else m.(image := ImageName(w.cfg, m.nodeType, i))]), true)
    case MapRemove(n) => (SetMem(w, Mem(w) - {n}), true)
    case JoinNodes =>
      var hosts := Joinable(w.inventory);
      (Join(w, if d.works then hosts else hosts * d.done), Reports(d))
    case DeployKubernetes =>
      var hosts := Joinable(w.inventory);
      (Join(w, if d.works then hosts else hosts * d.done), Reports(d))
    case _ => (w, if ThroughRunner(step) then Reports(d) else d.works)
  }

  /** The remaining tools that run through the command runner. */
  predicate ThroughRunner(step: Step) {
    || step.RemoteInit? || step.RemoteApply? || step.TfInit? || step.TfOutput? || step.Drain?
    || step.PrepareNodes? || step.Infrastructure? || step.EncryptKubeconfig?
  }

  /** The tool called next does not work and its exit code gets lost. */
  predicate Lost(w: World) {
    w.draws != [] && !w.draws[0].works && w.draws[0].lost
  }

  /** Execute one step after what came before; an earlier failure skips it, and so does a node that was not seen. */
  function Do(o: Outcome, step: Step): Outcome {
    if !o.ok || (step.DrainIfSeen? && !o.world.seen) then o
    else
      var w := o.world;
      var actual := if step.DrainIfSeen? then Drain(step.name) else step;
      var (w', ok) := if w.draws == [] then (w, false) else Exec(w, actual, w.draws[0]);
      Outcome(w'.(log := w.log + [Event(actual, ok, w'.seen, ok && Lost(w))],
                  draws := if w.draws == [] then [] else w.draws[1..]), ok)
  }

  function Run(o: Outcome, script: seq<Step>): Outcome
    decreases |script|
  {
    if script == [] then o else Run(Do(o, script[0]), script[1..])
  }

  /******* Scripts *******/

  function PlanNoDiff(): seq<Step> { [TfInit, TfPlan] }

  function TerraformApply(): seq<Step> {
    [WriteTFVars, TfInit, TfApply, TfOutput, WriteInfraJSON, WriteInventory]
  }

  function MachineState(n: Name): seq<Step> { [TfInit, TfOutput, FindState(n)] }

  function LoadBalancerUpdate(cfg: Config): seq<Step> {
    if cfg.provider == Safespring then [Infrastructure] else []
  }

  function AddMachine(n: Name, t: NodeType, size: string, image: string, settings: map<string, int>): seq<Step> {
    PlanNoDiff() + [Build(t, image), CheckSkew(t, image), MapAdd(n, t, size, image, settings)]
  }

  function CloneMachine(n: Name, image: string, cloneName: Name): seq<Step> {
    PlanNoDiff() + [FindConfigured(n)]
    + (if image == "" then [] else [BuildClone(n, image), CheckCloneSkew(n, image)])
    + [MapClone(n, image, cloneName)]
  }

  function JoinMachine(cfg: Config, n: Name): seq<Step> {
    TerraformApply() + MachineState(n) + [WaitSSH(n), PrepareNodes, JoinNodes] + LoadBalancerUpdate(cfg)
  }

  function ResetNode(n: Name): seq<Step> {
    MachineState(n) + [SshReset(n), DeleteNode(n)]
  }

  function RemoveNode(cfg: Config, n: Name): seq<Step> {
    PlanNoDiff() + [GetNode(n), DrainIfSeen(n)] + ResetNode(n) + [MapRemove(n)]
    + TerraformApply() + LoadBalancerUpdate(cfg)
  }

  function WaitAll(order: seq<Name>): seq<Step> {
    seq(|order|, i requires 0 <= i < |order| => WaitSSH(order[i]))
  }

  function ApplyAll(cfg: Config, order: seq<Name>): seq<Step> {
    [RemoteInit, RemoteConfig, RemoteApply] + TerraformApply() + [TfInit, TfOutput]
    + WaitAll(order) + LoadBalancerUpdate(cfg) + [DeployKubernetes, EncryptKubeconfig]
  }

  /******* Commands *******/

  /** `name` of an addition is the name used, given or random; `cloneName` is the random name the clone gets; `order`
      is the order in which the state's machines are waited for. */
  datatype Command =
    | Add(name: Name, nodeType: NodeType, size: string, image: string, settings: map<string, int>)
    | Clone(name: Name, image: string, cloneName: Name)
    | Remove(name: Name)
    | Replace(name: Name, image: string, cloneName: Name)
    | Apply(order: seq<Name>)
    | DrainOnly(name: Name)
    | Reset(name: Name)

  function Body(cfg: Config, c: Command): seq<Step> {
    match c
    case Add(n, t, size, i, settings) => AddMachine(n, t, size, i, settings) + JoinMachine(cfg, n)
    case Clone(n, i, cn) => CloneMachine(n, i, cn) + JoinMachine(cfg, cn)
    case Remove(n) => RemoveNode(cfg, n)
    case Replace(n, i, cn) => CloneMachine(n, i, cn) + JoinMachine(cfg, cn) + RemoveNode(cfg, n)
    case Apply(order) => ApplyAll(cfg, order)
    case DrainOnly(n) => [Drain(n)]
    case Reset(n) => ResetNode(n)
  }

  /** One invocation of the tool: a fresh process reads the configuration, then runs the command. */
  function Invoke(w: World, c: Command): Outcome {
    Run(Outcome(w, true), [ReadConfig] + Body(w.cfg, c))
  }

  /** Any number of invocations, whatever their outcome. */
  function InvokeAll(w: World, cs: seq<Command>): World
    decreases |cs|
  {
    if cs == [] then w else InvokeAll(Invoke(w, cs[0]).world, cs[1..])
  }

  /******* Composition *******/

  lemma Cons(o: Outcome, a: Step, rest: seq<Step>)
    ensures Run(o, [a] + rest) == Run(Do(o, a), rest)
  {}

  lemma Nil(o: Outcome)
    ensures Run(o, []) == o
  {}

  lemma One(o: Outcome, a: Step)
    ensures Run(o, [a]) == Do(o, a)
  {
    assert [a] == [a] + [];
    Cons(o, a, []);
    Nil(Do(o, a));
    hide Do;
  }

  lemma {:induction false} RunAppend(o: Outcome, a: seq<Step>, b: seq<Step>)
    ensures Run(o, a + b) == Run(Run(o, a), b)
    decreases |a|
  {
    if a == [] {
      assert a + b == b;
    } else {
      assert (a + b)[1..] == a[1..] + b;
      RunAppend(Do(o, a[0]), a[1..], b);
    }
  }

  lemma {:induction false} RunFailed(o: Outcome, s: seq<Step>)
    requires !o.ok
    ensures Run(o, s) == o
    decreases |s|
  {
    if s != [] { RunFailed(o, s[1..]); }
  }

  /** What no step touches. */
  lemma ExecFrame(w: World, step: Step, d: Draw)
    ensures var w' := Exec(w, step, d).0; w'.cfg == w.cfg && w'.log == w.log && w'.draws == w.draws
  {}

  lemma ExecIgnoresDraws(w: World, s: Step, d: Draw, draws: seq<Draw>)
    ensures Exec(w.(draws := draws), s, d) == (Exec(w, s, d).0.(draws := draws), Exec(w, s, d).1)
  {
    hide Missing, Extra, Changed, Spare, PartlyApplied, Joinable, SkewOk, ImageName, PlanCheck.Accepted;
  }

  lemma DoGrows(o: Outcome, s: Step)
    ensures Do(o, s).world.cfg == o.world.cfg && o.world.log <= Do(o, s).world.log
    ensures forall d :: d in Do(o, s).world.draws ==> d in o.world.draws
  {
    hide Exec;
    var step := if s.DrainIfSeen? then Drain(s.name) else s;
    if o.world.draws != [] { ExecFrame(o.world, step, o.world.draws[0]); }
  }

  /** What no step of any script changes: the configuration, and what the log already says. */
  lemma {:induction false} RunGrows(o: Outcome, s: seq<Step>)
    ensures Run(o, s).world.cfg == o.world.cfg
    ensures o.world.log <= Run(o, s).world.log
    ensures forall d :: d in Run(o, s).world.draws ==> d in o.world.draws
    decreases |s|
  {
    hide Do;
    if s != [] {
      DoGrows(o, s[0]);
      RunGrows(Do(o, s[0]), s[1..]);
    }
  }

  lemma InvokeGrows(w: World, c: Command)
    ensures w.log <= Invoke(w, c).world.log
  {
    RunGrows(Outcome(w, true), [ReadConfig] + Body(w.cfg, c));
  }

  lemma {:induction false} AllGrows(w: World, cs: seq<Command>)
    ensures w.log <= InvokeAll(w, cs).log
    decreases |cs|
  {
    hide Invoke;
    if cs != [] {
      InvokeGrows(w, cs[0]);
      AllGrows(Invoke(w, cs[0]).world, cs[1..]);
    }
  }

  /******* Lost answers *******/

  /** From `from` on, no step `s` that reported success had its exit code lost. */
  ghost predicate Heard(log: seq<Event>, from: nat, s: Step) {
    forall i :: from <= i < |log| && log[i].step == s ==> !log[i].lost
  }

  lemma HeardPart(log: seq<Event>, more: seq<Event>, from: nat, later: nat, s: Step)
    requires log <= more && from <= later && Heard(more, from, s)
    ensures Heard(log, later, s)
  {
    forall i | later <= i < |log| && log[i].step == s ensures !log[i].lost {
      assert more[i] == log[i];
    }
  }

  /** A step that reports success and whose exit code was heard worked. */
  lemma HeardWorked(o: Outcome, s: Step)
    requires o.ok && !s.DrainIfSeen? && Do(o, s).ok && Heard(Do(o, s).world.log, |o.world.log|, s)
    ensures o.world.draws != [] && Exec(o.world, s, o.world.draws[0]).1 && !Lost(o.world)
  {
    assert Do(o, s).world.log[|o.world.log|] == Event(s, true, Do(o, s).world.seen, Lost(o.world));
    hide Exec;
  }
}
