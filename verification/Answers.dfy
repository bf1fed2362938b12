/**
 From the command runner to the node lifecycle: the draws that decide a step's outcome are what the
 runner makes of the child processes. In particular a child whose exit code cannot be determined is
 reported as a success.
 */
module Answers {
  import opened Wrappers
  import R = StandardRunner
  import opened Lifecycle
  import opened Fleet
  import opened Images
  import PlanCheck
  import Stages
  import Tools
  import A = SSHAgent
  import SSH = WaitForSSH

  /** A command without handlers. */
  predicate Plain(cmd: R.Command) {
    cmd.handler.None? && cmd.exitCodeHandlers == map[]
  }

  /** The child ran undisturbed to its end. */
  predicate Ended(cmd: R.Command, c: R.Child, signals: seq<R.Signal>) {
    R.StartError(cmd, c).None? && signals == [] && c.stdout.fails.None? && c.stderr.fails.None?
  }

  /** Its exit code cannot be determined. */
  predicate CodeLost(c: R.Child) { c.wait.Some? && c.exitCode.None? }

  /** The draw a child stands for. `signals` is the record when the run looks at it; the rest says how far
      the tool got. */
  function DrawOf(cmd: R.Command, c: R.Child, signals: seq<R.Signal>, odd: bool, done: set<Name>,
      gone: set<Name>): Draw {
    Draw(Ended(cmd, c, signals) && c.wait.None?, Ended(cmd, c, signals) && CodeLost(c), odd, done, gone, NOTHING, 0)
  }

  /** The runner's own answer, for a command without handlers: the draw reports success exactly if the
      runner does. */
  lemma PlainAnswer(cmd: R.Command, c: R.Child, signals: seq<R.Signal>, odd: bool, done: set<Name>, gone: set<Name>)
    requires Plain(cmd) && c.stdout.fails.None? && c.stderr.fails.None?
    ensures Reports(DrawOf(cmd, c, signals, odd, done, gone)) <==> R.Succeeds(cmd, c, signals)
  {}

  /** Each tool that is a command without handlers: its step reports success exactly if the runner succeeds on the
      child. */
  lemma ToolAnswer(w: World, s: Step, cmd: R.Command, c: R.Child, signals: seq<R.Signal>, odd: bool,
      done: set<Name>, gone: set<Name>)
    requires Plain(cmd) && c.stdout.fails.None? && c.stderr.fails.None?
    requires || s == RemoteInit || s == RemoteApply || s == TfInit || (s == TfApply && w.file.Some?)
             || s.Drain? || s.SshReset? || s.DeleteNode? || s == EncryptKubeconfig
    ensures Exec(w, s, DrawOf(cmd, c, signals, odd, done, gone)).1 <==> R.Succeeds(cmd, c, signals)
  {
    PlainAnswer(cmd, c, signals, odd, done, gone);
    hide PartlyApplied;
  }

  /** Terraform's output is decoded by an output handler. */
  lemma OutputAnswer(w: World, cmd: R.Command, c: R.Child, signals: seq<R.Signal>, d: Draw)
    requires cmd.handler.Some? && cmd.exitCodeHandlers == map[]
    requires var fine := Ended(cmd, c, signals) && cmd.handler.value.verdict(R.Sees(cmd, c)).None?;
             (d.works <==> fine && c.wait.None?) && (d.lost <==> fine && CodeLost(c))
    ensures Exec(w, TfOutput, d).1 <==> R.Succeeds(cmd, c, signals)
  {
    hide R.Sees;
  }

  /** A playbook runs in the bracket of an SSH agent; its step reports success exactly if start, key and playbook
      all do. */
  lemma PlaybookAnswer(w: World, s: Step, path: string, args: seq<string>, vars: A.Vars, signals: seq<R.Signal>,
      a: A.Answers, d: Draw)
    requires s == PrepareNodes || s == JoinNodes || s == Infrastructure || s == DeployKubernetes
    requires d.works <==> A.Bracket(path, args, vars, signals, a).ok && a.command.wait.None?
    requires d.lost <==> A.Bracket(path, args, vars, signals, a).ok && CodeLost(a.command)
    ensures Exec(w, s, d).1 <==> A.AllWork(signals, a)
  {
    PlaybookStep(w, s, d);
    hide Exec, A.Bracket;
    A.BracketWorks(path, args, vars, signals, a);
    assert A.AllWork(signals, a) ==> a.command.wait.None? || CodeLost(a.command);
    hide A.AllWork;
  }

  lemma PlaybookStep(w: World, s: Step, d: Draw)
    requires s == PrepareNodes || s == JoinNodes || s == Infrastructure || s == DeployKubernetes
    ensures Exec(w, s, d).1 <==> d.works || d.lost
  {}

  /** What the process does itself succeeds exactly if the system lets it. */
  lemma FileAnswer(w: World, s: Step, d: Draw)
    requires || s == RemoteConfig || s == WriteTFVars || s == WriteInfraJSON || s == WriteInventory
             || (s == ReadConfig && w.file.Some?)
    ensures Exec(w, s, d).1 <==> d.works
  {}

  /** Waiting for a machine succeeds exactly if an attempt to connect that starts in time is answered. */
  lemma WaitAnswer(w: World, n: Name, ssh: SSH.World, timeout: nat, d: Draw)
    requires d.works <==> exists i: nat :: SSH.Answers(ssh, timeout, i)
    ensures Exec(w, WaitSSH(n), d).1
       <==> exists i: nat :: ssh.attempt(i).connects && SSH.StartOf(ssh, i) <= timeout
                          && forall j :: 0 <= j < i ==> !ssh.attempt(j).connects
  {
    assert forall i: nat :: SSH.Answers(ssh, timeout, i) <==>
             && ssh.attempt(i).connects && SSH.StartOf(ssh, i) <= timeout
             && forall j :: 0 <= j < i ==> !ssh.attempt(j).connects;
  }

  /** What is looked up in the process's memory or in the Terraform state is found exactly if it is there. */
  lemma LookupAnswer(w: World, n: Name, t: NodeType, i: string, d: Draw)
    ensures Exec(w, FindState(n), d).1 <==> n in Infra(w)
    ensures Exec(w, FindConfigured(n), d).1 <==> n in Mem(w)
    ensures Exec(w, Build(t, i), d).1 <==>
              t in w.cfg.images && w.cfg.images[t] != [] && (i == "" || exists x :: x in w.cfg.images[t] && x.name == i)
  {
    if t in w.cfg.images && w.cfg.images[t] != [] && i != "" {
      var r := Lookup(w.cfg.images[t], i);
    }
  }

  /** A kubeadm reset that ended with exit code 0 removed the kubelet configuration; `odd` says whether one
      that did not removed it too. The step reports success exactly if the runner does, and it does so with
      the configuration still there exactly if the exit code was lost on a reset without effect. */
  lemma ResetAnswer(w: World, n: Name, cmd: R.Command, c: R.Child, signals: seq<R.Signal>, odd: bool)
    requires Plain(cmd) && c.stdout.fails.None? && c.stderr.fails.None? && n in w.kubelets
    ensures var (w', ok) := Exec(w, SshReset(n), DrawOf(cmd, c, signals, odd, {}, {}));
            && (ok <==> R.Succeeds(cmd, c, signals))
            && (ok && n in w'.kubelets <==> Ended(cmd, c, signals) && CodeLost(c) && !odd)
  {
    PlainAnswer(cmd, c, signals, odd, {}, {});
  }

  /** What a Terraform command says of a plan for world `w`: if it is asked for detailed exit codes, it exits with 0
      only with an empty plan, and with 2 after the summary line with the numbers of draw `d`; with any other exit
      code it may say anything. */
  ghost predicate Plans(w: World, d: Draw, cmd: R.Command, c: R.Child)
    requires w.file.Some?
  {
    var (a, ch, x) := PlanCounts(w, Stages.Want(w), d);
    cmd.args != [] && cmd.args[0] == "plan" && "-detailed-exitcode" in cmd.args ==>
      && (c.wait.None? ==> (a, ch, x) == (0, 0, 0))
      && (c.wait.Some? && c.exitCode == Some(2) ==> c.stdout.bytes == PlanCheck.Summary(a, ch, x))
  }

  /** The plan step is the runner's plan: the check passes in the lifecycle exactly if the runner succeeds
      on a child that exits with 0 or 2, or whose exit code is lost. */
  lemma PlanAnswer(w: World, args: seq<string>, c: R.Child, signals: seq<R.Signal>, d: Draw)
    requires w.file.Some? && Plans(w, d, Tools.PlanCommand(args), c)
    requires var cmd := Tools.PlanCommand(args);
             && (d.works <==> Ended(cmd, c, signals) && (c.wait.None? || c.exitCode == Some(2)))
             && (d.lost <==> Ended(cmd, c, signals) && CodeLost(c))
    ensures Exec(w, TfPlan, d).1 <==> R.Succeeds(Tools.PlanCommand(args), c, signals)
  {
    var (a, ch, x) := PlanCounts(w, Stages.Want(w), d);
    Tools.PlanHandlerSees(args, c);
    hide PlanCounts;
    assert Tools.PlanCommand(args).args == ["plan"] + args + ["-detailed-exitcode"];
    if c.wait.None? { PlanCheck.AcceptedExactly(0, 0, 0); }
  }

  /** The client is told that the node is missing: the question was asked undisturbed and all of stderr was
      read and says "not found", whatever it is about. */
  ghost predicate ToldMissing(cmd: R.Command, c: R.Child, signals: seq<R.Signal>) {
    R.StartError(cmd, c).None? && signals == [] && Tools.SaysNotFound(c)
  }

  /** The existence step is the client's question: it goes on exactly if the client gets no error, and the
      node counts as seen exactly if the client is told that it exists. kubectl exits with 0 only for a node
      that is there; the draw is odd where "not found" is said although it is. */
  lemma NodeAnswer(w: World, n: Name, node: string, c: R.Child, signals: seq<R.Signal>, d: Draw)
    requires c.wait.None? ==> n in w.nodes
    requires var cmd := Tools.GetNodeCommand(node);
             && (d.works <==> ToldMissing(cmd, c, signals) || (Ended(cmd, c, signals) && c.wait.None?))
             && (d.lost <==> Ended(cmd, c, signals) && CodeLost(c))
             && (d.odd <==> ToldMissing(cmd, c, signals))
    ensures var (w', ok) := Exec(w, GetNode(n), d);
            var cmd := Tools.GetNodeCommand(node);
            && (ok <==> R.Succeeds(cmd, c, signals) || ToldMissing(cmd, c, signals))
            && (ok ==> (w'.seen <==> R.Succeeds(cmd, c, signals)))
  {
    Tools.NodeHandlerSees(node, c);
  }
}
