/** The commands whose output the tool interprets: does a node exist, does a plan have a diff. */
module Tools {
  import opened Wrappers
  import opened Errors
  import opened StandardRunner
  import opened Text
  import PlanCheck

  const NODE_NOT_FOUND := "kubernetes node not found"
  const PLAN_HAS_DIFF := "terraform plan has diff"

  /** The sentinels are private to this code: no error from the outside is or wraps one. */
  ghost predicate Foreign(c: Child, id: string) {
    && (c.stdoutPipe.Some? ==> !Is(c.stdoutPipe.value, id))
    && (c.stderrPipe.Some? ==> !Is(c.stderrPipe.value, id))
    && (c.start.Some? ==> !Is(c.start.value, id))
    && (c.stdout.fails.Some? ==> !Is(c.stdout.fails.value, id))
    && (c.stderr.fails.Some? ==> !Is(c.stderr.fails.value, id))
    && (c.wait.Some? ==> !Is(c.wait.value, id))
  }

  /******* kubectl get node *******/

  function NodeVerdict(s: Seen): Option<Err> {
    if s.stderrErr.Some? then s.stderrErr
    else if Contains(s.stderr, "not found") then Some(Leaf(NODE_NOT_FOUND))
    else None
  }

  function GetNodeCommand(node: string): Command {
    Command("sops", ["exec-file", "kubeconfig", "kubectl get node " + node],
            Some(OutputHandler([AllStderr], NodeVerdict)), map[], false)
  }

  /** The handler reads the whole of stderr and nothing else. */
  lemma NodeHandlerSees(node: string, c: Child)
    ensures Sees(GetNodeCommand(node), c) == Seen("", c.stderr.bytes, None, c.stderr.fails)
  {
    var rs := [AllStderr];
    assert rs[..0] == [];
    assert Serve(c, rs) == (Reading(0, None), ReadRest(c.stderr, Reading(0, None)));
  }

  ghost predicate SaysNotFound(c: Child) {
    c.stderr.fails.None? && Contains(c.stderr.bytes, "not found")
  }

  /** The reported errors contain "node not found" exactly when the command started, no signal was on
      record, and all of stderr was read and said so. */
  lemma NotFoundReported(node: string, c: Child, signals: seq<Signal>)
    requires Foreign(c, NODE_NOT_FOUND)
    ensures AnyIs(Reported(GetNodeCommand(node), c, signals), NODE_NOT_FOUND)
       <==> StartError(GetNodeCommand(node), c).None? && signals == [] && SaysNotFound(c)
  {
    var cmd, id := GetNodeCommand(node), NODE_NOT_FOUND;
    NodeHandlerSees(node, c);
    var start := StartError(cmd, c);
    AnyListed(start, id);
    AnyListed(c.wait, id);
    AnyOne(CAUGHT_SIGNALS, id);
    var verdict := NodeVerdict(Sees(cmd, c));
    AnyListed(verdict, id);
    AnyRemaining("error reading remaining stdout", c.stdout.fails, id);
    AnyRemaining("error reading remaining stderr", c.stderr.fails, id);
    var out := Remaining("error reading remaining stdout", c.stdout.fails);
    var err := Remaining("error reading remaining stderr", c.stderr.fails);
    AnyConcat(Listed(verdict), out, id);
    AnyConcat(Listed(verdict) + out, err, id);
    AnyConcat(if signals != [] then [CAUGHT_SIGNALS] else OutputErrors(cmd, c), WaitErrors(cmd, c), id);
    AnyOne(Leaf(id), id);
    assert WaitErrors(cmd, c) == [] || WaitErrors(cmd, c) == Listed(c.wait);
  }

  /** The client's question whether a node exists: false without an error exactly when the node was
      reported missing; an interrupted run never answers "false" by mistake. */
  method NodeExists(runner: StandardRunner, node: string, c: Child) returns (exists_: bool, err: Option<Err>)
    requires Foreign(c, NODE_NOT_FOUND)
    modifies runner
    ensures var signals := old(runner.caughtSignals) + c.signals;
            (!exists_ && err.None? <==> StartError(GetNodeCommand(node), c).None? && signals == [] && SaysNotFound(c))
    ensures var signals := old(runner.caughtSignals) + c.signals;
            (exists_ <==> Succeeds(GetNodeCommand(node), c, signals))
    ensures exists_ ==> err.None?
  {
    NotFoundReported(node, c, runner.caughtSignals + c.signals);
    NodeHandlerSees(node, c);
    err := runner.Background(GetNodeCommand(node), c);
    if err.Some? {
      if Is(err.value, NODE_NOT_FOUND) {
        return false, None;
      }
      return false, err;
    }
    exists_ := true;
  }

  /** "not found" anywhere on stderr is taken for a missing node, whatever the message is about: here any
      message, of a command that ended with any exit code. */
  lemma OtherNotFoundAlsoCounts(node: string, before: string, after: string, stdout: string, wait: Option<Err>,
      exitCode: Option<int>)
    requires wait.Some? ==> !Is(wait.value, NODE_NOT_FOUND)
    ensures var c := Child(None, None, None, Output(stdout, None), Output(before + "not found" + after, None), wait,
                exitCode, [], []);
            AnyIs(Reported(GetNodeCommand(node), c, []), NODE_NOT_FOUND)
  {
    var text, phrase := before + "not found" + after, "not found";
    assert text[|before|..|before| + |phrase|] == phrase;
    assert At(text, phrase, |before|);
    NotFoundReported(node, Child(None, None, None, Output(stdout, None), Output(text, None), wait, exitCode, [], []),
                     []);
  }

  /******* terraform plan *******/

  function KeepErr(s: Seen): Option<Err> { s.stdoutErr }

  function DiffVerdict(s: Seen): Option<Err> {
    if Contains(s.stdout, PlanCheck.NEEDLE) then None else Some(Leaf(PLAN_HAS_DIFF))
  }

  function PlanCommand(args: seq<string>): Command {
    Command("terraform", ["plan"] + args + ["-detailed-exitcode"],
            Some(OutputHandler([AllStdout], KeepErr)), map[2 := DiffVerdict], false)
  }

  lemma PlanHandlerSees(args: seq<string>, c: Child)
    ensures Sees(PlanCommand(args), c) == Seen(c.stdout.bytes, "", c.stdout.fails, None)
  {
    var rs := [AllStdout];
    assert rs[..0] == [];
    assert Serve(c, rs) == (ReadRest(c.stdout, Reading(0, None)), Reading(0, None));
  }

  /** The reported errors contain "plan has diff" exactly when the command started and the wait failed with exit
      code 2 and the phrase is not in what was read; caught signals do not hide it. */
  lemma DiffReported(args: seq<string>, c: Child, signals: seq<Signal>)
    requires Foreign(c, PLAN_HAS_DIFF)
    ensures AnyIs(Reported(PlanCommand(args), c, signals), PLAN_HAS_DIFF)
       <==> && c.stdoutPipe.None? && c.stderrPipe.None? && c.start.None?
            && c.wait.Some? && c.exitCode == Some(2)
            && !Contains(c.stdout.bytes, "0 to add, 0 to change, 0 to destroy")
  {
    PlanHandlerSees(args, c);
    NotTheCaught();
    DiffIs(c);
    ReportedExactly(PlanCommand(args), c, signals, PLAN_HAS_DIFF);
    hide Reported, AnyIs, Is, Sees, Contains;
  }

  lemma NotTheCaught()
    ensures PLAN_HAS_DIFF != "caught signals"
  {
    assert |PLAN_HAS_DIFF| != |"caught signals"|;
  }

  lemma DiffIs(c: Child)
    ensures Is(Leaf(PLAN_HAS_DIFF), PLAN_HAS_DIFF)
  {}

  /** The client's check: a diff is returned as it is, any other error under an explanation. The caller can tell a
      diff from other failures exactly when there is one. */
  method CheckNoDiff(runner: StandardRunner, args: seq<string>, c: Child, background: bool, stdout: Buffer,
      stderr: Buffer)
    returns (err: Option<Err>)
    requires stdout != stderr && Foreign(c, PLAN_HAS_DIFF)
    modifies runner, stdout, stderr
    ensures err.None? <==>
      && c.stdoutPipe.None? && c.stderrPipe.None? && c.start.None? && old(runner.caughtSignals) + c.signals == []
      && c.stdout.fails.None? && c.stderr.fails.None?
      && (c.wait.None? || c.exitCode.None? || (c.exitCode.value == 2 && Contains(c.stdout.bytes, PlanCheck.NEEDLE)))
    ensures err.Some? && Is(err.value, PLAN_HAS_DIFF)
       <==> && c.stdoutPipe.None? && c.stderrPipe.None? && c.start.None?
            && c.wait.Some? && c.exitCode == Some(2)
            && !Contains(c.stdout.bytes, "0 to add, 0 to change, 0 to destroy")
    ensures err.Some? ==> err.value.Runner? || (err.value.Wrap? && !Is(err.value, PLAN_HAS_DIFF))
  {
    DiffReported(args, c, runner.caughtSignals + c.signals);
    PlanHandlerSees(args, c);
    err := runner.Run(PlanCommand(args), c, background, stdout, stderr);
    hide Sees, Reported, AnyIs, Contains;
    if err.Some? && !Is(err.value, PLAN_HAS_DIFF) {
      assert Unwrap(Wrap("error checking if Terraform plan has diff", err.value)) == err;
      err := Some(Wrap("error checking if Terraform plan has diff", err.value));
    }
  }

  /** The diff check passes exactly when it ran undisturbed and Terraform exited with 0, with 2 and the
      phrase in its output, or with an exit code that could not be determined. */
  method PlanNoDiff(runner: StandardRunner, args: seq<string>, c: Child, background: bool, stdout: Buffer,
      stderr: Buffer)
    returns (err: Option<Err>)
    requires stdout != stderr
    modifies runner, stdout, stderr
    ensures err.None? <==>
      && StartError(PlanCommand(args), c).None? && old(runner.caughtSignals) + c.signals == []
      && c.stdout.fails.None? && c.stderr.fails.None?
      && (c.wait.None? || c.exitCode.None? || (c.exitCode.value == 2 && Contains(c.stdout.bytes, PlanCheck.NEEDLE)))
  {
    PlanHandlerSees(args, c);
    err := runner.Run(PlanCommand(args), c, background, stdout, stderr);
  }

  /** For a plan whose output is the summary line, exit code 2 passes exactly for nothing to change or
      destroy and a multiple of ten to add. */
  lemma PlanPassesExactly(args: seq<string>, c: Child, a: nat, ch: nat, d: nat)
    requires StartError(PlanCommand(args), c).None? && c.wait.Some? && c.exitCode == Some(2)
    requires c.stdout == Output(PlanCheck.Summary(a, ch, d), None) && c.stderr.fails.None?
    ensures Succeeds(PlanCommand(args), c, []) <==> a % 10 == 0 && ch == 0 && d == 0
  {
    PlanHandlerSees(args, c);
    PlanCheck.AcceptedExactly(a, ch, d);
  }
}
