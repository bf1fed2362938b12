/**
 The SSH agent around a command: the parser of what `ssh-agent -c` prints, and the bracket that
 starts an agent, runs a command under it and kills it. All Ansible commands of a client share one
 environment map, which keeps the socket of the last agent.
 */
module SSHAgent {
  import opened Wrappers
  import opened Errors
  import opened Text
  import R = StandardRunner

  datatype Agent = Agent(sock: string, pid: string)

  /******* The parser *******/

  const SOCK := "SSH_AUTH_SOCK"
  const PID := "SSH_AGENT_PID"

  /** A line has to fit the scanner's buffer, with room for one more byte. */
  const BUFFER: nat := 65536

  /** What the loop over the lines leaves behind. Slicing an empty third part is a run-time error. */
  datatype Scanned = Done(found: Agent) | TooLong | Crash

  datatype Parsed = Parsed(agent: Agent) | Failed(reason: string) | Crashed

  function DropCR(line: string): string {
    if line != "" && line[|line| - 1] == '\r' then line[..|line| - 1] else line
  }

  /** One line, its parts separated by single spaces. */
  function See(f: Agent, line: string): Scanned {
    var parts := Split(line, ' ');
    if |parts| != 3 then Done(f)
    else if parts[2] == "" then Crash
    else
      var value := parts[2][..|parts[2]| - 1];
      if parts[1] == SOCK then Done(f.(sock := value))
      else if parts[1] == PID then Done(f.(pid := value))
      else Done(f)
  }

  function Scan(out: string, f: Agent): Scanned
    decreases |out|
  {
    if out == "" then Done(f)
    else
      var n := Index(out, '\n');
      if n >= BUFFER then TooLong
      else
        var s := See(f, DropCR(out[..n]));
        if s.Done? then Scan(out[if n < |out| then n + 1 else n..], s.found) else s
  }

  /** What is made of the found values; `broken` if reading the output failed. */
  function Verdict(s: Scanned, broken: bool): Parsed {
    if s.Crash? then Crashed
    else if s.TooLong? || broken then Failed("scanner error")
    else if s.found.sock == "" then Failed("SSH_AUTH_SOCK missing in ssh-agent output")
    else if s.found.pid == "" then Failed("SSH_AGENT_PID missing in ssh-agent output")
    else Parsed(s.found)
  }

  const NOTHING := Agent("", "")

  /** The output handler. */
  method ParseOutput(out: string, broken: bool) returns (p: Parsed)
    ensures p == Verdict(Scan(out, NOTHING), broken)
  {
    var authSock, pid := "", "";
    var rest := out;
    while rest != ""
      invariant Scan(rest, Agent(authSock, pid)) == Scan(out, NOTHING)
      decreases |rest|
    {
      var n := Index(rest, '\n');
      if n >= BUFFER { return Failed("scanner error"); }
      var parts := Split(DropCR(rest[..n]), ' ');
      if |parts| == 3 {
        if parts[2] == "" { return Crashed; }
        var value := parts[2][..|parts[2]| - 1];
        if parts[1] == SOCK {
          authSock := value;
        } else if parts[1] == PID {
          pid := value;
        }
      }
      rest := rest[if n < |rest| then n + 1 else n..];
    }
    if broken { return Failed("scanner error"); }
    if authSock == "" { return Failed("SSH_AUTH_SOCK missing in ssh-agent output"); }
    if pid == "" { return Failed("SSH_AGENT_PID missing in ssh-agent output"); }
    p := Parsed(Agent(authSock, pid));
  }

  /******* Parser undoes printer *******/

  predicate Plain(s: string) {
    ' ' !in s && '\n' !in s
  }

  function Setenv(key: string, value: string): string {
    Join(["setenv", key, value + ";"], ' ')
  }

  function Echo(pid: string): string {
    Join(["echo", "Agent", "pid", pid + ";"], ' ')
  }

  function Printed(a: Agent): string {
    Setenv(SOCK, a.sock) + "\n" + (Setenv(PID, a.pid) + "\n" + (Echo(a.pid) + "\n"))
  }

  lemma ScanLine(line: string, rest: string, f: Agent)
    requires '\n' !in line && |line| < BUFFER && See(f, DropCR(line)).Done?
    ensures Scan(line + "\n" + rest, f) == Scan(rest, See(f, DropCR(line)).found)
  {
    IndexOf(line, '\n', rest);
    var all := line + "\n" + rest;
    assert all[..|line|] == line && all[|line| + 1..] == rest;
  }

  lemma ScanLongLine(line: string, rest: string, f: Agent)
    requires '\n' !in line && |line| >= BUFFER
    ensures Scan(line + "\n" + rest, f) == TooLong
  {
    IndexOf(line, '\n', rest);
  }

  /** A line of words ending in a semicolon is taken apart again. */
  lemma Words(words: seq<string>, last: string)
    requires Plain(last) && forall w :: w in words ==> Plain(w)
    ensures var line := Join(words + [last + ";"], ' ');
            '\n' !in line && DropCR(line) == line && Split(line, ' ') == words + [last + ";"]
  {
    var parts := words + [last + ";"];
    JoinLacks(parts, ' ', '\n');
    JoinEnds(parts, ' ');
    SplitJoin(parts, ' ');
  }

  lemma SeeSetenv(f: Agent, key: string, value: string)
    requires Plain(key) && Plain(value)
    ensures '\n' !in Setenv(key, value) && DropCR(Setenv(key, value)) == Setenv(key, value)
    ensures See(f, Setenv(key, value))
              == Done(if key == SOCK then f.(sock := value) else if key == PID then f.(pid := value) else f)
  {
    Words(["setenv", key], value);
    assert ["setenv", key] + [value + ";"] == ["setenv", key, value + ";"];
    assert (value + ";")[..|value|] == value;
  }

  lemma SeeEcho(f: Agent, pid: string)
    requires Plain(pid)
    ensures '\n' !in Echo(pid) && DropCR(Echo(pid)) == Echo(pid) && See(f, Echo(pid)) == Done(f)
  {
    Words(["echo", "Agent", "pid"], pid);
    assert ["echo", "Agent", "pid"] + [pid + ";"] == ["echo", "Agent", "pid", pid + ";"];
  }

  /** Both lines fit. */
  predicate Fits(a: Agent) {
    |Setenv(SOCK, a.sock)| < BUFFER && |Setenv(PID, a.pid)| < BUFFER
  }

  lemma EchoShorter(pid: string)
    ensures |Echo(pid)| < |Setenv(PID, pid)|
  {
    var last := pid + ";";
    assert ["setenv", PID, last][1..] == [PID, last];
    assert ["echo", "Agent", "pid", last][1..] == ["Agent", "pid", last];
    assert ["Agent", "pid", last][1..] == ["pid", last];
    assert |Join([PID, last], ' ')| == 14 + |last|;
    assert |Join(["pid", last], ' ')| == 4 + |last|;
    assert |Join(["Agent", "pid", last], ' ')| == 10 + |last|;
  }

  lemma ScanPrinted(a: Agent)
    requires Plain(a.sock) && Plain(a.pid)
    ensures Scan(Printed(a), NOTHING) == if Fits(a) then Done(a) else TooLong
  {
    EchoShorter(a.pid);
    var echo := Echo(a.pid);
    var rest := Setenv(PID, a.pid) + "\n" + (echo + "\n");
    SeeSetenv(NOTHING, SOCK, a.sock);
    SeeSetenv(Agent(a.sock, ""), PID, a.pid);
    SeeEcho(a, a.pid);
    if |Setenv(SOCK, a.sock)| >= BUFFER {
      ScanLongLine(Setenv(SOCK, a.sock), rest, NOTHING);
    } else {
      ScanLine(Setenv(SOCK, a.sock), rest, NOTHING);
      if |Setenv(PID, a.pid)| >= BUFFER {
        ScanLongLine(Setenv(PID, a.pid), echo + "\n", Agent(a.sock, ""));
      } else {
        ScanLine(Setenv(PID, a.pid), echo + "\n", Agent(a.sock, ""));
        assert echo + "\n" == echo + "\n" + "";
        ScanLine(echo, "", a);
      }
    }
  }

  /** The parser gives back the printed socket and pid exactly when neither is empty and both lines fit;
      otherwise it gives an error. */
  lemma ParseUndoesPrint(a: Agent)
    requires Plain(a.sock) && Plain(a.pid)
    ensures Verdict(Scan(Printed(a), NOTHING), false) == Parsed(a) <==> a.sock != "" && a.pid != "" && Fits(a)
    ensures !(a.sock != "" && a.pid != "" && Fits(a)) ==> Verdict(Scan(Printed(a), NOTHING), false).Failed?
  {
    ScanPrinted(a);
  }

  /** The lines the scanner delivers when all of them fit. */
  function Lines(out: string): seq<string>
    decreases |out|
  {
    if out == "" then []
    else
      var n := Index(out, '\n');
      [DropCR(out[..n])] + Lines(out[if n < |out| then n + 1 else n..])
  }

  predicate Concerns(line: string, key: string) {
    |Split(line, ' ')| == 3 && Split(line, ' ')[1] == key
  }

  /** A line of three parts that assigns `value` to `key`; the last character of the third part is cut off. */
  predicate Assigns(line: string, key: string, value: string) {
    Concerns(line, key) && |Split(line, ' ')[2]| == |value| + 1 && value <= Split(line, ' ')[2]
  }

  /** The value of `key` after one more line. */
  function NextValue(line: string, key: string, before: string): string {
    var parts := Split(line, ' ');
    if Concerns(line, key) && parts[2] != "" then parts[2][..|parts[2]| - 1] else before
  }

  /** The value assigned on the way through `lines`, starting with `before`. */
  function LastValue(lines: seq<string>, key: string, before: string): string
    decreases |lines|
  {
    if lines == [] then before else LastValue(lines[1..], key, NextValue(lines[0], key, before))
  }

  /** No line lacks its third part, which would end the scan. */
  ghost predicate Sound(lines: seq<string>) {
    forall l :: l in lines && |Split(l, ' ')| == 3 ==> Split(l, ' ')[2] != ""
  }

  ghost predicate Assigned(lines: seq<string>, key: string, value: string) {
    exists k :: 0 <= k < |lines| && Assigns(lines[k], key, value) && forall j :: k < j < |lines| ==>
        !Concerns(lines[j], key)
  }

  lemma SeeNext(f: Agent, line: string)
    requires See(f, line).Done?
    ensures See(f, line).found == Agent(NextValue(line, SOCK, f.sock), NextValue(line, PID, f.pid)) && Sound([line])
  {
    assert SOCK != PID by { assert SOCK[5] != PID[5]; }
    hide Split;
  }

  lemma {:induction false} ScanFinds(out: string, f: Agent)
    requires Scan(out, f).Done?
    ensures Scan(out, f).found == Agent(LastValue(Lines(out), SOCK, f.sock), LastValue(Lines(out), PID, f.pid))
    ensures Sound(Lines(out))
    decreases |out|
  {
    hide See, Split, NextValue;
    if out != "" {
      var n := Index(out, '\n');
      var line := DropCR(out[..n]);
      var rest := out[if n < |out| then n + 1 else n..];
      SeeNext(f, line);
      ScanFinds(rest, See(f, line).found);
      assert line in [line] && Lines(out) == [line] + Lines(rest);
      assert Lines(out)[0] == line && Lines(out)[1..] == Lines(rest);
    }
  }

  /** It is the value of the last line that concerns the key. */
  lemma {:induction false} LastValueAssigned(lines: seq<string>, key: string, before: string)
    requires Sound(lines)
    ensures || Assigned(lines, key, LastValue(lines, key, before))
            || (LastValue(lines, key, before) == before && forall j :: 0 <= j < |lines| ==> !Concerns(lines[j], key))
    decreases |lines|
  {
    hide Split;
    if lines != [] {
      var rest := lines[1..];
      assert lines[0] in lines && forall l :: l in rest ==> l in lines;
      var mid := NextValue(lines[0], key, before);
      var v := LastValue(lines, key, before);
      assert v == LastValue(rest, key, mid);
      LastValueAssigned(rest, key, mid);
      assert if Concerns(lines[0], key) then Assigns(lines[0], key, mid) else mid == before;
      hide Assigns, Concerns, LastValue, NextValue, Sound;
      assert forall j :: 0 < j < |lines| ==> lines[j] == rest[j - 1];
      if Assigned(rest, key, v) {
        var k :| 0 <= k < |rest| && Assigns(rest[k], key, v) && forall j :: k < j < |rest| ==> !Concerns(rest[j], key);
        assert Assigns(lines[k + 1], key, v);
      } else if Concerns(lines[0], key) {
        assert Assigns(lines[0], key, v);
      }
    }
  }

  /** Accepted output has a last line for each key that assigns a non-empty value, and those values are
      returned; so output without one of the keys is an error. */
  lemma AcceptedAssignsBoth(out: string, broken: bool)
    requires Verdict(Scan(out, NOTHING), broken).Parsed?
    ensures var a := Verdict(Scan(out, NOTHING), broken).agent;
            a.sock != "" && a.pid != "" && Assigned(Lines(out), SOCK, a.sock) && Assigned(Lines(out), PID, a.pid)
  {
    ScanFinds(out, NOTHING);
    LastValueAssigned(Lines(out), SOCK, "");
    LastValueAssigned(Lines(out), PID, "");
  }

  /******* Starting the agent *******/

  /** The output handler's answer to the runner; a run-time error in it ends the program, here like an error. */
  function AgentVerdict(s: R.Seen): Option<Err> {
    match Verdict(Scan(s.stdout, NOTHING), s.stdoutErr.Some?)
    case Parsed(_) => None
    case Failed(reason) => Some(Leaf(reason))
    case Crashed => Some(Leaf("slice bounds out of range"))
  }

  function StartCommand(): R.Command {
    R.Command("ssh-agent", ["-c"], Some(R.OutputHandler([R.AllStdout], AgentVerdict)), map[], false)
  }

  lemma StartSees(c: R.Child)
    ensures R.Sees(StartCommand(), c) == R.Seen(c.stdout.bytes, "", c.stdout.fails, None)
  {
    var rs := [R.AllStdout];
    assert rs[..0] == [];
    assert R.Serve(c, rs) == (R.ReadRest(c.stdout, R.Reading(0, None)), R.Reading(0, None));
  }

  /** What a start returns: the printed agent if the runner has nothing to report, otherwise an error. */
  function Returned(c: R.Child, signals: seq<R.Signal>): Option<Agent> {
    var v := Verdict(Scan(c.stdout.bytes, NOTHING), c.stdout.fails.Some?);
    if R.Succeeds(StartCommand(), c, signals) && v.Parsed? then Some(v.agent) else None
  }

  /** The runner succeeds only on output that parses. */
  lemma SuccessParses(c: R.Child, signals: seq<R.Signal>)
    ensures R.Succeeds(StartCommand(), c, signals) <==> Returned(c, signals).Some?
  {
    StartSees(c);
  }

  /******* The bracket *******/

  type Vars = map<string, string>

  /** What happens on the machine. A start that returns an error may leave an agent behind; a kill may fail
      to end one. */
  datatype Action =
    | Started(agent: Agent)
    | StartFailed(left: Option<Agent>)
    | KeyAdded(sock: string, ok: bool)
    | Ran(args: seq<string>, vars: Vars, ok: bool)
    | Killed(pid: string, dies: bool)

  /** How the commands of one bracket turn out: the agent that `ssh-agent` launches, if it gets that far, and the
      child processes. Where the start returns no error, the agent launched is the one printed. */
  datatype Answers = Answers(launched: Option<Agent>, start: R.Child, key: R.Child, command: R.Child, kill: R.Child)

  /** A kill that started and exited with 0 ends its agent, whatever the runner reports of it. */
  predicate Kills(pid: string, c: R.Child) {
    R.StartError(KillCommand(pid), c).None? && c.wait.None?
  }

  function KeyCommand(path: string): R.Command {
    R.Command("sops", ["exec-file", path, "ssh-add \"{}\""], None, map[], false)
  }

  function KillCommand(pid: string): R.Command { R.Command("kill", [pid], None, map[], false) }

  /** What the kill command that is run does: it signals the process it names. */
  function KillOf(pid: string, c: R.Child): Action {
    Killed(KillCommand(pid).args[0], Kills(pid, c))
  }

  function PlaybookCommand(args: seq<string>): R.Command { R.Command("ansible-playbook", args, None, map[], false) }

  /** Everything a bracket does: actions, the shared map, the runner's record of signals, and its result. */
  datatype Effect = Effect(log: seq<Action>, vars: Vars, signals: seq<R.Signal>, ok: bool)

  function Bracket(path: string, args: seq<string>, vars: Vars, signals: seq<R.Signal>, a: Answers): Effect {
    var s1 := R.RecordAfter(signals, StartCommand(), a.start);
    var agent := Returned(a.start, signals + a.start.signals);
    if agent.None? then Effect([StartFailed(a.launched)], vars, s1, false)
    else
      var keyed := R.Succeeds(KeyCommand(path), a.key, s1 + a.key.signals);
      var s2 := R.RecordAfter(s1, KeyCommand(path), a.key);
      var inner := Under(agent.value, args, vars, s2, keyed, a);
      var killed := [KillOf(agent.value.pid, a.kill)];
      Effect([Started(agent.value), KeyAdded(agent.value.sock, keyed)] + inner.log + killed,
             inner.vars, R.RecordAfter(inner.signals, KillCommand(agent.value.pid), a.kill), inner.ok)
  }

  /** The wrapped command, if the key was added. */
  function Under(agent: Agent, args: seq<string>, vars: Vars, signals: seq<R.Signal>, keyed: bool, a: Answers): Effect {
    if !keyed then Effect([], vars, signals, false)
    else
      var wrapped, cmd := vars[SOCK := agent.sock], PlaybookCommand(args);
      var ok := R.Succeeds(cmd, a.command, signals + a.command.signals);
      Effect([Ran(args, wrapped, ok)], wrapped, R.RecordAfter(signals, cmd, a.command), ok)
  }

  /** `ssh-agent`, adding the key and the playbook all start and exit with 0, or with an exit code that cannot be
      determined; the agent's output parses; and no signal reaches the record before the playbook is checked. */
  predicate AllWork(signals: seq<R.Signal>, a: Answers) {
    && signals == a.start.signals == a.start.late == a.key.signals == a.key.late == a.command.signals == []
    && a.start.stdoutPipe.None? && a.start.stderrPipe.None? && a.start.start.None?
    && a.start.stdout.fails.None? && a.start.stderr.fails.None?
    && Verdict(Scan(a.start.stdout.bytes, NOTHING), false).Parsed? && (a.start.wait.None? || a.start.exitCode.None?)
    && a.key.start.None? && (a.key.wait.None? || a.key.exitCode.None?)
    && a.command.start.None? && (a.command.wait.None? || a.command.exitCode.None?)
  }

  /** A bracket succeeds exactly if all three commands do, on the children themselves. The wrapped command runs,
      with its own arguments, exactly if an agent was returned and its key added. */
  lemma BracketSucceedsExactly(path: string, args: seq<string>, vars: Vars, signals: seq<R.Signal>, a: Answers)
    ensures Bracket(path, args, vars, signals, a).ok <==>
      && signals == [] && a.start.signals == [] && a.start.late == []
      && a.start.stdoutPipe.None? && a.start.stderrPipe.None? && a.start.start.None?
      && a.start.stdout.fails.None? && a.start.stderr.fails.None?
      && Verdict(Scan(a.start.stdout.bytes, NOTHING), false).Parsed? && (a.start.wait.None? || a.start.exitCode.None?)
      && a.key.signals == [] && a.key.late == []
      && a.key.start.None? && (a.key.wait.None? || a.key.exitCode.None?)
      && a.command.signals == []
      && a.command.start.None? && (a.command.wait.None? || a.command.exitCode.None?)
    ensures var log := Bracket(path, args, vars, signals, a).log;
            && (forall x :: x in log && x.Ran? ==> x.args == args && x.ok == Bracket(path, args, vars, signals, a).ok)
            && ((exists x :: x in log && x.Ran?) <==>
                  && signals == [] && a.start.signals == [] && a.start.late == []
                  && a.start.stdoutPipe.None? && a.start.stderrPipe.None? && a.start.start.None?
                  && a.start.stdout.fails.None? && a.start.stderr.fails.None?
                  && Verdict(Scan(a.start.stdout.bytes, NOTHING), false).Parsed?
                  && (a.start.wait.None? || a.start.exitCode.None?)
                  && a.key.signals == []
                  && a.key.start.None? && (a.key.wait.None? || a.key.exitCode.None?))
  {
    StartSees(a.start);
    SuccessParses(a.start, signals + a.start.signals);
    var log := Bracket(path, args, vars, signals, a).log;
    var agent := Returned(a.start, signals + a.start.signals);
    hide Scan, Verdict, R.Sees;
    if agent.Some? {
      assert log[1].KeyAdded? && (log[1].ok ==> log[2].Ran? && log[2] in log);
    }
  }

  lemma BracketWorks(path: string, args: seq<string>, vars: Vars, signals: seq<R.Signal>, a: Answers)
    ensures Bracket(path, args, vars, signals, a).ok <==> AllWork(signals, a)
    ensures Bracket(path, args, vars, signals, a).log != []
  {
    BracketSucceedsExactly(path, args, vars, signals, a);
    hide Scan, Verdict, Returned, R.Succeeds;
  }

  class Env {
    var vars: Vars

    constructor (vars: Vars)
      ensures this.vars == vars
    {
      this.vars := vars;
    }
  }

  class SSHAgentRunner {
    const runner: R.StandardRunner
    const privateKeyPath: string
    const background: bool
    const stdout: R.Buffer
    const stderr: R.Buffer
    var log: seq<Action>

    ghost predicate Valid() { stdout != stderr }

    constructor (runner: R.StandardRunner, privateKeyPath: string, background: bool, stdout: R.Buffer, stderr: R.Buffer)
      requires stdout != stderr
      ensures Valid() && log == []
      ensures this.runner == runner && this.privateKeyPath == privateKeyPath
    {
      this.runner, this.privateKeyPath, this.background := runner, privateKeyPath, background;
      this.stdout, this.stderr := stdout, stderr;
      log := [];
    }

    /** The handler's variables are what is returned beside the runner's error. */
    method Start(a: Answers) returns (agent: Option<Agent>)
      modifies this, runner
      ensures agent == Returned(a.start, old(runner.caughtSignals) + a.start.signals)
      ensures runner.caughtSignals == R.RecordAfter(old(runner.caughtSignals), StartCommand(), a.start)
      ensures log == old(log) + [if agent.Some? then Started(agent.value) else StartFailed(a.launched)]
    {
      SuccessParses(a.start, runner.caughtSignals + a.start.signals);
      var p := ParseOutput(a.start.stdout.bytes, a.start.stdout.fails.Some?);
      var err := runner.Background(StartCommand(), a.start);
      agent := if err.None? then Some(p.agent) else None;
      log := log + [if agent.Some? then Started(agent.value) else StartFailed(a.launched)];
    }

    /** Adding the key is a command with an environment of its own. */
    method SOPSAddKey(sock: string, c: R.Child) returns (ok: bool)
      modifies this, runner
      ensures ok == R.Succeeds(KeyCommand(privateKeyPath), c, old(runner.caughtSignals) + c.signals)
      ensures runner.caughtSignals == R.RecordAfter(old(runner.caughtSignals), KeyCommand(privateKeyPath), c)
      ensures log == old(log) + [KeyAdded(sock, ok)]
    {
      var env := new Env(map[]);
      WrapCommand(sock, env);
      var err := runner.Background(KeyCommand(privateKeyPath), c);
      ok := err.None?;
      log := log + [KeyAdded(env.vars[SOCK], ok)];
    }

    /** The error of a kill is only written to the program's own log. */
    method Kill(pid: string, c: R.Child)
      modifies this, runner
      ensures runner.caughtSignals == R.RecordAfter(old(runner.caughtSignals), KillCommand(pid), c)
      ensures log == old(log) + [KillOf(pid, c)]
    {
      var _ := runner.Background(KillCommand(pid), c);
      log := log + [KillOf(pid, c)];
    }

    static method WrapCommand(sock: string, env: Env)
      modifies env
      ensures env.vars == old(env.vars)[SOCK := sock]
    {
      env.vars := env.vars[SOCK := sock];
    }

    /** The command sees the environment map as it is when it runs. */
    method Inner(args: seq<string>, env: Env, c: R.Child) returns (ok: bool)
      requires Valid()
      modifies this, runner, stdout, stderr
      ensures ok == R.Succeeds(PlaybookCommand(args), c, old(runner.caughtSignals) + c.signals)
      ensures runner.caughtSignals == R.RecordAfter(old(runner.caughtSignals), PlaybookCommand(args), c)
      ensures log == old(log) + [Ran(args, env.vars, ok)]
    {
      ghost var signals := runner.caughtSignals;
      var err := runner.Run(PlaybookCommand(args), c, background, stdout, stderr);
      ok := err.None?;
      log := log + [Ran(args, env.vars, ok)];
    }

    /** An agent whose start returned no error is killed on every path. */
    method WithSSHAgent(args: seq<string>, env: Env, a: Answers) returns (ok: bool)
      requires Valid()
      modifies this, runner, stdout, stderr, env
      ensures Effect(log, env.vars, runner.caughtSignals, ok)
           == (var e := Bracket(privateKeyPath, args, old(env.vars), old(runner.caughtSignals), a);
               e.(log := old(log) + e.log))
    {
      hide R.Succeeds, R.RecordAfter, Returned, Kills;
      ghost var before := log;
      var agent := Start(a);
      if agent.None? { return false; }
      var added := SOPSAddKey(agent.value.sock, a.key);
      if !added {
        Kill(agent.value.pid, a.kill);
        assert log == before + ([Started(agent.value), KeyAdded(agent.value.sock, false)] + []
            + [KillOf(agent.value.pid, a.kill)]);
        return false;
      }
      WrapCommand(agent.value.sock, env);
      ok := Inner(args, env, a.command);
      Kill(agent.value.pid, a.kill);
    }

    /** It succeeds exactly if starting the agent, adding the key and the command all do. */
    method Run(args: seq<string>, env: Env, a: Answers) returns (ok: bool)
      requires Valid()
      modifies this, runner, stdout, stderr, env
      ensures Effect(log, env.vars, runner.caughtSignals, ok)
           == (var e := Bracket(privateKeyPath, args, old(env.vars), old(runner.caughtSignals), a);
               e.(log := old(log) + e.log))
      ensures ok <==> AllWork(old(runner.caughtSignals), a)
    {
      BracketWorks(privateKeyPath, args, env.vars, runner.caughtSignals, a);
      hide Bracket, AllWork;
      ok := WithSSHAgent(args, env, a);
    }
  }

  const CONFIG := "ANSIBLE_CONFIG"

  datatype Playbook = Playbook(path: string, extra: seq<string>)

  function Args(inventory: string, p: Playbook): seq<string> {
    ["-i", inventory] + p.extra + [p.path]
  }

  /** A playbook's bracket over the shared map, with the configuration's path put into it first. */
  function PlaybookEffect(cfg: Settings, vars: Vars, signals: seq<R.Signal>, p: Playbook, a: Answers): Effect {
    Bracket(cfg.key, Args(cfg.inventory, p), vars[CONFIG := cfg.config], signals, a)
  }

  datatype Settings = Settings(key: string, config: string, inventory: string)

  /** The playbook that runs is the one asked for, over the inventory and with the configuration given. */
  lemma PlaybookRuns(cfg: Settings, vars: Vars, signals: seq<R.Signal>, p: Playbook, a: Answers)
    ensures var e := PlaybookEffect(cfg, vars, signals, p, a);
            forall x :: x in e.log && x.Ran? ==>
              && x.args == ["-i", cfg.inventory] + p.extra + [p.path] && x.ok == e.ok
              && CONFIG in x.vars && x.vars[CONFIG] == cfg.config
  {
    BracketSucceedsExactly(cfg.key, Args(cfg.inventory, p), vars[CONFIG := cfg.config], signals, a);
    RanSees(cfg.key, Args(cfg.inventory, p), vars[CONFIG := cfg.config], signals, a);
    hide Bracket, Scan, Verdict;
  }

  /** Of the variables only the agent's socket is set for the wrapped command. */
  lemma RanSees(path: string, args: seq<string>, vars: Vars, signals: seq<R.Signal>, a: Answers)
    requires CONFIG in vars
    ensures forall x :: x in Bracket(path, args, vars, signals, a).log && x.Ran? ==>
              CONFIG in x.vars && x.vars[CONFIG] == vars[CONFIG]
  {
    assert SOCK != CONFIG by { assert |SOCK| != |CONFIG|; }
    hide R.Succeeds, R.RecordAfter, Returned, KillOf;
  }

  lemma PlaybookActs(cfg: Settings, vars: Vars, signals: seq<R.Signal>, p: Playbook, a: Answers)
    ensures PlaybookEffect(cfg, vars, signals, p, a).log != []
  {
    BracketWorks(cfg.key, Args(cfg.inventory, p), vars[CONFIG := cfg.config], signals, a);
    hide Bracket;
  }

  /** Effects of a number of playbooks run in order, each with its answers, over one shared map and record. */
  function Session(cfg: Settings, vars: Vars, signals: seq<R.Signal>, runs: seq<(Playbook, Answers)>): Effect {
    if runs == [] then Effect([], vars, signals, true)
    else
      var before := Session(cfg, vars, signals, runs[..|runs| - 1]);
      var (p, a) := runs[|runs| - 1];
      var e := PlaybookEffect(cfg, before.vars, before.signals, p, a);
      e.(log := before.log + e.log)
  }

  /** What was done before, then this. */
  function After(before: Effect, e: Effect): Effect { e.(log := before.log + e.log) }

  /** Two playbooks, the second only after the first succeeded. */
  function BothEffect(cfg: Settings, vars: Vars, signals: seq<R.Signal>, p: Playbook, a: Answers, q: Playbook,
      b: Answers): Effect {
    var first := PlaybookEffect(cfg, vars, signals, p, a);
    if first.ok then After(first, PlaybookEffect(cfg, first.vars, first.signals, q, b)) else first
  }

  /** One playbook, or two, are a session. */
  lemma BothAreSessions(cfg: Settings, vars: Vars, signals: seq<R.Signal>, p: Playbook, a: Answers, q: Playbook,
      b: Answers)
    ensures Session(cfg, vars, signals, [(p, a)]) == PlaybookEffect(cfg, vars, signals, p, a)
    ensures BothEffect(cfg, vars, signals, p, a, q, b)
         == Session(cfg, vars, signals, if PlaybookEffect(cfg, vars, signals, p, a).ok then [(p, a), (q, b)]
             else [(p, a)])
  {
    hide PlaybookEffect;
    assert [(p, a)][..0] == [] && [(p, a), (q, b)][..1] == [(p, a)];
    var e := PlaybookEffect(cfg, vars, signals, p, a);
    assert [] + e.log == e.log;
  }

  class Ansible {
    const runner: SSHAgentRunner
    const env: Env
    const config: string
    const inventory: string
    const kubeconfig: string

    ghost predicate Valid() { runner.Valid() }

    function Paths(): Settings { Settings(runner.privateKeyPath, config, inventory) }

    constructor (runner: SSHAgentRunner, env: Env, config: string, inventory: string, kubeconfig: string)
      requires runner.Valid()
      ensures Valid() && this.runner == runner && this.env == env
      ensures this.config == config && this.inventory == inventory && this.kubeconfig == kubeconfig
    {
      this.runner, this.env := runner, env;
      this.config, this.inventory, this.kubeconfig := config, inventory, kubeconfig;
    }

    function State(): Effect
      reads runner, env, runner.runner
    {
      Effect(runner.log, env.vars, runner.runner.caughtSignals, true)
    }

    /** The command gets the shared map itself, not a copy. */
    method MakeCommand(p: Playbook) returns (args: seq<string>, e: Env)
      modifies env
      ensures args == Args(inventory, p) && e == env
      ensures env.vars == old(env.vars)[CONFIG := config]
    {
      args := ["-i", inventory];
      args := args + p.extra;
      args := args + [p.path];
      e := env;
      e.vars := e.vars[CONFIG := config];
    }

    method RunPlaybook(p: Playbook, a: Answers) returns (ok: bool)
      requires Valid()
      modifies runner, runner.runner, runner.stdout, runner.stderr, env
      ensures State().(ok := ok)
           == (var before := old(State()); After(before, PlaybookEffect(Paths(), before.vars, before.signals, p, a)))
      ensures ok <==> AllWork(old(State()).signals, a)
      ensures old(State()).log <= State().log
      ensures forall i :: |old(State()).log| <= i < |State().log| && State().log[i].Ran? ==>
                && State().log[i].args == ["-i", inventory] + p.extra + [p.path] && State().log[i].ok == ok
                && CONFIG in State().log[i].vars && State().log[i].vars[CONFIG] == config
    {
      ghost var before := State();
      PlaybookRuns(Paths(), before.vars, before.signals, p, a);
      hide Bracket;
      var args, e := MakeCommand(p);
      ok := runner.Run(args, e, a);
    }

    method DeployKubernetes(path: string, a: Answers) returns (ok: bool)
      requires Valid()
      modifies runner, runner.runner, runner.stdout, runner.stderr, env
      ensures State().(ok := ok)
           == (var before, p := old(State()), Playbook(path, ["--extra-vars", "kubeconfig_path=" + kubeconfig]);
               After(before, PlaybookEffect(Paths(), before.vars, before.signals, p, a)))
      ensures ok <==> AllWork(old(State()).signals, a)
    {
      ok := RunPlaybook(Playbook(path, ["--extra-vars", "kubeconfig_path=" + kubeconfig]), a);
    }

    /** Two playbooks under an agent each; the second only after the first succeeded. */
    method JoinCluster(prepare: string, join: string, a: Answers, b: Answers) returns (ok: bool)
      requires Valid()
      modifies runner, runner.runner, runner.stdout, runner.stderr, env
      ensures State().(ok := ok)
           == (var before, p, q := old(State()), Playbook(prepare, []), Playbook(join, []);
               After(before, BothEffect(Paths(), before.vars, before.signals, p, a, q, b)))
      ensures var before := old(State());
              var first := PlaybookEffect(Paths(), before.vars, before.signals, Playbook(prepare, []), a);
              && (ok <==> AllWork(before.signals, a) && AllWork(first.signals, b))
              && before.log + first.log <= State().log
              && (State().log == before.log + first.log <==> !AllWork(before.signals, a))
    {
      hide PlaybookEffect, AllWork;
      ghost var before := State();
      ok := RunPlaybook(Playbook(prepare, []), a);
      if !ok { return; }
      ghost var first := PlaybookEffect(Paths(), before.vars, before.signals, Playbook(prepare, []), a);
      ghost var second := PlaybookEffect(Paths(), first.vars, first.signals, Playbook(join, []), b);
      ok := RunPlaybook(Playbook(join, []), b);
      PlaybookActs(Paths(), first.vars, first.signals, Playbook(join, []), b);
      assert before.log + first.log + second.log == before.log + (first.log + second.log);
    }
  }

  /******* Over any sequence of commands *******/

  /** A watchman over the log: agents whose start returned no error come one at a time and get their kill
      before the next start; keys and commands come only under such an agent, with its socket. `left` are the
      agents that were launched and not ended. */
  datatype Watch = Broken | Watch(agent: Option<Agent>, left: seq<Agent>)

  function OneOf(a: Option<Agent>): seq<Agent> { if a.Some? then [a.value] else [] }

  function Advance(w: Watch, config: string, x: Action): Watch {
    if w.Broken? then w
    else
      match x
      case Started(a) => if w.agent.None? then w.(agent := Some(a)) else Broken
      case StartFailed(left) => if w.agent.None? then w.(left := w.left + OneOf(left)) else Broken
      case KeyAdded(sock, _) => if w.agent.Some? && sock == w.agent.value.sock then w else Broken
      case Ran(_, vars, _) =>
        if w.agent.Some? && SOCK in vars && vars[SOCK] == w.agent.value.sock && CONFIG in vars && vars[CONFIG] == config
        then w else Broken
      case Killed(pid, dies) =>
        if w.agent.Some? && pid == w.agent.value.pid then Watch(None, w.left + if dies then [] else [w.agent.value])
        else Broken
  }

  function Watching(w: Watch, config: string, log: seq<Action>): Watch
    decreases |log|
  {
    if log == [] then w else Watching(Advance(w, config, log[0]), config, log[1..])
  }

  lemma {:induction false} WatchingAppend(w: Watch, config: string, first: seq<Action>, second: seq<Action>)
    ensures Watching(w, config, first + second) == Watching(Watching(w, config, first), config, second)
    decreases |first|
  {
    if first == [] {
      assert first + second == second;
    } else {
      assert (first + second)[1..] == first[1..] + second;
      WatchingAppend(Advance(w, config, first[0]), config, first[1..], second);
    }
  }

  lemma WatchOne(w: Watch, config: string, x: Action)
    ensures Watching(w, config, [x]) == Advance(w, config, x)
  {
    assert [x][1..] == [];
  }

  /** The agent a bracket leaves alive: the one launched by a start that returned an error, or the one whose
      kill did not end it. */
  function Leaves(signals: seq<R.Signal>, a: Answers): seq<Agent> {
    var agent := Returned(a.start, signals + a.start.signals);
    if agent.None? then OneOf(a.launched) else if Kills(agent.value.pid, a.kill) then [] else [agent.value]
  }

  lemma WatchBracket(path: string, args: seq<string>, vars: Vars, signals: seq<R.Signal>, config: string, a: Answers,
      left: seq<Agent>)
    requires CONFIG in vars && vars[CONFIG] == config
    ensures Watching(Watch(None, left), config, Bracket(path, args, vars, signals, a).log)
        == Watch(None, left + Leaves(signals, a))
  {
    hide R.Succeeds, R.RecordAfter, Returned, Kills;
    var log, idle := Bracket(path, args, vars, signals, a).log, Watch(None, left);
    var agent := Returned(a.start, signals + a.start.signals);
    if agent.None? {
      WatchOne(idle, config, StartFailed(a.launched));
    } else {
      var busy := Watch(agent, left);
      var keyed := log[1].ok;
      var killed := [KillOf(agent.value.pid, a.kill)];
      var rest := if keyed then [log[2]] + killed else killed;
      assert log == [Started(agent.value)] + ([KeyAdded(agent.value.sock, keyed)] + rest);
      WatchingAppend(idle, config, [Started(agent.value)], [KeyAdded(agent.value.sock, keyed)] + rest);
      WatchOne(idle, config, Started(agent.value));
      WatchingAppend(busy, config, [KeyAdded(agent.value.sock, keyed)], rest);
      WatchOne(busy, config, KeyAdded(agent.value.sock, keyed));
      if keyed {
        assert log[2].Ran? && SOCK in log[2].vars && log[2].vars[SOCK] == agent.value.sock;
        assert log[2].vars[CONFIG] == config by { assert SOCK != CONFIG by { assert |SOCK| != |CONFIG|; } }
        WatchingAppend(busy, config, [log[2]], killed);
        WatchOne(busy, config, log[2]);
      }
      WatchOne(busy, config, killed[0]);
    }
  }

  /** The agents a session leaves alive, in order. */
  function LeftBy(cfg: Settings, vars: Vars, signals: seq<R.Signal>, runs: seq<(Playbook, Answers)>): seq<Agent> {
    if runs == [] then []
    else
      var before := Session(cfg, vars, signals, runs[..|runs| - 1]);
      LeftBy(cfg, vars, signals, runs[..|runs| - 1]) + Leaves(before.signals, runs[|runs| - 1].1)
  }

  /** Any number of commands, however each of them turns out, over a map with any stale values: the watchman
      never objects, and the agents still alive are exactly those listed. */
  lemma {:induction false} SessionWatched(cfg: Settings, vars: Vars, signals: seq<R.Signal>,
      runs: seq<(Playbook, Answers)>)
    ensures Watching(Watch(None, []), cfg.config, Session(cfg, vars, signals, runs).log)
         == Watch(None, LeftBy(cfg, vars, signals, runs))
    decreases |runs|
  {
    if runs != [] {
      var before := Session(cfg, vars, signals, runs[..|runs| - 1]);
      var (p, a) := runs[|runs| - 1];
      SessionWatched(cfg, vars, signals, runs[..|runs| - 1]);
      WatchBracket(cfg.key, Args(cfg.inventory, p), before.vars[CONFIG := cfg.config], before.signals, cfg.config, a,
                   LeftBy(cfg, vars, signals, runs[..|runs| - 1]));
      WatchingAppend(Watch(None, []), cfg.config, before.log,
                     Bracket(cfg.key, Args(cfg.inventory, p), before.vars[CONFIG := cfg.config], before.signals,
                         a).log);
      hide Bracket, Leaves, Watching;
    }
  }

  /** The record of signals when the `i`-th command of a session starts. */
  function RecordAt(cfg: Settings, vars: Vars, signals: seq<R.Signal>, runs: seq<(Playbook, Answers)>,
      i: nat): seq<R.Signal>
    requires i <= |runs|
  {
    Session(cfg, vars, signals, runs[..i]).signals
  }

  /** `ssh-agent` ran undisturbed: it started, no signal is on record, both its pipes were read to the end, what it
      printed parses to `agent`, and it exited with 0 or an exit code that cannot be determined. */
  ghost predicate CleanStart(c: R.Child, signals: seq<R.Signal>, agent: Agent) {
    && R.StartError(StartCommand(), c).None? && signals == []
    && c.stdout.fails.None? && c.stderr.fails.None?
    && Verdict(Scan(c.stdout.bytes, NOTHING), false) == Parsed(agent)
    && (c.wait.None? || c.exitCode.None?)
  }

  lemma CleanStartReturns(c: R.Child, signals: seq<R.Signal>, agent: Agent)
    ensures Returned(c, signals) == Some(agent) <==> CleanStart(c, signals, agent)
  {
    StartSees(c);
    SuccessParses(c, signals);
  }

  /** The `i`-th command's agent was started cleanly and its kill exited with 0, or none was launched. */
  ghost predicate EndsWell(cfg: Settings, vars: Vars, signals: seq<R.Signal>, runs: seq<(Playbook, Answers)>, i: nat)
    requires i < |runs|
  {
    var a := runs[i].1;
    var record := RecordAt(cfg, vars, signals, runs, i) + a.start.signals;
    var v := Verdict(Scan(a.start.stdout.bytes, NOTHING), false);
    if v.Parsed? && CleanStart(a.start, record, v.agent) then Kills(v.agent.pid, a.kill) else a.launched.None?
  }

  lemma NoneLeft(signals: seq<R.Signal>, a: Answers)
    ensures var record := signals + a.start.signals;
            var v := Verdict(Scan(a.start.stdout.bytes, NOTHING), false);
            Leaves(signals, a) == [] <==>
              if v.Parsed? && CleanStart(a.start, record, v.agent) then Kills(v.agent.pid, a.kill)
              else a.launched.None?
  {
    var record := signals + a.start.signals;
    var agent := Returned(a.start, record);
    var v := Verdict(Scan(a.start.stdout.bytes, NOTHING), false);
    if agent.Some? { CleanStartReturns(a.start, record, agent.value); }
    if v.Parsed? { CleanStartReturns(a.start, record, v.agent); }
    hide Returned, Kills;
  }

  /** No agent survives a session exactly if each one launched was started cleanly and its kill exited with 0. */
  lemma {:induction false} NoneSurvivesExactly(cfg: Settings, vars: Vars, signals: seq<R.Signal>,
      runs: seq<(Playbook, Answers)>)
    ensures LeftBy(cfg, vars, signals, runs) == [] <==>
              forall i :: 0 <= i < |runs| ==> EndsWell(cfg, vars, signals, runs, i)
    decreases |runs|
  {
    hide Session, CleanStart, Leaves, Scan;
    if runs != [] {
      var n := |runs| - 1;
      var rest := runs[..n];
      NoneSurvivesExactly(cfg, vars, signals, rest);
      forall i | 0 <= i < n ensures EndsWell(cfg, vars, signals, rest, i) <==> EndsWell(cfg, vars, signals, runs, i) {
        assert rest[..i] == runs[..i] && rest[i] == runs[i];
      }
      hide EndsWell;
      assert LeftBy(cfg, vars, signals, runs) == [] <==>
               LeftBy(cfg, vars, signals, rest) == [] && EndsWell(cfg, vars, signals, runs, n) by {
        assert Leaves(Session(cfg, vars, signals, rest).signals, runs[n].1) == []
            <==> EndsWell(cfg, vars, signals, runs, n) by { EndsIs(cfg, vars, signals, runs); }
      }
      hide LeftBy;
    }
  }

  lemma EndsIs(cfg: Settings, vars: Vars, signals: seq<R.Signal>, runs: seq<(Playbook, Answers)>)
    requires runs != []
    ensures var n := |runs| - 1;
            var left := Leaves(Session(cfg, vars, signals, runs[..n]).signals, runs[n].1);
            left == [] <==> EndsWell(cfg, vars, signals, runs, n)
  {
    NoneLeft(Session(cfg, vars, signals, runs[..|runs| - 1]).signals, runs[|runs| - 1].1);
    hide Leaves, CleanStart, Session, Kills;
  }

  /** Once a signal is on record every start returns an error, so every agent launched from then on stays. */
  lemma {:induction false} SignalLeavesAgents(cfg: Settings, vars: Vars, signals: seq<R.Signal>,
      runs: seq<(Playbook, Answers)>)
    requires signals != []
    ensures Session(cfg, vars, signals, runs).signals != []
    ensures |LeftBy(cfg, vars, signals, runs)| == Launches(runs)
    decreases |runs|
  {
    if runs != [] {
      SignalLeavesAgents(cfg, vars, signals, runs[..|runs| - 1]);
      var before := Session(cfg, vars, signals, runs[..|runs| - 1]);
      assert Returned(runs[|runs| - 1].1.start, before.signals + runs[|runs| - 1].1.start.signals).None?;
      hide Returned;
    }
  }

  /** How many agents the commands launch. */
  function Launches(runs: seq<(Playbook, Answers)>): nat {
    if runs == [] then 0 else Launches(runs[..|runs| - 1]) + if runs[|runs| - 1].1.launched.Some? then 1 else 0
  }

  function Starts(log: seq<Action>, pid: string): nat {
    if log == [] then 0 else (if log[0].Started? && log[0].agent.pid == pid then 1 else 0) + Starts(log[1..], pid)
  }

  function KillsOf(log: seq<Action>, pid: string): nat {
    if log == [] then 0 else (if log[0].Killed? && log[0].pid == pid then 1 else 0) + KillsOf(log[1..], pid)
  }

  lemma {:induction false} BrokenStays(config: string, log: seq<Action>)
    ensures Watching(Broken, config, log) == Broken
    decreases |log|
  {
    if log != [] { BrokenStays(config, log[1..]); }
  }

  lemma {:induction false} WatchedCounts(w: Watch, config: string, log: seq<Action>, pid: string)
    requires Watching(w, config, log).Watch? && Watching(w, config, log).agent.None?
    ensures w.Watch? && Starts(log, pid) + (if w.agent.Some? && w.agent.value.pid == pid then 1 else 0)
        == KillsOf(log, pid)
    decreases |log|
  {
    BrokenStays(config, log);
    if log != [] {
      BrokenStays(config, log[1..]);
      WatchedCounts(Advance(w, config, log[0]), config, log[1..], pid);
    }
  }

  /** Every agent whose start returned no error is the target of exactly one kill. */
  lemma KillsMatchStarts(cfg: Settings, vars: Vars, signals: seq<R.Signal>, runs: seq<(Playbook, Answers)>, pid: string)
    ensures var log := Session(cfg, vars, signals, runs).log; Starts(log, pid) == KillsOf(log, pid)
  {
    SessionWatched(cfg, vars, signals, runs);
    WatchedCounts(Watch(None, []), cfg.config, Session(cfg, vars, signals, runs).log, pid);
  }

  /** The agent started at `j` has not been killed at `i`. */
  ghost predicate LiveAt(log: seq<Action>, j: nat, i: nat) {
    j < i < |log| && log[j].Started? && forall k :: j < k < i ==> !log[k].Started? && !log[k].Killed?
  }

  lemma {:induction false} BusySince(config: string, log: seq<Action>, i: nat)
    requires i < |log| && Watching(Watch(None, []), config, log[..i]).Watch?
    requires Watching(Watch(None, []), config, log[..i]).agent.Some?
    ensures exists j: nat ::
              LiveAt(log, j, i) && Some(log[j].agent) == Watching(Watch(None, []), config, log[..i]).agent
    decreases i
  {
    var n, start := i - 1, Watch(None, []);
    assert i > 0;
    assert log[..i] == log[..n] + [log[n]];
    WatchingAppend(start, config, log[..n], [log[n]]);
    WatchOne(Watching(start, config, log[..n]), config, log[n]);
    var w := Watching(start, config, log[..n]);
    hide Watching;
    if log[n].Started? {
      assert LiveAt(log, n, i);
    } else {
      BusySince(config, log, n);
      var j: nat :| LiveAt(log, j, n) && Some(log[j].agent) == w.agent;
      assert LiveAt(log, j, i);
    }
  }

  /** Each command ran under the agent started for it, not yet killed, and saw that agent's socket. */
  lemma RanUnderOwnAgent(cfg: Settings, vars: Vars, signals: seq<R.Signal>, runs: seq<(Playbook, Answers)>, i: nat)
    requires i < |Session(cfg, vars, signals, runs).log| && Session(cfg, vars, signals, runs).log[i].Ran?
    ensures var log := Session(cfg, vars, signals, runs).log;
            exists j: nat :: LiveAt(log, j, i) && SOCK in log[i].vars && log[i].vars[SOCK] == log[j].agent.sock
  {
    var log := Session(cfg, vars, signals, runs).log;
    var start := Watch(None, []);
    SessionWatched(cfg, vars, signals, runs);
    hide Session, LeftBy;
    assert log == log[..i] + log[i..];
    WatchingAppend(start, cfg.config, log[..i], log[i..]);
    var w := Watching(start, cfg.config, log[..i]);
    BrokenStays(cfg.config, log[i..][1..]);
    assert Watching(w, cfg.config, log[i..]) == Watching(Advance(w, cfg.config, log[i]), cfg.config, log[i..][1..]);
    assert Advance(w, cfg.config, log[i]) != Broken;
    hide Watching;
    BusySince(cfg.config, log, i);
  }
}
