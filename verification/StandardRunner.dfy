/**
 The command runner: it starts a child process, lets an output handler read from its pipes while
 everything read is copied ("teed") into the captured output, waits, and puts together one error.
 What the operating system does is given by a `Child`.
 */
module StandardRunner {
  import opened Wrappers
  import opened Errors

  type Signal = string

  /** What one of the child's pipes yields: some bytes, then end of file or a read error. */
  datatype Output = Output(bytes: Bytes, fails: Option<Err>)

  datatype Child = Child(
    stdoutPipe: Option<Err>,   // error of opening the pipe
    stderrPipe: Option<Err>,
    start: Option<Err>,
    stdout: Output,
    stderr: Output,
    wait: Option<Err>,
    exitCode: Option<int>,     // None when no exit code can be determined from the wait error
    signals: seq<Signal>,      // recorded before the check after the wait
    late: seq<Signal>)         // still in the channel at the check, recorded afterwards

  /** What an output handler has read, and the read errors it met. */
  datatype Seen = Seen(stdout: Bytes, stderr: Bytes, stdoutErr: Option<Err>, stderrErr: Option<Err>)

  /** A handler's reads: at most `n` bytes of a pipe, or all of it. */
  datatype Read = Stdout(n: nat) | Stderr(n: nat) | AllStdout | AllStderr

  datatype OutputHandler = OutputHandler(requests: seq<Read>, verdict: Seen -> Option<Err>)

  datatype Command = Command(
    name: string,
    args: seq<string>,
    handler: Option<OutputHandler>,
    exitCodeHandlers: map<int, Seen -> Option<Err>>,
    hasStdin: bool)

  /******* Specification *******/

  function Min(a: nat, b: nat): nat { if a <= b then a else b }

  /** How far a pipe was read and the read error met, if any. */
  datatype Reading = Reading(pos: nat, err: Option<Err>)

  function ReadSome(o: Output, r: Reading, n: nat): Reading {
    Reading(Min(r.pos + n, |o.bytes|), if n > 0 && r.pos >= |o.bytes| && o.fails.Some? then o.fails else r.err)
  }

  function ReadRest(o: Output, r: Reading): Reading {
    Reading(if r.pos <= |o.bytes| then |o.bytes| else r.pos, if o.fails.Some? then o.fails else r.err)
  }

  function Serve(c: Child, requests: seq<Read>): (r: (Reading, Reading))
    ensures r.0.pos <= |c.stdout.bytes| && r.1.pos <= |c.stderr.bytes|
  {
    if requests == [] then (Reading(0, None), Reading(0, None))
    else
      var (out, err) := Serve(c, requests[..|requests| - 1]);
      match requests[|requests| - 1]
      case Stdout(n) => (ReadSome(c.stdout, out, n), err)
      case Stderr(n) => (out, ReadSome(c.stderr, err, n))
      case AllStdout => (ReadRest(c.stdout, out), err)
      case AllStderr => (out, ReadRest(c.stderr, err))
  }

  function Sees(cmd: Command, c: Child): Seen {
    if cmd.handler.None? then Seen("", "", None, None)
    else
      var (out, err) := Serve(c, cmd.handler.value.requests);
      Seen(c.stdout.bytes[..out.pos], c.stderr.bytes[..err.pos], out.err, err.err)
  }

  /** The error that keeps the command from starting, if any. */
  function StartError(cmd: Command, c: Child): Option<Err> {
    if cmd.handler.Some? && c.stdoutPipe.Some? then c.stdoutPipe
    else if cmd.handler.Some? && c.stderrPipe.Some? then c.stderrPipe
    else c.start
  }

  function Listed(e: Option<Err>): seq<Err> { if e.Some? then [e.value] else [] }

  function Remaining(text: string, e: Option<Err>): seq<Err> {
    if e.Some? then [Wrap(text, e.value)] else []
  }

  /** Errors of the output handler and of draining the pipes. */
  function OutputErrors(cmd: Command, c: Child): seq<Err> {
    if cmd.handler.None? then []
    else Listed(cmd.handler.value.verdict(Sees(cmd, c)))
         + Remaining("error reading remaining stdout", c.stdout.fails)
         + Remaining("error reading remaining stderr", c.stderr.fails)
  }

  /** Errors of waiting: none if the exit code is unknown or its handler succeeds. */
  function WaitErrors(cmd: Command, c: Child): seq<Err> {
    if c.wait.None? || c.exitCode.None? then []
    else if c.exitCode.value !in cmd.exitCodeHandlers then [c.wait.value]
    else
      var e := cmd.exitCodeHandlers[c.exitCode.value](Sees(cmd, c));
      if e.None? then [] else [e.value, c.wait.value]
  }

  const CAUGHT_SIGNALS := Leaf("caught signals")

  /** The errors of a command that started. */
  function Collected(cmd: Command, c: Child, signals: seq<Signal>): seq<Err> {
    (if signals != [] then [CAUGHT_SIGNALS] else OutputErrors(cmd, c)) + WaitErrors(cmd, c)
  }

  /** Everything the returned error is made of, given the signals on record at the check. */
  function Reported(cmd: Command, c: Child, signals: seq<Signal>): seq<Err> {
    if StartError(cmd, c).Some? then [StartError(cmd, c).value]
    else Collected(cmd, c, signals)
  }

  /** The exact condition for no error. */
  predicate Succeeds(cmd: Command, c: Child, signals: seq<Signal>) {
    && StartError(cmd, c).None?
    && signals == []
    && (cmd.handler.Some? ==>
          cmd.handler.value.verdict(Sees(cmd, c)).None? && c.stdout.fails.None? && c.stderr.fails.None?)
    && SucceedsWait(cmd, c)
  }

  /** The wait is no reason to fail. */
  predicate SucceedsWait(cmd: Command, c: Child) {
    || c.wait.None?
    || c.exitCode.None?
    || (c.exitCode.value in cmd.exitCodeHandlers && cmd.exitCodeHandlers[c.exitCode.value](Sees(cmd, c)).None?)
  }

  /** The record of caught signals after a run. */
  function RecordAfter(record: seq<Signal>, cmd: Command, c: Child): seq<Signal> {
    record + if StartError(cmd, c).Some? then [] else c.signals + c.late
  }

  lemma SucceedsIffNothingReported(cmd: Command, c: Child, signals: seq<Signal>)
    ensures Succeeds(cmd, c, signals) <==> Reported(cmd, c, signals) == []
  {}

  /** What a sentinel is found in, for any command: the error that kept it from starting; or a caught signal, and
      without one the handler's own error and the read errors; and if the wait failed with a known exit code that
      no handler excuses, the exit code handler's error and the wait error. */
  lemma ReportedExactly(cmd: Command, c: Child, signals: seq<Signal>, id: string)
    ensures cmd.handler.Some? && c.stdoutPipe.Some? ==>
              (AnyIs(Reported(cmd, c, signals), id) <==> Is(c.stdoutPipe.value, id))
    ensures cmd.handler.Some? && c.stdoutPipe.None? && c.stderrPipe.Some? ==>
              (AnyIs(Reported(cmd, c, signals), id) <==> Is(c.stderrPipe.value, id))
    ensures (cmd.handler.None? || (c.stdoutPipe.None? && c.stderrPipe.None?)) && c.start.Some? ==>
              (AnyIs(Reported(cmd, c, signals), id) <==> Is(c.start.value, id))
    ensures (cmd.handler.None? || (c.stdoutPipe.None? && c.stderrPipe.None?)) && c.start.None? ==>
              (AnyIs(Reported(cmd, c, signals), id) <==>
                || (signals != [] && id == "caught signals")
                || (signals == [] && cmd.handler.Some? &&
                    (|| (c.stdout.fails.Some? && Is(c.stdout.fails.value, id))
                     || (c.stderr.fails.Some? && Is(c.stderr.fails.value, id))
                     || (var e := cmd.handler.value.verdict(Sees(cmd, c)); e.Some? && Is(e.value, id))))
                || (c.wait.Some? && c.exitCode.Some? && c.exitCode.value !in cmd.exitCodeHandlers
                    && Is(c.wait.value, id))
                || (c.wait.Some? && c.exitCode.Some? && c.exitCode.value in cmd.exitCodeHandlers
                    && var e := cmd.exitCodeHandlers[c.exitCode.value](Sees(cmd, c));
                       e.Some? && (Is(e.value, id) || Is(c.wait.value, id))))
  {
    if StartError(cmd, c).Some? {
      AnyOne(StartError(cmd, c).value, id);
    } else {
      hide Sees, Is, AnyIs;
      OutputErrorsExactly(cmd, c, id);
      WaitErrorsExactly(cmd, c, id);
      AnyConcat(if signals != [] then [CAUGHT_SIGNALS] else OutputErrors(cmd, c), WaitErrors(cmd, c), id);
      AnyOne(CAUGHT_SIGNALS, id);
      CaughtIs(id);
    }
  }

  lemma CaughtIs(id: string)
    ensures Is(CAUGHT_SIGNALS, id) <==> id == "caught signals"
  {}

  lemma AnyListed(e: Option<Err>, id: string)
    ensures AnyIs(Listed(e), id) <==> e.Some? && Is(e.value, id)
  {
    if e.Some? { AnyOne(e.value, id); }
  }

  lemma AnyRemaining(text: string, e: Option<Err>, id: string)
    ensures AnyIs(Remaining(text, e), id) <==> e.Some? && Is(e.value, id)
  {
    if e.Some? {
      AnyOne(Wrap(text, e.value), id);
      assert Unwrap(Wrap(text, e.value)) == e;
    }
  }

  lemma OutputErrorsExactly(cmd: Command, c: Child, id: string)
    ensures AnyIs(OutputErrors(cmd, c), id) <==>
              && cmd.handler.Some?
              && (|| (c.stdout.fails.Some? && Is(c.stdout.fails.value, id))
                  || (c.stderr.fails.Some? && Is(c.stderr.fails.value, id))
                  || (var e := cmd.handler.value.verdict(Sees(cmd, c)); e.Some? && Is(e.value, id)))
  {
    AnyListed(None, id);
    if cmd.handler.Some? {
      hide Sees, Is, AnyIs;
      var verdict := Listed(cmd.handler.value.verdict(Sees(cmd, c)));
      var out := Remaining("error reading remaining stdout", c.stdout.fails);
      var err := Remaining("error reading remaining stderr", c.stderr.fails);
      AnyListed(cmd.handler.value.verdict(Sees(cmd, c)), id);
      AnyRemaining("error reading remaining stdout", c.stdout.fails, id);
      AnyRemaining("error reading remaining stderr", c.stderr.fails, id);
      AnyConcat(verdict, out, id);
      AnyConcat(verdict + out, err, id);
    }
  }

  lemma WaitErrorsExactly(cmd: Command, c: Child, id: string)
    ensures AnyIs(WaitErrors(cmd, c), id) <==>
              && c.wait.Some? && c.exitCode.Some?
              && (if c.exitCode.value !in cmd.exitCodeHandlers then Is(c.wait.value, id)
                  else
                    var e := cmd.exitCodeHandlers[c.exitCode.value](Sees(cmd, c));
                    e.Some? && (Is(e.value, id) || Is(c.wait.value, id)))
  {
    AnyListed(None, id);
    if c.wait.Some? && c.exitCode.Some? {
      hide Sees, Is, AnyIs;
      AnyOne(c.wait.value, id);
      if c.exitCode.value in cmd.exitCodeHandlers {
        var e := cmd.exitCodeHandlers[c.exitCode.value](Sees(cmd, c));
        if e.Some? {
          AnyOne(e.value, id);
          AnyConcat([e.value], [c.wait.value], id);
          assert [e.value] + [c.wait.value] == [e.value, c.wait.value];
        }
      }
    }
  }

  /** The error found in `e` for a sentinel are exactly those of the listed errors. */
  ghost predicate Carries(e: Err, es: seq<Err>) {
    forall id :: Is(e, id) <==> AnyIs(es, id)
  }

  ghost predicate Collects(chain: Option<Err>, es: seq<Err>) {
    (chain.None? <==> es == []) && (chain.Some? ==> Carries(chain.value, es))
  }

  /** `es` grown by the one error just appended. */
  lemma CollectOne(chain: Option<Err>, es: seq<Err>, e: Err)
    requires Collects(chain, es)
    ensures Collects(Some(Append(chain, e)), es + [e])
  {
    forall id ensures Is(Append(chain, e), id) <==> AnyIs(es + [e], id) {
      IsAppend(chain, e, id);
      AnyConcat(es, [e], id);
      AnyOne(e, id);
    }
  }

  lemma WrapCarries(text: string, e: Err, es: seq<Err>)
    requires Carries(e, es)
    ensures Carries(Wrap(text, e), es)
  {
    forall id ensures Is(Wrap(text, e), id) <==> AnyIs(es, id) {
      assert Unwrap(Wrap(text, e)) == Some(e);
    }
  }

  lemma RunnerCarries(e: Err, es: seq<Err>, out: Bytes, err: Bytes)
    requires Carries(e, es)
    ensures Carries(Runner(e, out, err), es)
  {
    forall id ensures Is(Runner(e, out, err), id) <==> AnyIs(es, id) {
      assert Unwrap(Runner(e, out, err)) == Some(e);
    }
  }

  /******* The runner *******/

  class Buffer {
    var data: Bytes

    constructor ()
      ensures data == ""
    {
      data := "";
    }

    method Write(p: Bytes)
      modifies this
      ensures data == old(data) + p
    {
      data := data + p;
    }
  }

  /** A pipe whose reads are copied to a buffer. */
  class TeeReader {
    const source: Output
    const copy: Buffer
    ghost const before: Bytes
    var pos: nat
    var err: Option<Err>

    /** The copy holds exactly what was read, in order. */
    ghost predicate Valid()
      reads this, copy
    {
      pos <= |source.bytes| && copy.data == before + source.bytes[..pos]
    }

    function At(): Reading
      reads this
    {
      Reading(pos, err)
    }

    constructor (source: Output, copy: Buffer)
      ensures this.source == source && this.copy == copy && At() == Reading(0, None)
      ensures before == copy.data && Valid()
    {
      this.source, this.copy, this.before := source, copy, copy.data;
      pos, err := 0, None;
    }

    method Read(n: nat) returns (p: Bytes, eof: bool)
      requires Valid()
      modifies this, copy
      ensures Valid() && At() == ReadSome(source, old(At()), n)
      ensures p == source.bytes[old(pos)..pos]
      ensures eof <==> n > 0 && old(pos) == |source.bytes|
    {
      var end := Min(pos + n, |source.bytes|);
      p := source.bytes[pos..end];
      eof := n > 0 && pos == |source.bytes|;
      if eof && source.fails.Some? {
        err := source.fails;
      }
      copy.Write(p);
      assert source.bytes[..pos] + p == source.bytes[..end];
      pos := end;
    }

    /** Read to the end in chunks. */
    method ReadAll() returns (e: Option<Err>)
      requires Valid()
      modifies this, copy
      ensures Valid() && At() == ReadRest(source, old(At()))
      ensures pos == |source.bytes| && e == source.fails
    {
      var eof := false;
      while !eof
        invariant Valid()
        invariant eof ==> pos == |source.bytes| && err == ReadRest(source, old(At())).err
        invariant !eof ==> err == old(err)
        decreases |source.bytes| - pos, !eof
      {
        var _, end := Read(512);
        eof := end;
      }
      e := source.fails;
    }
  }

  class StandardRunner {
    var caughtSignals: seq<Signal>

    constructor ()
      ensures caughtSignals == []
    {
      caughtSignals := [];
    }

    /** Serve the output handler's reads. */
    static method ServeReads(c: Child, requests: seq<Read>, outTee: TeeReader, errTee: TeeReader)
      requires outTee.source == c.stdout && errTee.source == c.stderr
      requires outTee != errTee && outTee.copy != errTee.copy
      requires outTee.Valid() && errTee.Valid() && outTee.At() == errTee.At() == Reading(0, None)
      modifies outTee, errTee, outTee.copy, errTee.copy
      ensures outTee.Valid() && errTee.Valid()
      ensures (outTee.At(), errTee.At()) == Serve(c, requests)
    {
      var i := 0;
      while i < |requests|
        invariant i <= |requests| && outTee.Valid() && errTee.Valid()
        invariant (outTee.At(), errTee.At()) == Serve(c, requests[..i])
      {
        assert requests[..i + 1][..i] == requests[..i];
        match requests[i] {
          case Stdout(n) => var _, _ := outTee.Read(n);
          case Stderr(n) => var _, _ := errTee.Read(n);
          case AllStdout => var _ := outTee.ReadAll();
          case AllStderr => var _ := errTee.ReadAll();
        }
        i := i + 1;
      }
      assert requests[..i] == requests;
    }

    /** Append an error, if there is one, to the error chain. */
    static method Collect(chain: Option<Err>, ghost es: seq<Err>, e: Option<Err>) returns (chain': Option<Err>)
      requires Collects(chain, es)
      ensures Collects(chain', es + Listed(e))
    {
      chain' := chain;
      if e.Some? {
        CollectOne(chain, es, e.value);
        chain' := Some(Append(chain, e.value));
      } else {
        assert es + Listed(e) == es;
      }
    }

    static function Wrapped(text: string, e: Option<Err>): Option<Err> {
      if e.Some? then Some(Wrap(text, e.value)) else None
    }

    /** Let the output handler read, then drain both pipes. */
    method HandleOutput(cmd: Command, c: Child, stdout: Buffer, stderr: Buffer) returns (chain: Option<Err>)
      requires cmd.handler.Some? && stdout != stderr
      modifies stdout, stderr
      ensures stdout.data == old(stdout.data) + c.stdout.bytes
      ensures stderr.data == old(stderr.data) + c.stderr.bytes
      ensures Collects(chain, OutputErrors(cmd, c))
    {
      var outTee := new TeeReader(c.stdout, stdout);
      var errTee := new TeeReader(c.stderr, stderr);
      ServeReads(c, cmd.handler.value.requests, outTee, errTee);
      var verdict := cmd.handler.value.verdict(
        Seen(c.stdout.bytes[..outTee.pos], c.stderr.bytes[..errTee.pos], outTee.err, errTee.err));
      ghost var es := Listed(verdict);
      assert verdict == cmd.handler.value.verdict(Sees(cmd, c));
      hide Serve, Sees;
      assert [] + es == es;
      chain := Collect(None, [], verdict);
      var e := outTee.ReadAll();
      chain := Collect(chain, es, Wrapped("error reading remaining stdout", e));
      es := es + Listed(Wrapped("error reading remaining stdout", e));
      e := errTee.ReadAll();
      chain := Collect(chain, es, Wrapped("error reading remaining stderr", e));
    }

    /** The exit code handler, if one is registered. An undeterminable exit code counts as handled,
        with an error that the caller drops. */
    method HandleWaitError(cmd: Command, c: Child) returns (handled: bool, err: Option<Err>)
      requires c.wait.Some?
      ensures handled <==> WaitErrors(cmd, c) == []
      ensures !handled ==> WaitErrors(cmd, c) == Listed(err) + [c.wait.value]
      ensures c.exitCode.Some? && c.exitCode.value in cmd.exitCodeHandlers ==>
                err == cmd.exitCodeHandlers[c.exitCode.value](Sees(cmd, c)) && (handled <==> err.None?)
      ensures c.exitCode.Some? && c.exitCode.value !in cmd.exitCodeHandlers ==> err.None? && !handled
      ensures c.exitCode.None? ==> handled
    {
      if c.exitCode.None? {
        return true, Some(Leaf("not able to determine exit code from error"));
      }
      if c.exitCode.value in cmd.exitCodeHandlers {
        err := cmd.exitCodeHandlers[c.exitCode.value](Sees(cmd, c));
        if err.Some? {
          return false, err;
        }
        return true, None;
      }
      return false, None;
    }

    /** After the wait: caught signals replace the chain, then the wait error is handled. */
    method Conclude(cmd: Command, c: Child, output: Option<Err>) returns (err: Option<Err>)
      requires Collects(output, OutputErrors(cmd, c))
      ensures Collects(err, Collected(cmd, c, caughtSignals))
    {
      hide Is, AnyIs, Append, OutputErrors;
      var chain := output;
      ghost var es := OutputErrors(cmd, c);
      if |caughtSignals| > 0 {
        CollectOne(None, [], CAUGHT_SIGNALS);
        assert [] + [CAUGHT_SIGNALS] == [CAUGHT_SIGNALS];
        chain, es := Some(Append(None, CAUGHT_SIGNALS)), [CAUGHT_SIGNALS];
      }
      hide Carries;
      if c.wait.Some? {
        var handled, err2 := HandleWaitError(cmd, c);
        if !handled {
          if err2.Some? {
            CollectOne(chain, es, err2.value);
            chain, es := Some(Append(chain, err2.value)), es + [err2.value];
          }
          CollectOne(chain, es, c.wait.value);
          chain, es := Some(Append(chain, c.wait.value)), es + [c.wait.value];
        }
      }
      assert es == Collected(cmd, c, caughtSignals);
      if chain.Some? {
        err := Some(Wrap("error while executing `" + cmd.name + "`", chain.value));
        WrapCarries("error while executing `" + cmd.name + "`", chain.value, es);
      } else {
        err := None;
      }
    }

    /** Execute a command. */
    method Execute(cmd: Command, c: Child, stdout: Buffer, stderr: Buffer) returns (err: Option<Err>)
      requires stdout != stderr
      modifies this, stdout, stderr
      ensures caughtSignals == RecordAfter(old(caughtSignals), cmd, c)
      ensures err.None? <==> Succeeds(cmd, c, old(caughtSignals) + c.signals)
      ensures err.Some? ==> Carries(err.value, Reported(cmd, c, old(caughtSignals) + c.signals))
      ensures var started := c.start.None? && (cmd.handler.Some? ==> c.stdoutPipe.None? && c.stderrPipe.None?);
              && (!started ==> err.Some?)
              && (started && old(caughtSignals) + c.signals != [] ==> err.Some? && Is(err.value, "caught signals"))
              && (started && c.wait.Some? && c.exitCode.Some? && c.exitCode.value !in cmd.exitCodeHandlers ==>
                    err.Some? && forall id :: Is(c.wait.value, id) ==> Is(err.value, id))
              && (started && c.wait.Some? && c.exitCode.Some? && c.exitCode.value in cmd.exitCodeHandlers ==>
                    var e := cmd.exitCodeHandlers[c.exitCode.value](Sees(cmd, c));
                    e.Some? ==>
                      err.Some? && forall id :: Is(e.value, id) || Is(c.wait.value, id) ==> Is(err.value, id))
      ensures StartError(cmd, c).None? ==>
                stdout.data == old(stdout.data) + c.stdout.bytes && stderr.data == old(stderr.data) + c.stderr.bytes
      ensures StartError(cmd, c).Some? ==> stdout.data == old(stdout.data) && stderr.data == old(stderr.data)
    {
      SucceedsIffNothingReported(cmd, c, caughtSignals + c.signals);
      forall id { ReportedExactly(cmd, c, caughtSignals + c.signals, id); }
      assert Succeeds(cmd, c, caughtSignals + c.signals) ==> caughtSignals + c.signals == [] && SucceedsWait(cmd, c);
      hide Is, AnyIs, Succeeds, Collected;
      if StartError(cmd, c).Some? {
        err := StartError(cmd, c);
        forall id { AnyOne(err.value, id); }
        return;
      }
      hide Carries;
      var chain: Option<Err> := None;
      if cmd.handler.Some? {
        chain := HandleOutput(cmd, c, stdout, stderr);
      } else {
        stdout.Write(c.stdout.bytes);
        stderr.Write(c.stderr.bytes);
      }
      // Signals reach the record while the child is waited for.
      caughtSignals := caughtSignals + c.signals;
      err := Conclude(cmd, c, chain);
      caughtSignals := caughtSignals + c.late;
    }

    /** Run with captured output; a failure carries what was captured. */
    method Background(cmd: Command, c: Child) returns (err: Option<Err>)
      modifies this
      ensures caughtSignals == RecordAfter(old(caughtSignals), cmd, c)
      ensures err.None? <==> Succeeds(cmd, c, old(caughtSignals) + c.signals)
      ensures err.Some? ==> err.value.Runner? && Carries(err.value, Reported(cmd, c, old(caughtSignals) + c.signals))
      ensures err.Some? && StartError(cmd, c).None? ==>
                err.value.stdout == c.stdout.bytes && err.value.stderr == c.stderr.bytes
    {
      var stdout := new Buffer();
      var stderr := new Buffer();
      err := Execute(cmd, c, stdout, stderr);
      if err.Some? {
        RunnerCarries(err.value, Reported(cmd, c, old(caughtSignals) + c.signals), stdout.data, stderr.data);
        err := Some(Runner(err.value, stdout.data, stderr.data));
      }
    }

    /** Run on the terminal, here a pair of buffers; a command with its own stdin is refused. */
    method OutputTo(cmd: Command, c: Child, stdout: Buffer, stderr: Buffer) returns (err: Option<Err>)
      requires stdout != stderr
      modifies this, stdout, stderr
      ensures cmd.hasStdin ==>
                err.Some? && caughtSignals == old(caughtSignals) && stdout.data == old(stdout.data) && stderr.data
                    == old(stderr.data)
      ensures !cmd.hasStdin ==> (err.None? <==> Succeeds(cmd, c, old(caughtSignals) + c.signals))
      ensures !cmd.hasStdin && err.Some? ==>
                err.value.Runner? && Carries(err.value, Reported(cmd, c, old(caughtSignals) + c.signals))
      ensures !cmd.hasStdin ==> caughtSignals == RecordAfter(old(caughtSignals), cmd, c)
      ensures !cmd.hasStdin ==> stdout.data == old(stdout.data) + if StartError(cmd, c).Some? then ""
          else c.stdout.bytes
      ensures !cmd.hasStdin ==> stderr.data == old(stderr.data) + if StartError(cmd, c).Some? then ""
          else c.stderr.bytes
    {
      if cmd.hasStdin {
        return Some(Leaf("using Output with a command that has Stdin set is not supported"));
      }
      err := Execute(cmd, c, stdout, stderr);
      if err.Some? {
        RunnerCarries(err.value, Reported(cmd, c, old(caughtSignals) + c.signals), "", "");
        err := Some(Runner(err.value, "", ""));
      }
    }

    /** In the background or on the terminal, as the runner was set up. Only a command that is refused
        leaves no trace, and only the terminal shows output. */
    method Run(cmd: Command, c: Child, background: bool, stdout: Buffer, stderr: Buffer) returns (err: Option<Err>)
      requires stdout != stderr
      modifies this, stdout, stderr
      ensures err.None? <==> (background || !cmd.hasStdin) && Succeeds(cmd, c, old(caughtSignals) + c.signals)
      ensures err.Some? && (background || !cmd.hasStdin) ==>
                err.value.Runner? && Carries(err.value, Reported(cmd, c, old(caughtSignals) + c.signals))
      ensures caughtSignals == if background || !cmd.hasStdin then RecordAfter(old(caughtSignals), cmd, c)
          else old(caughtSignals)
      ensures var shown := !background && !cmd.hasStdin && StartError(cmd, c).None?;
              && stdout.data == old(stdout.data) + (if shown then c.stdout.bytes else "")
              && stderr.data == old(stderr.data) + (if shown then c.stderr.bytes else "")
    {
      if background {
        err := Background(cmd, c);
      } else {
        err := OutputTo(cmd, c, stdout, stderr);
      }
    }
  }
}
