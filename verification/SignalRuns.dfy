/** The signals a run of the command runner meets, taken from an interleaving of the signal protocol. */
module SignalRuns {
  import opened Wrappers
  import opened Signals
  import R = StandardRunner

  function Strip(record: seq<(nat, Signal)>): seq<R.Signal> {
    seq(|record|, i requires 0 <= i < |record| => record[i].1)
  }

  /** What was recorded between two looks at the record. */
  function Since(earlier: seq<(nat, Signal)>, now: seq<(nat, Signal)>): seq<R.Signal> {
    if earlier <= now then Strip(now[|earlier|..]) else []
  }

  /** From `s` on, `steps` lead to the check of the run that is last, and `later` to wherever the next run looks
      at the record. What is recorded in the two stretches are the signals and the late signals of that run: the
      run fails by a signal exactly if the runner counts one, and the record afterwards is the runner's. */
  lemma SignalsOfRun(s: State, steps: seq<Step>, later: seq<Step>, cmd: R.Command, c: R.Child)
    requires Consistent(s) && Possible(Interleave(s, steps), Check)
    requires var checked := Next(Interleave(s, steps), Check);
             && c.signals == Since(s.record, checked.record)
             && c.late == Since(checked.record, Interleave(checked, later).record)
    requires R.StartError(cmd, c).None?
    ensures var checked := Next(Interleave(s, steps), Check);
            && (Last(checked).phase.failed <==> Strip(s.record) + c.signals != [])
            && R.RecordAfter(Strip(s.record), cmd, c) == Strip(Interleave(checked, later).record)
            && (Last(checked).phase.failed ==> !R.Succeeds(cmd, c, Strip(s.record) + c.signals))
  {
    var mid := Interleave(s, steps);
    CheckSees(mid);
    RecordOnlyGrows(s, steps);
    StepConsistent(mid, Check);
    RecordOnlyGrows(Next(mid, Check), later);
    var checked := Next(mid, Check);
    hide Interleave, Next, Consistent, Possible, R.Succeeds, R.RecordAfter, Strip, Since;
    CountedBefore(s.record, checked.record, cmd, c);
    CountedAfter(s.record, checked.record, Interleave(checked, later).record, cmd, c);
  }

  lemma CheckSees(s: State)
    requires Possible(s, Check)
    ensures var checked := Next(s, Check);
            checked.record == s.record && checked.runs != [] && Last(checked).phase
                == Checked(s.record != [], |s.record|)
  {}

  lemma CountedBefore(a: seq<(nat, Signal)>, b: seq<(nat, Signal)>, cmd: R.Command, c: R.Child)
    requires a <= b && c.signals == Since(a, b)
    ensures b != [] <==> Strip(a) + c.signals != []
    ensures b != [] ==> !R.Succeeds(cmd, c, Strip(a) + c.signals)
  {
    hide R.Succeeds;
    Pieces(a, b);
    RecordedFails(cmd, c, Strip(b));
  }

  lemma CountedAfter(a: seq<(nat, Signal)>, b: seq<(nat, Signal)>, d: seq<(nat, Signal)>, cmd: R.Command, c: R.Child)
    requires a <= b <= d && c.signals == Since(a, b) && c.late == Since(b, d) && R.StartError(cmd, c).None?
    ensures R.RecordAfter(Strip(a), cmd, c) == Strip(d)
  {
    hide R.StartError;
    Pieces(a, b);
    Pieces(b, d);
    hide Strip;
    Regroup(Strip(a), c.signals, c.late);
  }

  lemma Regroup(x: seq<R.Signal>, y: seq<R.Signal>, z: seq<R.Signal>)
    ensures x + (y + z) == x + y + z
  {}

  lemma RecordedFails(cmd: R.Command, c: R.Child, signals: seq<R.Signal>)
    ensures signals != [] ==> !R.Succeeds(cmd, c, signals)
  {
    hide R.Sees;
  }

  lemma Pieces(a: seq<(nat, Signal)>, b: seq<(nat, Signal)>)
    requires a <= b
    ensures Strip(a) + Strip(b[|a|..]) == Strip(b)
  {
    assert b == a + b[|a|..];
  }
}
