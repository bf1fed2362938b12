/**
 The signal protocol between the operating system, the signal goroutine of each run and the run
 itself. Every run has a channel with one slot and a goroutine that takes a signal, puts it on the
 runner's record and forwards it to the child. The run stops the delivery, closes the channel and
 looks at the record; goroutines of earlier runs may still be at work then. An interleaving is any
 sequence of the steps below; a step that is not possible is skipped.
 */
module Signals {
  import opened Wrappers

  type Signal = string

  /** What the goroutine has in hand: nothing, a signal received, or one recorded but not yet forwarded. */
  datatype Hand = Idle | Holding(signal: Signal) | Recorded(signal: Signal)

  /** `at` is the length of the record when the run looked at it. */
  datatype Phase = Waiting | Stopped | Closed | Checked(failed: bool, at: nat)

  datatype Run = Run(slot: Option<Signal>, hand: Hand, phase: Phase)

  /** Signals on record and forwarded are kept with the run they came through. */
  datatype State = State(
    runs: seq<Run>,
    delivered: seq<Signal>,
    dropped: seq<Signal>,
    record: seq<(nat, Signal)>,
    forwarded: seq<(nat, Signal)>)

  const START := State([], [], [], [], [])

  datatype Step =
    | Begin
    | Deliver(signal: Signal)
    | Take(run: nat)
    | Record(run: nat)
    | Forward(run: nat)
    | StopDelivery
    | Close
    | Check

  function Last(s: State): Run
    requires s.runs != []
  {
    s.runs[|s.runs| - 1]
  }

  function SetLast(s: State, r: Run): State
    requires s.runs != []
  {
    s.(runs := s.runs[|s.runs| - 1 := r])
  }

  predicate Possible(s: State, step: Step) {
    match step
    case Begin => s.runs == [] || Last(s).phase.Checked?
    case Deliver(_) => s.runs != [] && Last(s).phase.Waiting?
    case Take(i) => i < |s.runs| && s.runs[i].hand.Idle? && s.runs[i].slot.Some?
    case Record(i) => i < |s.runs| && s.runs[i].hand.Holding?
    case Forward(i) => i < |s.runs| && s.runs[i].hand.Recorded?
    case StopDelivery => s.runs != [] && Last(s).phase.Waiting?
    case Close => s.runs != [] && Last(s).phase.Stopped?
    case Check => s.runs != [] && Last(s).phase.Closed?
  }

  function Next(s: State, step: Step): State {
    if !Possible(s, step) then s else
    match step
    case Begin => s.(runs := s.runs + [Run(None, Idle, Waiting)])
    case Deliver(g) =>
      var s' := s.(delivered := s.delivered + [g]);
      if Last(s).slot.Some? then s'.(dropped := s.dropped + [g])
      else SetLast(s', Last(s).(slot := Some(g)))
    case Take(i) =>
      var r := s.runs[i];
      s.(runs := s.runs[i := r.(slot := None, hand := Holding(r.slot.value))])
    case Record(i) =>
      var r := s.runs[i];
      s.(record := s.record + [(i, r.hand.signal)], runs := s.runs[i := r.(hand := Recorded(r.hand.signal))])
    case Forward(i) =>
      var r := s.runs[i];
      s.(forwarded := s.forwarded + [(i, r.hand.signal)], runs := s.runs[i := r.(hand := Idle)])
    case StopDelivery => SetLast(s, Last(s).(phase := Stopped))
    case Close => SetLast(s, Last(s).(phase := Closed))
    case Check => SetLast(s, Last(s).(phase := Checked(s.record != [], |s.record|)))
  }

  /** Any interleaving. */
  function Interleave(s: State, steps: seq<Step>): State
    decreases |steps|
  {
    if steps == [] then s else Interleave(Next(s, steps[0]), steps[1..])
  }

  /******* Where the signals are *******/

  datatype Place = InChannel | InHand | ToForward

  /** How often a run has signal `g` in a place. */
  function Copies(r: Run, p: Place, g: Signal): nat {
    match p
    case InChannel => if r.slot == Some(g) then 1 else 0
    case InHand => if r.hand == Holding(g) then 1 else 0
    case ToForward => if r.hand == Recorded(g) then 1 else 0
  }

  function Total(runs: seq<Run>, p: Place, g: Signal): nat {
    if runs == [] then 0 else Total(runs[..|runs| - 1], p, g) + Copies(runs[|runs| - 1], p, g)
  }

  function Times(record: seq<(nat, Signal)>, g: Signal): nat {
    if record == [] then 0 else Times(record[..|record| - 1], g) + if record[|record| - 1].1 == g then 1 else 0
  }

  lemma {:induction false} TotalUpdate(runs: seq<Run>, i: nat, r: Run, p: Place, g: Signal)
    requires i < |runs|
    ensures Total(runs[i := r], p, g) + Copies(runs[i], p, g) == Total(runs, p, g) + Copies(r, p, g)
    decreases |runs|
  {
    var n := |runs| - 1;
    var after := runs[i := r];
    if i == n {
      assert after[..n] == runs[..n];
    } else {
      assert after[..n] == runs[..n][i := r] && after[n] == runs[n];
      TotalUpdate(runs[..n], i, r, p, g);
    }
  }

  lemma TotalMore(runs: seq<Run>, r: Run, p: Place, g: Signal)
    ensures Total(runs + [r], p, g) == Total(runs, p, g) + Copies(r, p, g)
  {
    assert (runs + [r])[..|runs|] == runs;
  }

  lemma TimesMore(record: seq<(nat, Signal)>, e: (nat, Signal), g: Signal)
    ensures Times(record + [e], g) == Times(record, g) + if e.1 == g then 1 else 0
  {
    assert (record + [e])[..|record|] == record;
  }

  ghost predicate ConservedFor(s: State, g: Signal) {
    && multiset(s.delivered)[g]
         == multiset(s.dropped)[g] + Total(s.runs, InChannel, g) + Total(s.runs, InHand, g) + Times(s.record, g)
    && Times(s.record, g) == Times(s.forwarded, g) + Total(s.runs, ToForward, g)
  }

  /** Each delivered signal is dropped, buffered, held or on record, exactly once; each recorded one is
      forwarded or about to be, exactly once. */
  ghost predicate Conserved(s: State) {
    forall g :: ConservedFor(s, g)
  }

  lemma UpdateRun(runs: seq<Run>, i: nat, r: Run, g: Signal)
    requires i < |runs|
    ensures forall p :: Total(runs[i := r], p, g) + Copies(runs[i], p, g) == Total(runs, p, g) + Copies(r, p, g)
  {
    forall p { TotalUpdate(runs, i, r, p, g); }
  }

  /** A step that changes one run only, and what it delivers, records or forwards. */
  lemma DeliverConserves(s: State, h: Signal, g: Signal)
    requires ConservedFor(s, g) && Possible(s, Deliver(h))
    ensures ConservedFor(Next(s, Deliver(h)), g)
  {
    if Last(s).slot.None? { UpdateRun(s.runs, |s.runs| - 1, Last(s).(slot := Some(h)), g); }
    hide Total, Times;
  }

  lemma TakeConserves(s: State, i: nat, g: Signal)
    requires ConservedFor(s, g) && Possible(s, Take(i))
    ensures ConservedFor(Next(s, Take(i)), g)
  {
    UpdateRun(s.runs, i, s.runs[i].(slot := None, hand := Holding(s.runs[i].slot.value)), g);
    hide Total, Times;
  }

  lemma RecordConserves(s: State, i: nat, g: Signal)
    requires ConservedFor(s, g) && Possible(s, Record(i))
    ensures ConservedFor(Next(s, Record(i)), g)
  {
    var r, s' := s.runs[i], Next(s, Record(i));
    var r' := r.(hand := Recorded(r.hand.signal));
    assert s' == s.(record := s.record + [(i, r.hand.signal)], runs := s.runs[i := r']);
    hide Next, Possible;
    TimesMore(s.record, (i, r.hand.signal), g);
    UpdateRun(s.runs, i, r', g);
    assert Copies(r, InChannel, g) == Copies(r', InChannel, g) && Copies(r', InHand, g) == 0 == Copies(r, ToForward, g);
    assert Copies(r, InHand, g) == Copies(r', ToForward, g) == if r.hand.signal == g then 1 else 0;
    hide Total, Times, Copies;
  }

  lemma ForwardConserves(s: State, i: nat, g: Signal)
    requires ConservedFor(s, g) && Possible(s, Forward(i))
    ensures ConservedFor(Next(s, Forward(i)), g)
  {
    var r, s' := s.runs[i], Next(s, Forward(i));
    var r' := r.(hand := Idle);
    assert s' == s.(forwarded := s.forwarded + [(i, r.hand.signal)], runs := s.runs[i := r']);
    hide Next, Possible;
    TimesMore(s.forwarded, (i, r.hand.signal), g);
    UpdateRun(s.runs, i, r', g);
    assert Copies(r, InChannel, g) == Copies(r', InChannel, g) && Copies(r, InHand, g) == 0 == Copies(r', InHand, g);
    assert Copies(r', ToForward, g) == 0 && Copies(r, ToForward, g) == if r.hand.signal == g then 1 else 0;
    hide Total, Times, Copies;
  }

  /** The run's own steps leave its signals where they are. */
  lemma PhaseConserves(s: State, step: Step, g: Signal)
    requires ConservedFor(s, g) && Possible(s, step) && (step.StopDelivery? || step.Close? || step.Check?)
    ensures ConservedFor(Next(s, step), g)
  {
    UpdateRun(s.runs, |s.runs| - 1, Last(Next(s, step)), g);
    hide Total, Times;
  }

  lemma StepConserves(s: State, step: Step, g: Signal)
    requires ConservedFor(s, g) && Possible(s, step)
    ensures ConservedFor(Next(s, step), g)
  {
    match step
    case Begin =>
      forall p ensures Total(Next(s, step).runs, p, g) == Total(s.runs, p, g) {
        TotalMore(s.runs, Run(None, Idle, Waiting), p, g);
      }
    case Deliver(h) => DeliverConserves(s, h, g);
    case Take(i) => TakeConserves(s, i, g);
    case Record(i) => RecordConserves(s, i, g);
    case Forward(i) => ForwardConserves(s, i, g);
    case _ => PhaseConserves(s, step, g);
  }

  /** No interleaving loses, invents or doubles a signal. */
  lemma {:induction false} AlwaysConserved(s: State, steps: seq<Step>)
    requires Conserved(s)
    ensures Conserved(Interleave(s, steps))
    decreases |steps|
  {
    if steps != [] {
      var s1 := Next(s, steps[0]);
      forall g ensures ConservedFor(s1, g) {
        if Possible(s, steps[0]) { StepConserves(s, steps[0], g); }
      }
      AlwaysConserved(s1, steps[1..]);
    }
  }

  lemma StartConserved(steps: seq<Step>)
    ensures Conserved(Interleave(START, steps))
  {
    AlwaysConserved(START, steps);
  }

  /******* Nothing gets stuck *******/

  /** A state with run `i` replaced. */
  function WithRun(s: State, i: nat, r: Run): State
    requires i < |s.runs|
  {
    s.(runs := s.runs[i := r])
  }

  /** In every phase of its run the goroutine goes on: with an idle hand it takes what is in the channel, it
      records what it holds, and it forwards what it recorded, also while the run waits for its child. */
  lemma GoroutineGoesOn(s: State, i: nat, g: Signal)
    requires i < |s.runs|
    ensures s.runs[i].hand.Idle? && s.runs[i].slot == Some(g) ==>
              Next(s, Take(i)) == WithRun(s, i, Run(None, Holding(g), s.runs[i].phase))
    ensures s.runs[i].hand == Holding(g) ==>
              Next(s, Record(i))
              == WithRun(s, i, Run(s.runs[i].slot, Recorded(g), s.runs[i].phase)).(record := s.record + [(i, g)])
    ensures s.runs[i].hand == Recorded(g) ==>
              Next(s, Forward(i))
              == WithRun(s, i, Run(s.runs[i].slot, Idle, s.runs[i].phase)).(forwarded := s.forwarded + [(i, g)])
  {}

  /** A signal sent while a run waits goes into the channel if that is empty, and is dropped otherwise. */
  lemma DeliveryGoesOn(s: State, g: Signal)
    requires s.runs != [] && Last(s).phase.Waiting?
    ensures var s', i := Next(s, Deliver(g)), |s.runs| - 1;
            && s'.delivered == s.delivered + [g]
            && (Last(s).slot.None? ==>
                  s' == WithRun(s, i, Run(Some(g), Last(s).hand, Waiting)).(delivered := s.delivered + [g]))
            && (Last(s).slot.Some? ==>
                  s' == s.(delivered := s.delivered + [g], dropped := s.dropped + [g]))
  {}

  /** The run goes on too: whatever the goroutines are at, the next run begins when the last one is checked, and
      each one stops the delivery, closes the channel and looks at the record. */
  lemma RunGoesOn(s: State)
    ensures s.runs == [] || Last(s).phase.Checked? ==> Next(s, Begin) == s.(runs := s.runs + [Run(None, Idle, Waiting)])
    ensures s.runs != [] && Last(s).phase.Waiting? ==> Next(s, StopDelivery) == SetLast(s, Last(s).(phase := Stopped))
    ensures s.runs != [] && Last(s).phase.Stopped? ==> Next(s, Close) == SetLast(s, Last(s).(phase := Closed))
    ensures s.runs != [] && Last(s).phase.Closed? ==>
              Next(s, Check) == SetLast(s, Last(s).(phase := Checked(|s.record| > 0, |s.record|)))
  {}

  /** A signal sent to a run that waits with an idle goroutine can be recorded and forwarded to the child before
      the child ends. */
  lemma ForwardedWhileWaiting(s: State, g: Signal)
    requires s.runs != [] && Last(s) == Run(None, Idle, Waiting)
    ensures var i := |s.runs| - 1;
            Interleave(s, [Deliver(g), Take(i), Record(i), Forward(i)])
              == s.(delivered := s.delivered + [g], record := s.record + [(i, g)], forwarded := s.forwarded + [(i, g)])
  {
    hide Next, Interleave;
    var i := |s.runs| - 1;
    var s1 := s.(runs := s.runs[i := Run(Some(g), Idle, Waiting)], delivered := s.delivered + [g]);
    var s2 := s1.(runs := s.runs[i := Run(None, Holding(g), Waiting)]);
    var s3 := s2.(runs := s.runs[i := Run(None, Recorded(g), Waiting)], record := s.record + [(i, g)]);
    var s4 := s3.(runs := s.runs[i := Run(None, Idle, Waiting)], forwarded := s.forwarded + [(i, g)]);
    DeliveryGoesOn(s, g);
    GoroutineGoesOn(s1, i, g);
    GoroutineGoesOn(s2, i, g);
    GoroutineGoesOn(s3, i, g);
    assert Next(s, Deliver(g)) == s1 && Next(s1, Take(i)) == s2;
    assert Next(s2, Record(i)) == s3 && Next(s3, Forward(i)) == s4;
    assert [Deliver(g), Take(i), Record(i), Forward(i)] == [Deliver(g), Take(i)] + [Record(i), Forward(i)];
    InterleaveAppend(s, [Deliver(g), Take(i)], [Record(i), Forward(i)]);
    Two(s, Deliver(g), Take(i));
    Two(s2, Record(i), Forward(i));
    assert s.runs[i := Run(None, Idle, Waiting)] == s.runs;
  }

  lemma Two(s: State, a: Step, b: Step)
    ensures Interleave(s, [a, b]) == Next(Next(s, a), b)
  {
    hide Next;
    assert [a, b][1..] == [b] && [b][1..] == [];
    assert Interleave(s, [a, b]) == Interleave(Next(s, a), [b]);
  }

  /** What a goroutine has in hand and then what is in its channel can always be brought to record and child, by its
      own steps alone. */
  lemma Drains(s: State, i: nat) returns (steps: seq<Step>)
    requires i < |s.runs|
    ensures forall step :: step in steps ==> step == Take(i) || step == Record(i) || step == Forward(i)
    ensures var s' := Interleave(s, steps);
            && s'.runs == s.runs[i := Run(None, Idle, s.runs[i].phase)]
            && RecordedBy(s'.record, i) == RecordedBy(s.record, i) + Outstanding(s.runs[i])
            && (forall p :: p in s.record ==> p in s'.record)
            && (s.runs[i].slot.Some? ==>
                  (i, s.runs[i].slot.value) in s'.record && (i, s.runs[i].slot.value) in s'.forwarded)
            && (!s.runs[i].hand.Idle? ==> (i, s.runs[i].hand.signal) in s'.forwarded)
  {
    var first, a := FreesHand(s, i);
    var second, b := [], a;
    if a.runs[i].slot.Some? {
      var g := a.runs[i].slot.value;
      GoroutineGoesOn(a, i, g);
      var second', b' := FreesHand(Next(a, Take(i)), i);
      second, b := [Take(i)] + second', b';
      hide Next;
      assert ([Take(i)] + second')[1..] == second';
    } else {
      assert s.runs[i := a.runs[i]] == a.runs;
    }
    hide Next;
    steps := first + second;
    InterleaveAppend(s, first, second);
    assert b.runs == s.runs[i := Run(None, Idle, s.runs[i].phase)];
  }

  lemma FreesHand(s: State, i: nat) returns (steps: seq<Step>, s': State)
    requires i < |s.runs|
    ensures forall step :: step in steps ==> step == Record(i) || step == Forward(i)
    ensures s' == Interleave(s, steps)
    ensures s'.runs == s.runs[i := Run(s.runs[i].slot, Idle, s.runs[i].phase)]
    ensures s.runs[i].hand.Holding? ==> s'.record == s.record + [(i, s.runs[i].hand.signal)]
    ensures !s.runs[i].hand.Holding? ==> s'.record == s.record
    ensures RecordedBy(s'.record, i) == RecordedBy(s.record, i) + if s.runs[i].hand.Holding? then 1 else 0
    ensures s'.forwarded == if s.runs[i].hand.Idle? then s.forwarded else s.forwarded + [(i, s.runs[i].hand.signal)]
  {
    match s.runs[i].hand
    case Idle =>
      steps, s' := [], s;
      assert s.runs[i := s.runs[i]] == s.runs;
    case Holding(g) =>
      GoroutineGoesOn(s, i, g);
      var s1 := Next(s, Record(i));
      GoroutineGoesOn(s1, i, g);
      steps, s' := [Record(i), Forward(i)], Next(s1, Forward(i));
      hide Next;
      Two(s, Record(i), Forward(i));
      RecordedByMore(s.record, (i, g), i);
    case Recorded(g) =>
      GoroutineGoesOn(s, i, g);
      steps, s' := [Forward(i)], Next(s, Forward(i));
      hide Next;
      assert [Forward(i)][1..] == [];
      assert Interleave(s, steps) == Interleave(s', []);
  }

  /******* What the checks see *******/

  /** Only the last run is not finished; every finished run failed exactly if something was on record
      when it looked, and later runs saw at least as much. */
  ghost predicate Consistent(s: State) {
    && (forall i :: 0 <= i < |s.runs| - 1 ==> s.runs[i].phase.Checked?)
    && (forall i :: 0 <= i < |s.runs| && s.runs[i].phase.Checked? ==>
          s.runs[i].phase.at <= |s.record| && (s.runs[i].phase.failed <==> s.runs[i].phase.at > 0))
    && (forall i, j :: 0 <= i < j < |s.runs| && s.runs[j].phase.Checked? ==> s.runs[i].phase.at <= s.runs[j].phase.at)
  }

  lemma StepConsistent(s: State, step: Step)
    requires Consistent(s)
    ensures Consistent(Next(s, step))
  {}

  /** The record only grows, and what a finished run concluded stays. */
  ghost predicate Onward(s: State, s': State) {
    && s.record <= s'.record
    && |s.runs| <= |s'.runs|
    && (forall i :: 0 <= i < |s.runs| && s.runs[i].phase.Checked? ==> s'.runs[i].phase == s.runs[i].phase)
  }

  lemma {:induction false} RecordOnlyGrows(s: State, steps: seq<Step>)
    requires Consistent(s)
    ensures Consistent(Interleave(s, steps)) && Onward(s, Interleave(s, steps))
    decreases |steps|
  {
    if steps != [] {
      var s1 := Next(s, steps[0]);
      StepConsistent(s, steps[0]);
      assert Onward(s, s1);
      RecordOnlyGrows(s1, steps[1..]);
    }
  }

  /** Once a run failed because of a signal, every run checked after it fails: the record is never cleared. */
  lemma FailedForGood(steps: seq<Step>, i: nat, j: nat)
    ensures var s := Interleave(START, steps);
            i <= j < |s.runs| && s.runs[i].phase.Checked? && s.runs[i].phase.failed && s.runs[j].phase.Checked? ==>
              s.runs[j].phase.failed
  {
    RecordOnlyGrows(START, steps);
  }

  /** From a state with something on record, every check to come fails. */
  lemma {:induction false} RecordedFailsAll(s: State, steps: seq<Step>)
    requires Consistent(s) && s.record != []
    ensures var s' := Interleave(s, steps);
            forall j ::
              0 <= j < |s'.runs| && s'.runs[j].phase.Checked? && !(j < |s.runs| && s.runs[j].phase.Checked?) ==>
                s'.runs[j].phase.failed
    decreases |steps|
  {
    if steps != [] {
      var s1 := Next(s, steps[0]);
      StepConsistent(s, steps[0]);
      RecordOnlyGrows(s1, steps[1..]);
      RecordedFailsAll(s1, steps[1..]);
    }
  }

  /******* After the check *******/

  /** Signals of run `i` that are not on record yet. */
  function Outstanding(r: Run): nat {
    (if r.slot.Some? then 1 else 0) + (if r.hand.Holding? then 1 else 0)
  }

  function RecordedBy(record: seq<(nat, Signal)>, i: nat): nat {
    if record == [] then 0
    else RecordedBy(record[..|record| - 1], i) + if record[|record| - 1].0 == i then 1 else 0
  }

  lemma RecordedByMore(record: seq<(nat, Signal)>, e: (nat, Signal), i: nat)
    ensures RecordedBy(record + [e], i) == RecordedBy(record, i) + if e.0 == i then 1 else 0
  {
    assert (record + [e])[..|record|] == record;
  }

  /** Once delivery has stopped, a run's signals only move onto the record: those recorded plus those
      outstanding stay the same. */
  lemma {:induction false} LateSignals(s: State, steps: seq<Step>, i: nat)
    requires Consistent(s) && i < |s.runs| && !s.runs[i].phase.Waiting?
    ensures var s' := Interleave(s, steps);
            && i < |s'.runs|
            && RecordedBy(s'.record, i) + Outstanding(s'.runs[i]) == RecordedBy(s.record, i) + Outstanding(s.runs[i])
    decreases |steps|
  {
    if steps != [] {
      var s1 := Next(s, steps[0]);
      StepConsistent(s, steps[0]);
      if steps[0].Record? && Possible(s, steps[0]) {
        var k := steps[0].run;
        RecordedByMore(s.record, (k, s.runs[k].hand.signal), i);
      }
      LateSignals(s1, steps[1..], i);
    }
  }

  /** So at most two signals of a run reach the record after its check, and all later runs fail then. */
  lemma AtMostTwoLate(s: State, steps: seq<Step>, i: nat)
    requires Consistent(s) && i < |s.runs| && s.runs[i].phase.Checked?
    ensures RecordedBy(Interleave(s, steps).record, i) <= RecordedBy(s.record, i) + 2
  {
    LateSignals(s, steps, i);
  }

  lemma {:induction false} InterleaveAppend(s: State, first: seq<Step>, second: seq<Step>)
    ensures Interleave(s, first + second) == Interleave(Interleave(s, first), second)
    decreases |first|
  {
    if first == [] {
      assert first + second == second;
    } else {
      assert (first + second)[1..] == first[1..] + second;
      InterleaveAppend(Next(s, first[0]), first[1..], second);
    }
  }

  lemma {:induction false} Three(s: State, a: Step, b: Step, c: Step)
    ensures Interleave(s, [a, b, c]) == Next(Next(Next(s, a), b), c)
  {
    hide Next;
    assert [a, b, c][1..] == [b, c] && [b, c][1..] == [c] && [c][1..] == [];
    assert Interleave(s, [a, b, c]) == Interleave(Next(s, a), [b, c]);
    assert Interleave(Next(s, a), [b, c]) == Interleave(Next(Next(s, a), b), [c]);
  }

  const FINISH: seq<Step> := [StopDelivery, Close, Check]

  /** A run that ends undisturbed fails exactly if something is on record. */
  lemma Finishing(s: State)
    requires s.runs != [] && Last(s).phase.Waiting?
    ensures Interleave(s, FINISH) == SetLast(s, Last(s).(phase := Checked(s.record != [], |s.record|)))
  {
    Three(s, StopDelivery, Close, Check);
    var s1 := SetLast(s, Last(s).(phase := Stopped));
    var s2 := SetLast(s, Last(s).(phase := Closed));
    assert Next(s, StopDelivery) == s1;
    assert Next(s1, Close) == s2;
    assert s2.record == s.record;
  }

  /** A signal delivered to a run whose goroutine is slow: still buffered when the run looks, it lets the
      run pass although it was delivered before the end. */
  lemma LateSignalPasses(s: State, g: Signal)
    requires s.runs != [] && s.record == []
    requires Last(s).phase.Waiting? && Last(s).hand.Idle? && Last(s).slot.None?
    ensures Interleave(s, [Deliver(g)] + FINISH)
              == SetLast(s, Run(Some(g), Idle, Checked(false, 0))).(delivered := s.delivered + [g])
  {
    var s1 := SetLast(s, Run(Some(g), Idle, Waiting)).(delivered := s.delivered + [g]);
    assert Next(s, Deliver(g)) == s1;
    assert ([Deliver(g)] + FINISH)[1..] == FINISH;
    Finishing(s1);
  }

  /** When the goroutine gets to it at last, the signal fails the next run, which received none. */
  lemma LateSignalFailsNext(s: State, i: nat)
    requires i == |s.runs| - 1 && s.record == [] && Last(s).phase.Checked? && Last(s).slot.Some? && Last(s).hand.Idle?
    ensures var s' := Interleave(s, [Take(i), Record(i), Begin] + FINISH);
            && |s'.runs| == i + 2 && s'.delivered == s.delivered
            && s'.runs[i].phase == s.runs[i].phase && s'.runs[i + 1] == Run(None, Idle, Checked(true, 1))
  {
    var g := Last(s).slot.value;
    var s1 := SetLast(s, Run(None, Holding(g), Last(s).phase));
    var s2 := SetLast(s1, Run(None, Recorded(g), Last(s).phase)).(record := [(i, g)]);
    var s3 := s2.(runs := s2.runs + [Run(None, Idle, Waiting)]);
    assert Next(s, Take(i)) == s1;
    assert Next(s1, Record(i)) == s2 by { assert s1.record + [(i, g)] == [(i, g)]; }
    assert Next(s2, Begin) == s3;
    Three(s, Take(i), Record(i), Begin);
    InterleaveAppend(s, [Take(i), Record(i), Begin], FINISH);
    Finishing(s3);
  }
}
