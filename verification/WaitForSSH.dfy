/** Waiting for a machine's SSH server: attempts until one connects or the time is up. */
module WaitForSSH {

  // Times are in nanoseconds.
  const SECOND: nat := 1_000_000_000

  /** One turn of the loop as the world answers it: how long connecting takes and whether it succeeds,
      and how much longer than a second the sleep after a failure takes. */
  datatype Attempt = Attempt(duration: nat, connects: bool, oversleep: nat)

  /** The world's answers: when the clock is looked at first, and one attempt for each turn. */
  datatype World = World(first: nat, attempt: nat -> Attempt)

  /** When turn `i` looks at the clock, counted from where the timeout starts. */
  function StartOf(w: World, i: nat): nat {
    if i == 0 then w.first
    else StartOf(w, i - 1) + w.attempt(i - 1).duration + SECOND + w.attempt(i - 1).oversleep
  }

  lemma {:induction false} SleepsAddUp(w: World, i: nat)
    ensures StartOf(w, i) >= i * SECOND
    decreases i
  {
    if i > 0 { SleepsAddUp(w, i - 1); }
  }

  function Durations(w: World, i: nat): nat {
    if i == 0 then 0 else Durations(w, i - 1) + w.attempt(i - 1).duration
  }

  function Oversleeps(w: World, i: nat): nat {
    if i == 0 then 0 else Oversleeps(w, i - 1) + w.attempt(i - 1).oversleep
  }

  /** An attempt starts after the time all earlier ones took, a second for each, and what the sleeps took longer. */
  lemma {:induction false} TimeAddsUp(w: World, i: nat)
    ensures StartOf(w, i) == w.first + Durations(w, i) + i * SECOND + Oversleeps(w, i)
    decreases i
  {
    if i > 0 { TimeAddsUp(w, i - 1); }
  }

  lemma {:induction false} StartsIncrease(w: World, i: nat, j: nat)
    requires i <= j
    ensures StartOf(w, i) <= StartOf(w, j)
    decreases j
  {
    if i < j { StartsIncrease(w, i, j - 1); }
  }

  /** The first attempt that connects starts in time. */
  ghost predicate Answers(w: World, timeout: nat, i: nat) {
    w.attempt(i).connects && StartOf(w, i) <= timeout && forall j :: 0 <= j < i ==> !w.attempt(j).connects
  }

  class MachineClient {
    var attempts: nat

    constructor ()
      ensures attempts == 0
    {
      attempts := 0;
    }

    /** It succeeds exactly if some attempt connects, all before it fail, and it starts within the timeout;
        there is at most one attempt for each whole second and one more. */
    method WaitForSSH(timeout: nat, w: World) returns (ok: bool)
      modifies this
      ensures ok ==> exists i: nat :: Answers(w, timeout, i) && attempts == old(attempts) + i + 1
      ensures !ok ==> forall i: nat :: !Answers(w, timeout, i)
      ensures !ok ==> forall i: nat :: StartOf(w, i) <= timeout ==> i < attempts - old(attempts)
      ensures attempts <= old(attempts) + timeout / SECOND + 1
    {
      var now, i := w.first, 0;
      while now <= timeout
        invariant now == StartOf(w, i) && attempts == old(attempts) + i
        invariant forall j :: 0 <= j < i ==> !w.attempt(j).connects
        invariant i > 0 ==> StartOf(w, i - 1) <= timeout
        decreases timeout + SECOND - now
      {
        attempts := attempts + 1;
        SleepsAddUp(w, i);
        if w.attempt(i).connects {
          assert Answers(w, timeout, i);
          return true;
        }
        now := now + w.attempt(i).duration + SECOND + w.attempt(i).oversleep;
        i := i + 1;
      }
      if i > 0 { SleepsAddUp(w, i - 1); }
      forall k: nat | StartOf(w, k) <= timeout ensures k < i {
        if k >= i { StartsIncrease(w, i, k); }
      }
      forall k: nat ensures !Answers(w, timeout, k) {
        if k >= i { StartsIncrease(w, i, k); }
      }
      ok := false;
    }
  }

  /** The bound is reached: with a refusing server, no delay and exact sleeps there are as many attempts. */
  lemma AllAttemptsUsed(w: World, seconds: nat, i: nat)
    requires w.first == 0 && forall j :: w.attempt(j) == Attempt(0, false, 0)
    ensures StartOf(w, i) <= seconds * SECOND <==> i <= seconds
  {
    ExactSleeps(w, i);
  }

  lemma {:induction false} ExactSleeps(w: World, i: nat)
    requires w.first == 0 && forall j :: w.attempt(j) == Attempt(0, false, 0)
    ensures StartOf(w, i) == i * SECOND
    decreases i
  {
    if i > 0 { ExactSleeps(w, i - 1); }
  }
}
