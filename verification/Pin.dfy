/**
 * The withdrawal PIN: wrong attempts are counted, and a lock follows the last one allowed. Times are in milliseconds.
 */
module Pin {
  import opened Wrappers
  import opened Sets

  datatype Lock = Lock(attempts: int, lockedUntil: Option<int>)

  datatype Verdict = Accepted | Wrong(left: int) | Locked | NewlyLocked

  predicate LockedAt(p: Lock, now: int) {
    p.lockedUntil.Some? && p.lockedUntil.value > now
  }

  /** RecordPINFailure; it reads the clock itself. A limit of 0 or less never locks. */
  function Fail(p: Lock, max: int, lockFor: int, now: int): Lock {
    if max > 0 && p.attempts + 1 >= max then Lock(0, Some(now + lockFor)) else p.(attempts := p.attempts + 1)
  }

  /** A try: the PIN is compared at `now`, if at all, and a failure is recorded at `later`. */
  datatype Try = Try(correct: bool, now: int, later: int)

  function Check(p: Lock, max: int, lockFor: int, t: Try): (Lock, Verdict) {
    if LockedAt(p, t.now) then (p, Locked)
    else if t.correct then (p.(attempts := if p.attempts > 0 then 0 else p.attempts), Accepted)
    else
      var p' := Fail(p, max, lockFor, t.later);
      (p', if max > 0 && p.attempts + 1 >= max then NewlyLocked else Wrong(max - p.attempts - 1))
  }

  class PinGuard {
    const max: int
    const lockFor: int
    var attempts: int
    var lockedUntil: Option<int>

    function Contents(): Lock
      reads this
    {
      Lock(attempts, lockedUntil)
    }

    constructor (max: int, lockFor: int)
      ensures this.max == max && this.lockFor == lockFor && Contents() == Lock(0, None)
    {
      this.max, this.lockFor, attempts, lockedUntil := max, lockFor, 0, None;
    }

    method RecordFailure(now: int) returns (count: int, until: Option<int>)
      modifies this
      ensures Contents() == Fail(old(Contents()), max, lockFor, now)
      ensures count == old(attempts) + 1 && until == if max > 0 && count >= max then lockedUntil else None
    {
      count, until := attempts + 1, None;
      attempts := count;
      if max > 0 && count >= max {
        until := Some(now + lockFor);
        attempts, lockedUntil := 0, until;
      }
    }

    method CheckPin(t: Try) returns (v: Verdict)
      modifies this
      ensures (Contents(), v) == Check(old(Contents()), max, lockFor, t)
    {
      if lockedUntil.Some? && lockedUntil.value > t.now {
        return Locked;
      }
      if !t.correct {
        var count, until := RecordFailure(t.later);
        return if until.Some? then NewlyLocked else Wrong(max - count);
      }
      if attempts > 0 {
        attempts := 0;
      }
      return Accepted;
    }
  }

  // ---- guessing ----

  function AfterTries(p: Lock, max: int, lockFor: int, tries: seq<Try>): Lock {
    if tries == [] then p else Check(AfterTries(p, max, lockFor, tries[..|tries| - 1]), max, lockFor,
                                     tries[|tries| - 1]).0
  }

  /** When a PIN was actually compared. */
  function Comparisons(p: Lock, max: int, lockFor: int, tries: seq<Try>): seq<int> {
    if tries == [] then []
    else
      var before, t := tries[..|tries| - 1], tries[|tries| - 1];
      Comparisons(p, max, lockFor, before) + if LockedAt(AfterTries(p, max, lockFor, before), t.now) then []
        else [t.now]
  }

  /** One wrong try after the other, on a clock that does not run backwards. */
  predicate Guesses(tries: seq<Try>) {
    && (forall i :: 0 <= i < |tries| ==> !tries[i].correct && tries[i].now <= tries[i].later)
    && (forall i, j :: 0 <= i < j < |tries| ==> tries[i].later <= tries[j].now)
  }

  predicate Nondecreasing(cs: seq<int>) {
    forall i, j :: 0 <= i < j < |cs| ==> cs[i] <= cs[j]
  }

  predicate Spaced(cs: seq<int>, max: nat, lockFor: int) {
    forall i :: 0 <= i < |cs| - max ==> cs[i + max] >= cs[i] + lockFor
  }

  /** The comparisons so far, none after `now`, and the lock that follows from them. */
  predicate Counted(p: Lock, cs: seq<int>, max: nat, lockFor: int, now: int) {
    && Nondecreasing(cs) && Spaced(cs, max, lockFor) && (forall i :: 0 <= i < |cs| ==> cs[i] <= now)
    && 0 <= p.attempts < max
    && (p.attempts < |cs| ==> p.lockedUntil.Some? && p.lockedUntil.value >= cs[|cs| - 1 - p.attempts] + lockFor)
  }

  lemma GuessIsCounted(p: Lock, cs: seq<int>, max: nat, lockFor: int, now: int, t: Try)
    requires Counted(p, cs, max, lockFor, now) && lockFor >= 0
    requires !t.correct && now <= t.now <= t.later
    ensures Counted(Check(p, max, lockFor, t).0, cs + if LockedAt(p, t.now) then [] else [t.now], max, lockFor, t.now)
  {
    if LockedAt(p, t.now) {
      assert cs + [] == cs;
    } else if |cs| >= max {
      assert cs[|cs| - max] <= cs[|cs| - 1 - p.attempts];
    }
  }

  /** Every max + 1 comparisons in a row have a lock between them. */
  lemma {:induction false} GuessesAreSpaced(p: Lock, max: nat, lockFor: int, tries: seq<Try>)
    requires 0 <= p.attempts < max && lockFor >= 0 && Guesses(tries)
    ensures Counted(AfterTries(p, max, lockFor, tries), Comparisons(p, max, lockFor, tries), max, lockFor,
                    if tries == [] then 0 else tries[|tries| - 1].now)
  {
    hide Counted;
    if tries == [] {
      NothingCounted(p, max, lockFor, 0);
    } else {
      var before, t := tries[..|tries| - 1], tries[|tries| - 1];
      GuessesAreSpaced(p, max, lockFor, before);
      if before == [] {
        NothingCounted(p, max, lockFor, t.now);
        GuessIsCounted(p, [], max, lockFor, t.now, t);
      } else {
        assert before[|before| - 1].now <= before[|before| - 1].later <= t.now;
        GuessIsCounted(AfterTries(p, max, lockFor, before), Comparisons(p, max, lockFor, before), max, lockFor,
                       before[|before| - 1].now, t);
      }
    }
  }

  lemma NothingCounted(p: Lock, max: nat, lockFor: int, now: int)
    requires 0 <= p.attempts < max
    ensures Counted(p, [], max, lockFor, now)
  {
  }

  /** The comparisons that fall into [from, from + lockFor). */
  function During(cs: seq<int>, from: int, lockFor: int): set<int> {
    set i | 0 <= i < |cs| && from <= cs[i] < from + lockFor
  }

  lemma SpacedMeansFew(cs: seq<int>, max: nat, from: int, lockFor: int)
    requires Nondecreasing(cs) && Spaced(cs, max, lockFor)
    ensures |During(cs, from, lockFor)| <= max
  {
    var inside := During(cs, from, lockFor);
    if |inside| > 0 {
      var first := Least(inside);
      assert first + max < |cs| ==> cs[first + max] >= cs[first] + lockFor;
      assert inside <= Range(first, max);
      SubsetSize(inside, Range(first, max));
    }
  }

  /**
   * Whatever the guesser does, no half-open interval as long as the lock contains more than `max` comparisons of a
   * wrong PIN.
   */
  lemma FewGuessesPerLock(p: Lock, max: nat, lockFor: int, tries: seq<Try>, from: int)
    requires 0 <= p.attempts < max && lockFor >= 0 && Guesses(tries)
    ensures |During(Comparisons(p, max, lockFor, tries), from, lockFor)| <= max
  {
    GuessesAreSpaced(p, max, lockFor, tries);
    SpacedMeansFew(Comparisons(p, max, lockFor, tries), max, from, lockFor);
  }
}
