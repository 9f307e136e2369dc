/**
 * A disputed hold is parked for an admin, but ReleaseEscrow pays disputed holds as well, and the passenger's
 * confirmation and the timer look at the hold before they call it: exactly when a disputed hold can still be paid
 * without an admin.
 */
module Disputes {
  import opened Ledger
  import opened Matching
  import opened MatchingSafety
  import opened HoldSteps
  import DriverTrips
  import SerialMatching

  /** A release of t that has looked at the hold and has not called the ledger yet. */
  ghost predicate ReleaseUnderWay(s: State, t: Id) {
    exists c :: c in s.followups && s.followups[c].PayDriver? && s.followups[c].trip == t
  }

  /** No admin releases t. */
  predicate NoAdminRelease(events: seq<Event>, t: Id) {
    forall i :: 0 <= i < |events| ==> events[i] != AdminResolve(t, true)
  }

  /** This version of the hold of t has been paid to the driver. */
  predicate PaidOut(s: State, t: Id, version: int) {
    t in s.store.holds && s.store.holds[t].version == version && s.store.holds[t].status.Released?
  }

  /** The version is disputed with no release under way, refunded, or past. */
  ghost predicate Parked(s: State, t: Id, version: int) {
    t in s.store.holds &&
    var h := s.store.holds[t];
    h.version > version
    || (h.version == version && (h.status.Refunded? || (h.status.Disputed? && !ReleaseUnderWay(s, t))))
  }

  lemma NextStaysParked(s: State, e: Event, t: Id, version: int)
    requires Parked(s, t, version) && e != AdminResolve(t, true)
    ensures Parked(Next(s, e), t, version)
  {
    hide Next;
    NextHold(s, e, t);
    if s.store.holds[t].status.Disputed? && ReleaseUnderWay(Next(s, e), t) {
      NoNewRelease(s, e, t);
    }
  }

  /** Releases look for held holds. */
  lemma NoNewRelease(s: State, e: Event, t: Id)
    requires t in s.store.holds && s.store.holds[t].status.Disputed? && ReleaseUnderWay(Next(s, e), t)
    ensures ReleaseUnderWay(s, t)
  {
    hide Next;
    NextFollowups(s, e);
    var followups := Next(s, e).followups;
    var c :| c in followups && followups[c].PayDriver? && followups[c].trip == t;
    assert !MayStart(s, followups[c]);
  }

  lemma {:induction false} RunStaysParked(s: State, events: seq<Event>, t: Id, version: int)
    requires Parked(s, t, version) && NoAdminRelease(events, t)
    ensures Parked(Continue(s, events), t, version)
    decreases |events|
  {
    hide Next, Parked;
    if events != [] {
      RunStaysParked(s, events[..|events| - 1], t, version);
      NextStaysParked(Continue(s, events[..|events| - 1]), events[|events| - 1], t, version);
    }
  }

  lemma ReleasePays(s: State, c: Id, t: Id)
    requires Safe(s) && t in s.store.holds && s.store.holds[t].status.Disputed?
    requires c in s.followups && s.followups[c].PayDriver? && s.followups[c].trip == t
    ensures PaidOut(Next(s, FollowUp(c, 0)), t, s.store.holds[t].version)
  {
    hide Next, Safe, SettleEscrow;
    SafeSays(s, t);
    Settles(s.store, t, true);
    PaysStore(s, c);
  }

  lemma PaysStore(s: State, c: Id)
    requires c in s.followups && s.followups[c].PayDriver?
    ensures Next(s, FollowUp(c, 0)).store == SettleEscrow(s.store, s.followups[c].trip, true).0
  {
    hide SettleEscrow;
  }

  /** A disputed hold can be paid to the driver without an admin exactly if a release of it is under way already. */
  lemma DisputedIsPaidIff(s: State, t: Id)
    requires Safe(s) && t in s.store.holds && s.store.holds[t].status.Disputed?
    ensures ReleaseUnderWay(s, t)
       <==> exists events :: NoAdminRelease(events, t) && PaidOut(Continue(s, events), t, s.store.holds[t].version)
  {
    hide Safe, Next, NoAdminRelease;
    var version := s.store.holds[t].version;
    if ReleaseUnderWay(s, t) {
      var c :| c in s.followups && s.followups[c].PayDriver? && s.followups[c].trip == t;
      ReleasePays(s, c, t);
      OneStep(s, FollowUp(c, 0), t);
    } else {
      forall events | NoAdminRelease(events, t) ensures !PaidOut(Continue(s, events), t, version) {
        RunStaysParked(s, events, t, version);
      }
    }
  }

  lemma OneStep(s: State, e: Event, t: Id)
    ensures Continue(s, [e]) == Next(s, e)
    ensures e != AdminResolve(t, true) ==> NoAdminRelease([e], t)
  {
    hide Next;
    assert [e][..0] == [];
  }

  // ---- a run ----

  /** Trip 1, which call 1 has won for driver 7, with the fare in escrow. */
  lemma WonRun() returns (events: seq<Event>)
    ensures var s := After(events);
      && TripIs(s, 1, Matched) && s.followups == map[] && s.settledByAdmin == {}
      && 1 in s.store.holds && s.store.holds[1].status.Held?
  {
    hide Next, After, Safe;
    assert After([]) == START by { DriverTrips.AtStart(); }
    events := DriverTrips.OneMoreOffered([], 1);
    events := DriverTrips.OneMoreClaimed(events, 1);
    SerialMatching.WinEffect(After(events), 1);
    SerialMatching.AfterOneMore(events, MatchTrip(1));
    events := events + [MatchTrip(1)];
  }

  lemma PicksUp(s: State)
    requires TripIs(s, 1, Matched)
    ensures var s' := Next(s, ConfirmPickup(1)); s' == s.(trips := s'.trips) && TripIs(s', 1, PickedUp)
  {
  }

  lemma Completes(s: State)
    requires TripIs(s, 1, PickedUp) && s.followups == map[]
    ensures var s' := Next(s, CompleteTrip(0, 1));
      s' == s.(trips := s'.trips, followups := map[0 := OpenWindow(1)]) && TripIs(s', 1, Completed)
  {
  }

  lemma Confirms(s: State)
    requires TripIs(s, 1, Completed) && 1 !in s.followups && 1 in s.store.holds && s.store.holds[1].status.Held?
    ensures Next(s, ConfirmTrip(1, 1)) == s.(followups := s.followups[1 := PayDriver(1, ByPassenger)])
  {
  }

  lemma IsDisputed(s: State)
    requires TripIs(s, 1, Completed) && 1 in s.store.holds && s.store.holds[1].status.Held?
    ensures var s' := Next(s, DisputeTrip(1));
      s' == s.(store := s'.store) && 1 in s'.store.holds && s'.store.holds[1].status.Disputed?
  {
  }

  /**
   * A run from the start: picked up, completed and confirmed by the passenger, who disputes the trip before the
   * confirmation has called the ledger. The disputed fare is then paid to the driver, and no admin has decided
   * anything.
   */
  lemma DisputedIsPaidIsReachable() returns (disputed: seq<Event>)
    ensures var s := After(disputed);
      && 1 in s.store.holds && s.store.holds[1].status.Disputed? && s.settledByAdmin == {}
      && PaidOut(Next(s, FollowUp(1, 0)), 1, s.store.holds[1].version)
  {
    hide Next, After, Safe;
    var events := WonRun();
    PicksUp(After(events));
    Completes(Next(After(events), ConfirmPickup(1)));
    events := SerialMatching.TwoMore(events, ConfirmPickup(1), CompleteTrip(0, 1));
    Confirms(After(events));
    IsDisputed(Next(After(events), ConfirmTrip(1, 1)));
    disputed := SerialMatching.TwoMore(events, ConfirmTrip(1, 1), DisputeTrip(1));
    EveryRunIsSafe(disputed);
    ReleasePays(After(disputed), 1, 1);
  }
}
