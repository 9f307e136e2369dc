/**
 * A crash in the middle of AcceptOffer, which nothing in the service repairs: exactly when the invariant of module
 * MatchingSafety survives it.
 */
module CrashedAccept {
  import opened Wrappers
  import opened Ledger
  import LedgerIntegrity
  import opened Matching
  import opened MatchingSafety
  import DriverTrips

  /** This call's fare is the one in escrow, and no match and no refund under way accounts for it. */
  predicate OnlyOneToReturn(v: TripView, call: Id) {
    && !v.settledByAdmin && FareInEscrow(v) && v.fares.Keys == {call}
    && (FareUnspent(v) || (v.trip.status.Cancelled? && !RefundDue(v)))
  }

  /** The call is the only one to put its offer back, or the only one to return the fare. */
  predicate Indispensable(s: State, call: Id)
    requires call in s.accepts && s.accepts[call].trip in s.trips
  {
    Owning(s.accepts[call]) || OnlyOneToReturn(ViewOf(s, s.accepts[call].trip), call)
  }

  lemma CallExists(s: State, call: Id)
    requires Safe(s) && call in s.accepts
    ensures s.accepts[call].trip in s.trips && (s.accepts[call].Accepting? ==> s.accepts[call].offer in s.offers)
  {
    hide LedgerIntegrity.Inv, OffersOk, TripsOk, OnePerPassenger;
  }

  /** What the crash leaves of the view of the call's trip. */
  lemma ViewAfter(s: State, call: Id)
    requires call in s.accepts && s.accepts[call].trip in s.trips
    ensures var t := s.accepts[call].trip;
      ViewOf(Quit(s, call), t) == ViewOf(s, t).(fares := ViewOf(s, t).fares - {call})
  {
    hide FaresOf, TodoOf, Taking;
    FaresAfterPut(s.accepts, call, None, s.accepts[call].trip);
  }

  lemma OnlyKey(fares: map<Id, Offer>, call: Id)
    requires fares != map[] && fares - {call} == map[]
    ensures fares.Keys == {call}
  {
    assert forall c :: c in fares && c != call ==> c in fares - {call};
    assert call !in fares ==> fares - {call} == fares;
  }

  lemma FewerFares(v: TripView, call: Id)
    requires TripOk(v)
    ensures TripOk(v.(fares := v.fares - {call})) <==> !OnlyOneToReturn(v, call)
  {
    var v' := v.(fares := v.fares - {call});
    assert RefundDue(v') <==> RefundDue(v);
    if OnlyOneToReturn(v, call) {
      assert v'.fares.Keys == v.fares.Keys - {call} == {};
    } else if FareInEscrow(v) && v.fares != map[] && v'.fares == map[] {
      OnlyKey(v.fares, call);
    }
    assert ReleaseOk(v') by { SameReleases(v, v'); }
  }

  lemma SameReleases(v: TripView, v': TripView)
    requires ReleaseOk(v) && v' == v.(fares := v'.fares)
    ensures ReleaseOk(v')
  {
    forall c | c in v'.todo ensures TodoOk(v', v'.todo[c]) {
      assert TodoOk(v, v.todo[c]);
    }
  }

  lemma OwnerLost(s: State, call: Id)
    requires Safe(s) && call in s.accepts && Owning(s.accepts[call])
    ensures !Safe(Quit(s, call))
  {
    hide LedgerIntegrity.Inv, TripsOk, OnePerPassenger;
    var o := s.accepts[call].offer;
    CallExists(s, call);
    assert OfferOk(s.offers[o], Won(s.wins, o, s.offers[o]), OwnersOf(s.accepts, o));
    assert call in OwnersOf(s.accepts, o);
    OwnersAfterPut(s.accepts, call, None, o);
    assert OwnersOf(Quit(s, call).accepts, o) == {};
  }

  /** A crash keeps the invariant exactly if the call is not indispensable. */
  lemma CrashIsHarmlessIff(s: State, call: Id)
    requires Safe(s) && call in s.accepts
    ensures s.accepts[call].trip in s.trips && (Safe(Quit(s, call)) <==> !Indispensable(s, call))
  {
    hide Safe, TripOk, OnlyOneToReturn, ViewOf;
    var t := s.accepts[call].trip;
    CallExists(s, call);
    SafeSays(s, t);
    ViewAfter(s, call);
    FewerFares(ViewOf(s, t), call);
    if Owning(s.accepts[call]) {
      OwnerLost(s, call);
    } else if OnlyOneToReturn(ViewOf(s, t), call) {
      if Safe(Quit(s, call)) {
        SafeSays(Quit(s, call), t);
      }
    } else {
      HarmlessCrash(s, call);
    }
  }

  lemma HarmlessCrash(s: State, call: Id)
    requires Safe(s) && call in s.accepts && s.accepts[call].trip in s.trips && !Owning(s.accepts[call])
    requires TripOk(ViewOf(Quit(s, call), s.accepts[call].trip))
    ensures Safe(Quit(s, call))
  {
    hide LedgerIntegrity.Inv, TripOk, OffersOk, OnePerPassenger, OtherTripsUntouched, ViewOf, Owning, Fits;
    var t := s.accepts[call].trip;
    OthersUntouched(s, Quit(s, call), call, None, t);
    OwnersStillOk(s.offers, s.accepts, s.wins, call, None);
    TripKeepsSafe(s, Quit(s, call), t);
  }

  /** A run from the start up to such a call: it has taken the fare and claimed the offer. */
  lemma HarmfulCrashIsReachable() returns (events: seq<Event>)
    ensures 1 in After(events).accepts && !Safe(Quit(After(events), 1))
  {
    hide Next, After, Safe;
    assert After([]) == START by { DriverTrips.AtStart(); }
    events := DriverTrips.OneMoreOffered([], 1);
    events := DriverTrips.OneMoreClaimed(events, 1);
    EveryRunIsSafe(events);
    OwnerLost(After(events), 1);
  }
}
