/**
 * The promises that matching makes to passengers and drivers, in every interleaving of the calls of module Matching.
 */
module MatchingLaws {
  import opened Wrappers
  import opened Ledger
  import LedgerIntegrity
  import opened Matching
  import opened MatchingSafety

  // ---- offers ----

  function AcceptedOffers(offers: map<Id, Offer>, t: Id): set<Id> {
    set o | o in offers && offers[o].trip == t && offers[o].status.OfferAccepted?
  }

  /**
   * An accepted offer won its trip, which names its driver, or belongs to exactly one unfinished AcceptOffer; never
   * both.
   */
  lemma AcceptedOfferHasOneHolder(events: seq<Event>, o: Id)
    ensures var s := After(events);
      o in s.offers ==>
        var t := s.offers[o].trip;
        var winner := t in s.wins && s.wins[t].offer == o;
        && (s.offers[o].status.OfferAccepted? <==> winner || OwnersOf(s.accepts, o) != {})
        && (winner ==> OwnersOf(s.accepts, o) == {} && t in s.trips && s.trips[t].driver == Some(s.offers[o].driver))
        && (forall c, d :: c in OwnersOf(s.accepts, o) && d in OwnersOf(s.accepts, o) ==> c == d)
  {
    hide LedgerIntegrity.Inv, CallsFit, OnePerPassenger, FareOk, ReleaseOk, OwnersOf, Next;
    var s := After(events);
    EveryRunIsSafe(events);
    if o in s.offers && s.offers[o].trip in s.wins {
      assert WinOk(ViewOf(s, s.offers[o].trip));
    }
  }

  /**
   * With no AcceptOffer of the trip under way, it has one accepted offer, its driver's, if it ever matched, and none
   * otherwise.
   */
  lemma OneAcceptedOfferPerMatch(events: seq<Event>, t: Id)
    requires var s := After(events);
      t in s.trips && forall c :: c in s.accepts ==> s.accepts[c].trip != t
    ensures var s := After(events);
      if s.trips[t].driver.None? then AcceptedOffers(s.offers, t) == {}
      else exists o :: AcceptedOffers(s.offers, t) == {o} && s.offers[o].driver == s.trips[t].driver.value
  {
    hide Safe, Next;
    EveryRunIsSafe(events);
    OneAcceptedOffer(After(events), t);
  }

  lemma OneAcceptedOffer(s: State, t: Id)
    requires Safe(s) && t in s.trips && forall c :: c in s.accepts ==> s.accepts[c].trip != t
    ensures if s.trips[t].driver.None? then AcceptedOffers(s.offers, t) == {}
            else exists o :: AcceptedOffers(s.offers, t) == {o} && s.offers[o].driver == s.trips[t].driver.value
  {
    hide LedgerIntegrity.Inv, OnePerPassenger, FareOk, ReleaseOk;
    assert WinOk(ViewOf(s, t));
    AcceptedMeansWon(s, t);
    if t in s.wins {
      assert AcceptedOffers(s.offers, t) == {s.wins[t].offer};
    }
  }

  /** With no call of the trip under way, nobody owns its offers, so the accepted ones have won it. */
  lemma AcceptedMeansWon(s: State, t: Id)
    requires Safe(s) && forall c :: c in s.accepts ==> s.accepts[c].trip != t
    ensures forall o :: o in s.offers && s.offers[o].trip == t ==>
      (s.offers[o].status.OfferAccepted? <==> Won(s.wins, o, s.offers[o]))
  {
    hide LedgerIntegrity.Inv, OnePerPassenger, TripsOk;
    forall o | o in s.offers && s.offers[o].trip == t
      ensures s.offers[o].status.OfferAccepted? <==> Won(s.wins, o, s.offers[o]) {
      assert OwnersOf(s.accepts, o) == {};
    }
  }

  // ---- the fare ----

  predicate NoFareInFlight(s: State, t: Id) {
    FaresOf(s.accepts, t) == map[] && forall c :: c in s.followups ==> s.followups[c] != RefundFare(t)
  }

  /** A request that is open, expired or cancelled keeps no fare once its calls have finished. */
  lemma UnmatchedTripKeepsNoFare(events: seq<Event>, t: Id)
    requires var s := After(events);
      t in s.trips && t !in s.settledByAdmin && NoFareInFlight(s, t)
      && (s.trips[t].status.Requested? || s.trips[t].status.TripExpired? || s.trips[t].status.Cancelled?)
    ensures var s := After(events); t in s.store.holds ==> !Live(s.store.holds[t])
  {
    hide LedgerIntegrity.Inv, CallsFit, OffersOk, OnePerPassenger, ReleaseOk, Next;
    var s := After(events);
    EveryRunIsSafe(events);
    var v := ViewOf(s, t);
    assert TripOk(v);
    assert forall c :: c in v.todo ==> v.todo[c] == s.followups[c] && s.followups[c].trip == t;
  }

  /**
   * A matched or picked-up trip has its fare in escrow, from its passenger to its driver and for the agreed price,
   * exactly when the call that won the trip is the call that took the fare.
   */
  lemma MatchedTripHasFareIffWinnerTookIt(events: seq<Event>, t: Id)
    requires var s := After(events);
      t in s.trips && OnTheWay(s.trips[t]) && t !in s.settledByAdmin && NoFareInFlight(s, t)
    ensures var s := After(events);
      && t in s.wins
      && (s.wins[t].took <==> t in s.store.holds && Live(s.store.holds[t]))
      && (s.wins[t].took ==>
            var h := s.store.holds[t];
            && h.payer == s.trips[t].passenger && s.trips[t].driver == Some(h.driver)
            && s.trips[t].agreedPrice == Some(h.amount)
            && h.payee == s.wins[t].row.driverUser)
  {
    hide LedgerIntegrity.Inv, CallsFit, OffersOk, OnePerPassenger, ReleaseOk, Next;
    var s := After(events);
    EveryRunIsSafe(events);
    assert TripOk(ViewOf(s, t));
  }

  /** A release window, and a release not decided by an admin, mean that the trip was completed. */
  lemma OnlyCompletedTripsPay(events: seq<Event>, t: Id)
    ensures var s := After(events);
      && (t in s.store.holds && s.store.holds[t].releaseAfter.Some? ==> TripIs(s, t, Completed))
      && (t in s.store.holds && s.store.holds[t].status.Released? ==>
            t in s.releasedBy && (s.releasedBy[t].ByAdmin? || TripIs(s, t, Completed)))
  {
    hide LedgerIntegrity.Inv, CallsFit, OffersOk, OnePerPassenger, FareOk, WinOk, Next;
    var s := After(events);
    EveryRunIsSafe(events);
    if t in s.store.holds {
      assert ReleaseOk(ViewOf(s, t));
    }
  }

  /** No passenger has two active trips. */
  lemma PassengerHasOneActiveTrip(events: seq<Event>, t: Id, u: Id)
    requires var s := After(events);
      t in s.trips && u in s.trips && t != u && s.trips[t].passenger == s.trips[u].passenger
    ensures var s := After(events); !(Active(s.trips[t]) && Active(s.trips[u]))
  {
    hide LedgerIntegrity.Inv, CallsFit, OffersOk, TripsOk, Next;
    EveryRunIsSafe(events);
  }
}
