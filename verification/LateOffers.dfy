/**
 * MakeOffer taken apart: it looks for the driver's pending offer, and then writes that whole row back with the new
 * price, or creates a row. This says exactly when these writes, come late, break what holds of accepted offers.
 */
module LateOffers {
  import opened Ledger
  import LedgerIntegrity
  import opened Matching
  import opened MatchingSafety
  import DriverTrips
  import SerialMatching

  /** The row was found as a pending offer of the same trip and driver; these columns of an offer never change. */
  predicate WasFound(s: State, o: Id, read: Offer) {
    && o in s.offers && read.status.OfferPending?
    && read.trip == s.offers[o].trip && read.driver == s.offers[o].driver && read.driverUser == s.offers[o].driverUser
  }

  /** The write of all columns. */
  function LateReprice(s: State, o: Id, read: Offer, price: int): State {
    s.(offers := s.offers[o := read.(price := price)])
  }

  function LateCreate(s: State, o: Id, row: Offer): State {
    s.(offers := s.offers[o := row])
  }

  /** A write in time is MakeOffer in one step. */
  lemma RepriceInTime(s: State, other: Id, o: Id, price: int)
    requires o in s.offers && price >= 1 && TripIs(s, s.offers[o].trip, Requested)
    requires PendingOffers(s.offers, s.offers[o].trip, s.offers[o].driver) == {o}
    ensures var row := s.offers[o];
      Next(s, MakeOffer(other, row.trip, row.driver, row.driverUser, price)) == LateReprice(s, o, row, price)
  {
    assert o in PendingOffers(s.offers, s.offers[o].trip, s.offers[o].driver);
  }

  /** Exactly the accepted offers have a holder: the trip they won, or one unfinished AcceptOffer. */
  ghost predicate HolderOk(s: State, o: Id) {
    o in s.offers ==>
      (s.offers[o].status.OfferAccepted? <==> Won(s.wins, o, s.offers[o]) || OwnersOf(s.accepts, o) != {})
  }

  lemma SafeHolders(s: State, o: Id)
    requires Safe(s)
    ensures HolderOk(s, o)
  {
    hide LedgerIntegrity.Inv, CallsFit, TripsOk, OnePerPassenger, OwnersOf;
    if o in s.offers {
      assert OfferOk(s.offers[o], Won(s.wins, o, s.offers[o]), OwnersOf(s.accepts, o));
    }
  }

  /** A late write takes an offer from its holder exactly if the offer has been accepted since it was found. */
  lemma RepriceBreaksHolderIff(s: State, o: Id, read: Offer, price: int)
    requires Safe(s) && WasFound(s, o, read)
    ensures !HolderOk(LateReprice(s, o, read, price), o) <==> s.offers[o].status.OfferAccepted?
  {
    hide Safe, OwnersOf;
    SafeHolders(s, o);
  }

  /** Otherwise it keeps the whole invariant; an offer that was rejected, superseded or withdrawn is pending again. */
  lemma RepriceKeepsSafeIff(s: State, o: Id, read: Offer, price: int)
    requires Safe(s) && WasFound(s, o, read) && price >= 1
    ensures Safe(LateReprice(s, o, read, price)) <==> !s.offers[o].status.OfferAccepted?
    ensures LateReprice(s, o, read, price).offers[o].status.OfferPending?
  {
    hide Safe, HolderOk;
    var s' := LateReprice(s, o, read, price);
    RepriceBreaksHolderIff(s, o, read, price);
    if s.offers[o].status.OfferAccepted? {
      if Safe(s') {
        SafeHolders(s', o);
      }
    } else {
      OtherStatusKeepsSafe(s, o, read, price);
    }
  }

  lemma OtherStatusKeepsSafe(s: State, o: Id, read: Offer, price: int)
    requires Safe(s) && WasFound(s, o, read) && price >= 1 && !s.offers[o].status.OfferAccepted?
    ensures Safe(LateReprice(s, o, read, price))
  {
    hide LedgerIntegrity.Inv, TripsOk, OffersOk, OnePerPassenger;
    OffersKeepSafe(s, s.offers[o := read.(price := price)]);
  }

  /** A new row keeps the invariant whenever it is written, even on a trip that is no longer open. */
  lemma CreateKeepsSafe(s: State, o: Id, row: Offer)
    requires Safe(s) && o !in s.offers && row.trip in s.trips && row.price >= 1 && row.status.OfferPending?
    ensures Safe(LateCreate(s, o, row))
  {
    hide LedgerIntegrity.Inv, TripsOk, OffersOk, OnePerPassenger;
    OffersKeepSafe(s, s.offers[o := row]);
  }

  /**
   * A run from the start: driver 7 changes the price of an offer that has meanwhile won its trip. It is pending
   * again.
   */
  lemma LateRepriceIsReachable() returns (read: seq<Event>, events: seq<Event>)
    ensures read <= events && 1 in After(read).offers && WasFound(After(events), 1, After(read).offers[1])
    ensures var s := LateReprice(After(events), 1, After(read).offers[1], 600);
      && TripIs(s, 1, Matched) && Won(s.wins, 1, s.offers[1]) && s.offers[1].status.OfferPending?
  {
    hide Next, After, Safe;
    assert After([]) == START by { DriverTrips.AtStart(); }
    read := DriverTrips.OneMoreOffered([], 1);
    events := DriverTrips.OneMoreClaimed(read, 1);
    WinRecorded(After(events), 1);
    SerialMatching.AfterOneMore(events, MatchTrip(1));
    events := events + [MatchTrip(1)];
  }

  lemma WinRecorded(s: State, d: Id)
    requires InStage(s, d, OfferClaimed) && TripIs(s, s.accepts[d].trip, Requested)
    ensures var (s', a) := (Next(s, MatchTrip(d)), s.accepts[d]);
      && s'.offers == s.offers && TripIs(s', a.trip, Matched)
      && s'.wins == s.wins[a.trip := Win(a.offer, a.row, a.took)]
  {
  }
}
