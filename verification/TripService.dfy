/**
 * The trip service as it runs without another call in between. Each method is proved to be a run of the steps
 * of module Matching, so what holds of every interleaving holds of it; AcceptOffer alone is all or nothing.
 */
module TripService {
  import opened Wrappers
  import opened Ledger
  import EscrowService
  import LedgerIntegrity
  import LedgerMoves
  import LedgerOutcomes
  import LedgerStore
  import opened Matching
  import MatchingSafety
  import Quotes
  import Repositories

  datatype Refusal =
    | TripNotFound | NotTripOwner | TripNotOpen | OfferNotFound | OfferNotPending | SubscriptionInactive | DriverBusy
    | HoldRefused(error: Error) | PinFailed | NotMatchedDriver | WrongStatus | WrongPin

  // ---- AcceptOffer as a run ----

  /** Up to the claim of the offer. */
  ghost function Claimed(s: State, t: Id, o: Id): State {
    Next(Next(Next(Next(Next(s, ReadTrip(0, t)), ReadOffer(0, o)), CheckDriver(0)), TakeFare(0)), ClaimOffer(0))
  }

  ghost function AcceptAlone(s: State, t: Id, o: Id, pinOk: bool): State {
    var claimed := Claimed(s, t, o);
    if pinOk then Next(Next(claimed, MatchTrip(0)), SupersedeOthers(0))
    else Next(Next(Next(claimed, GiveUp(0)), UndoFare(0)), RollBackOffer(0))
  }

  predicate Quiet(s: State) {
    s.accepts == map[] && s.followups == map[]
  }

  /** The offer can be accepted by the trip's passenger. */
  predicate Acceptable(s: State, t: Id, o: Id) {
    TripIs(s, t, Requested) && o in s.offers && s.offers[o].trip == t && s.offers[o].status.OfferPending?
  }

  function Call(s: State, t: Id, o: Id, stage: Stage, took: bool): map<Id, Accept>
    requires Acceptable(s, t, o)
  {
    map[0 := Accepting(t, s.trips[t].passenger, o, s.offers[o], stage, took)]
  }

  lemma Reads(s: State, t: Id, o: Id)
    requires Quiet(s) && Acceptable(s, t, o)
    ensures Next(Next(s, ReadTrip(0, t)), ReadOffer(0, o)) == s.(accepts := Call(s, t, o, OfferRead, false))
  {
    assert Next(s, ReadTrip(0, t)) == s.(accepts := map[0 := TripRead(t, s.trips[t].passenger)]);
  }

  lemma Ends(s: State, accepts: map<Id, Accept>)
    requires accepts.Keys == {0} && s.accepts == map[]
    ensures accepts - {0} == s.accepts
  {
  }

  lemma ChecksDriver(s: State, t: Id, o: Id)
    requires Quiet(s) && Acceptable(s, t, o)
    ensures Next(s.(accepts := Call(s, t, o, OfferRead, false)), CheckDriver(0)) ==
      if IsDriving(s.trips, s.offers[o].driver) then s else s.(accepts := Call(s, t, o, DriverFree, false))
  {
    hide IsDriving;
    Ends(s, Call(s, t, o, OfferRead, false));
  }

  /** The hold this offer asks for. */
  function HoldFor(s: State, t: Id, o: Id): (Store, Outcome)
    requires Acceptable(s, t, o)
  {
    var row := s.offers[o];
    HoldEscrow(s.store, t, s.trips[t].passenger, row.driverUser, row.driver, row.price)
  }

  lemma TakesFare(s: State, t: Id, o: Id)
    requires Quiet(s) && Acceptable(s, t, o)
    ensures Next(s.(accepts := Call(s, t, o, DriverFree, false)), TakeFare(0)) ==
      var (store, outcome) := HoldFor(s, t, o);
      if outcome.Refused? then s else s.(store := store, accepts := Call(s, t, o, FareHeld, outcome.Applied?))
  {
    hide HoldEscrow;
    Ends(s, Call(s, t, o, DriverFree, false));
  }

  /** The offer is claimed and the fare is held. */
  function AfterClaim(s: State, t: Id, o: Id, store: Store, took: bool): State
    requires Acceptable(s, t, o)
  {
    s.(store := store, offers := SwapOffer(s.offers, o, OfferPending, OfferAccepted),
       accepts := Call(s, t, o, OfferClaimed, took))
  }

  lemma Claims(s: State, t: Id, o: Id, store: Store, took: bool)
    requires Quiet(s) && Acceptable(s, t, o)
    ensures Next(s.(store := store, accepts := Call(s, t, o, FareHeld, took)), ClaimOffer(0)) ==
      AfterClaim(s, t, o, store, took)
  {
  }

  /** Steps of a call that has ended change nothing. */
  lemma Over(s: State)
    requires 0 !in s.accepts
    ensures Next(s, TakeFare(0)) == s && Next(s, ClaimOffer(0)) == s && Next(s, MatchTrip(0)) == s
    ensures Next(s, SupersedeOthers(0)) == s
  {
  }

  lemma OverUndone(s: State)
    requires 0 !in s.accepts
    ensures Next(s, GiveUp(0)) == s && Next(s, UndoFare(0)) == s && Next(s, RollBackOffer(0)) == s
  {
  }

  /** The trip as it is matched to the offer's driver. */
  function MatchedTrip(s: State, t: Id, o: Id): Trip
    requires Acceptable(s, t, o)
  {
    s.trips[t].(status := Matched, driver := Some(s.offers[o].driver), agreedPrice := Some(s.offers[o].price))
  }

  lemma Wins(s: State, t: Id, o: Id, store: Store, took: bool)
    requires Quiet(s) && Acceptable(s, t, o)
    ensures var claimed := AfterClaim(s, t, o, store, took);
      Next(Next(claimed, MatchTrip(0)), SupersedeOthers(0)) ==
        s.(store := store, trips := s.trips[t := MatchedTrip(s, t, o)], wins := s.wins[t := Win(o, s.offers[o], took)],
           offers := ClosePending(SwapOffer(s.offers, o, OfferPending, OfferAccepted), t, Some(o), OfferSuperseded))
  {
    hide ClosePending, SwapOffer;
    var claimed := AfterClaim(s, t, o, store, took);
    assert Next(claimed, MatchTrip(0)) == claimed.(trips := s.trips[t := MatchedTrip(s, t, o)],
      wins := s.wins[t := Win(o, s.offers[o], took)], accepts := Call(s, t, o, TripWon, took));
    Ends(s, Call(s, t, o, TripWon, took));
  }

  lemma Undoes(s: State, t: Id, o: Id, store: Store, took: bool)
    requires Quiet(s) && Acceptable(s, t, o)
    ensures var claimed := AfterClaim(s, t, o, store, took);
      Next(Next(Next(claimed, GiveUp(0)), UndoFare(0)), RollBackOffer(0)) ==
        s.(store := if took then RefundEscrow(store, t).0 else store)
  {
    hide RefundEscrow;
    var claimed := AfterClaim(s, t, o, store, took);
    var failing := claimed.(accepts := Call(s, t, o, UndoClaimed, took));
    assert Next(claimed, GiveUp(0)) == failing;
    UndoesFare(failing, t, took);
    var undone := failing.(store := if took then RefundEscrow(store, t).0
                           else store, accepts := Call(s, t, o, RollingBack, false));
    assert Next(failing, UndoFare(0)) == undone;
    RollsBack(undone, s, o);
  }

  lemma UndoesFare(s: State, t: Id, took: bool)
    requires InStage(s, 0, UndoClaimed) && s.accepts[0].trip == t && s.accepts[0].took == took
    ensures Next(s, UndoFare(0)) == s.(store := if took then RefundEscrow(s.store, t).0 else s.store,
      accepts := s.accepts[0 := s.accepts[0].(stage := RollingBack, took := false)])
  {
    hide RefundEscrow;
  }

  lemma SwappedBack(offers: map<Id, Offer>, o: Id)
    requires o in offers && offers[o].status.OfferPending?
    ensures SwapOffer(SwapOffer(offers, o, OfferPending, OfferAccepted), o, OfferAccepted, OfferPending) == offers
  {
  }

  lemma RollsBack(s: State, before: State, o: Id)
    requires InStage(s, 0, RollingBack) && s.accepts.Keys == {0} && s.accepts[0].offer == o
    requires before.accepts == map[] && o in before.offers && before.offers[o].status.OfferPending?
    requires s.offers == SwapOffer(before.offers, o, OfferPending, OfferAccepted)
    ensures Next(s, RollBackOffer(0)) == s.(offers := before.offers, accepts := map[])
  {
    SwappedBack(before.offers, o);
    Ends(before, s.accepts);
  }

  /** All the ways AcceptOffer can go when nothing else runs. */
  lemma AcceptAloneIs(s: State, t: Id, o: Id, pinOk: bool)
    requires Quiet(s) && Acceptable(s, t, o)
    ensures var (store, outcome) := HoldFor(s, t, o);
      AcceptAlone(s, t, o, pinOk) ==
        if IsDriving(s.trips, s.offers[o].driver) || outcome.Refused? then s
        else if !pinOk then s.(store := if outcome.Applied? then RefundEscrow(store, t).0 else store)
        else s.(store := store, trips := s.trips[t := MatchedTrip(s, t, o)],
                wins := s.wins[t := Win(o, s.offers[o], outcome.Applied?)],
                offers := ClosePending(SwapOffer(s.offers, o, OfferPending, OfferAccepted), t, Some(o),
                                       OfferSuperseded))
  {
    hide Next, HoldEscrow, IsDriving, RefundEscrow, ClosePending, SwapOffer, MatchedTrip, Call;
    var (store, outcome) := HoldFor(s, t, o);
    Reads(s, t, o);
    ChecksDriver(s, t, o);
    if IsDriving(s.trips, s.offers[o].driver) {
      Over(s);
      OverUndone(s);
    } else {
      TakesFare(s, t, o);
      if outcome.Refused? {
        Over(s);
        OverUndone(s);
      } else {
        Claims(s, t, o, store, outcome.Applied?);
        Wins(s, t, o, store, outcome.Applied?);
        Undoes(s, t, o, store, outcome.Applied?);
      }
    }
  }

  // ---- what AcceptOffer answers ----

  /** What stands in the way of accepting an offer. */
  ghost predicate Stops(s: State, passenger: Id, t: Id, o: Id, eligible: bool, pinOk: bool, e: Refusal) {
    match e
    case TripNotFound => t !in s.trips
    case NotTripOwner => t in s.trips && s.trips[t].passenger != passenger
    case TripNotOpen => t in s.trips && s.trips[t].status != Requested
    case OfferNotFound => o in s.offers ==> s.offers[o].trip != t
    case OfferNotPending => o in s.offers && s.offers[o].status != OfferPending
    case SubscriptionInactive => !eligible
    case DriverBusy =>
      o in s.offers && exists u :: u in s.trips && s.trips[u].driver == Some(s.offers[o].driver)
                                   && s.trips[u].status in {Matched, PickedUp}
    case HoldRefused(HoldConflict) =>
      o in s.offers && Standing(s.store, t) && !OnTheseTerms(s.store, t, passenger, s.offers[o])
    case HoldRefused(InsufficientFunds) =>
      o in s.offers && !Standing(s.store, t) && Quotes.BalanceOf(s.store, passenger) < s.offers[o].price
    case PinFailed => !pinOk
    case _ => false
  }

  /** The trip has a fare in escrow or paid out. */
  predicate Standing(s: Store, t: Id) {
    t in s.holds && s.holds[t].status != Refunded
  }

  predicate OnTheseTerms(s: Store, t: Id, passenger: Id, offer: Offer) {
    t in s.holds && s.holds[t].payer == passenger && s.holds[t].driver == offer.driver
    && s.holds[t].amount == offer.price
  }

  /** The order in which a call meets what is in its way. */
  function Place(e: Refusal): nat {
    match e
    case TripNotFound => 0
    case NotTripOwner => 1
    case TripNotOpen => 2
    case OfferNotFound => 3
    case OfferNotPending => 4
    case SubscriptionInactive => 5
    case DriverBusy => 6
    case HoldRefused(_) => 7
    case _ => 8
  }

  ghost predicate FirstStop(s: State, passenger: Id, t: Id, o: Id, eligible: bool, pinOk: bool, e: Refusal) {
    Stops(s, passenger, t, o, eligible, pinOk, e)
    && forall f :: Stops(s, passenger, t, o, eligible, pinOk, f) ==> Place(e) <= Place(f)
  }

  /**
   * The trip is the offer's driver's, the offer is accepted and the other pending ones of the trip are superseded; the
   * fare has gone from the passenger's wallet into escrow, unless it was there already.
   */
  ghost predicate IsMatched(s: State, s': State, t: Id, o: Id) {
    t in s.trips && o in s.offers
    && var (trip, offer) := (s.trips[t], s.offers[o]);
    && s'.trips == s.trips[t := Trip(trip.passenger, Matched, Some(offer.driver), Some(offer.price))]
    && s'.offers.Keys == s.offers.Keys
    && (forall p :: p in s.offers ==>
          s'.offers[p] == if p == o then offer.(status := OfferAccepted)
            else if s.offers[p].trip == t && s.offers[p].status == OfferPending
              then s.offers[p].(status := OfferSuperseded)
            else s.offers[p])
    && IsHeld(s.store, s'.store, t, trip.passenger, offer)
  }

  ghost predicate IsHeld(s: Store, s': Store, t: Id, passenger: Id, offer: Offer) {
    if Standing(s, t) then s'.holds == s.holds && LedgerOutcomes.OnlyBalance(s, s', passenger, 0)
    else
      && s'.holds == s.holds[t := Hold(passenger, offer.driverUser, offer.driver, offer.price, Held,
                                       if t in s.holds then s.holds[t].version + 1 else 1, None)]
      && LedgerOutcomes.OnlyBalance(s, s', passenger, -offer.price)
  }

  /** No balance has changed, and no hold but one that was opened and refunded. */
  ghost predicate IsUntouched(s: Store, s': Store, t: Id, passenger: Id) {
    && s'.holds - {t} == s.holds - {t}
    && (if Standing(s, t) then t in s'.holds && s'.holds[t] == s.holds[t] else !Standing(s', t))
    && LedgerOutcomes.OnlyBalance(s, s', passenger, 0)
  }

  /** The checks in front of the ledger, one after the other. */
  ghost function Guards(s: State, passenger: Id, t: Id, o: Id, eligible: bool): Option<Refusal> {
    if t !in s.trips then Some(TripNotFound)
    else if s.trips[t].passenger != passenger then Some(NotTripOwner)
    else if !s.trips[t].status.Requested? then Some(TripNotOpen)
    else if o !in s.offers || s.offers[o].trip != t then Some(OfferNotFound)
    else if !s.offers[o].status.OfferPending? then Some(OfferNotPending)
    else if !eligible then Some(SubscriptionInactive)
    else if IsDriving(s.trips, s.offers[o].driver) then Some(DriverBusy)
    else None
  }

  lemma BusyMeans(s: State, driver: Id)
    ensures IsDriving(s.trips, driver) <==>
      exists u :: u in s.trips && s.trips[u].driver == Some(driver) && s.trips[u].status in {Matched, PickedUp}
  {
    if u :| u in s.trips && s.trips[u].driver == Some(driver) && s.trips[u].status in {Matched, PickedUp} {
      assert Driving(s.trips[u], driver);
    }
    if IsDriving(s.trips, driver) {
      var u :| u in s.trips && Driving(s.trips[u], driver);
      assert s.trips[u].status in {Matched, PickedUp};
    }
  }

  lemma GuardsLaw(s: State, passenger: Id, t: Id, o: Id, eligible: bool, pinOk: bool)
    ensures match Guards(s, passenger, t, o, eligible)
      case Some(e) => FirstStop(s, passenger, t, o, eligible, pinOk, e)
      case None => Acceptable(s, t, o) && s.trips[t].passenger == passenger && eligible
                   && !IsDriving(s.trips, s.offers[o].driver)
                   && forall f :: Stops(s, passenger, t, o, eligible, pinOk, f) ==> Place(f) >= 7
  {
    hide IsDriving, Standing, OnTheseTerms;
    if o in s.offers {
      BusyMeans(s, s.offers[o].driver);
    }
  }

  lemma Untouched(s: Store, t: Id, passenger: Id)
    ensures IsUntouched(s, s, t, passenger)
  {
  }

  /** What taking the fare comes to. */
  lemma FareIsTaken(s: State, passenger: Id, t: Id, o: Id, eligible: bool, pinOk: bool)
    requires LedgerIntegrity.Inv(s.store) && Guards(s, passenger, t, o, eligible).None? && Acceptable(s, t, o)
    requires s.trips[t].passenger == passenger
    ensures var (store, outcome) := HoldFor(s, t, o);
      if outcome.Refused? then
        store == s.store && FirstStop(s, passenger, t, o, eligible, pinOk, HoldRefused(outcome.error))
      else IsHeld(s.store, store, t, passenger, s.offers[o]) && (outcome.NoOp? <==> Standing(s.store, t))
           && forall f :: Stops(s, passenger, t, o, eligible, pinOk, f) ==> f == PinFailed
  {
    hide LedgerIntegrity.Inv, HoldEscrow, IsDriving, LedgerOutcomes.OnlyBalance;
    var row := s.offers[o];
    LedgerOutcomes.HoldIsTakenIff(s.store, t, passenger, row.driverUser, row.driver, row.price);
    GuardsLaw(s, passenger, t, o, eligible, pinOk);
  }

  lemma FareIsReturned(s: Store, held: Store, t: Id, passenger: Id, offer: Offer)
    requires LedgerIntegrity.Inv(held) && offer.price >= 0 && !Standing(s, t) && IsHeld(s, held, t, passenger, offer)
    ensures IsUntouched(s, RefundEscrow(held, t).0, t, passenger)
  {
    hide LedgerIntegrity.Inv, SettleEscrow;
    LedgerOutcomes.HoldIsSettledIff(held, t, false);
  }

  lemma StandingFareStays(s: Store, s': Store, t: Id, passenger: Id, offer: Offer)
    requires Standing(s, t) && IsHeld(s, s', t, passenger, offer)
    ensures IsUntouched(s, s', t, passenger)
  {
    hide LedgerOutcomes.OnlyBalance;
  }

  /** Nothing in the way but perhaps the PIN: what the call then answers, and what it leaves. */
  lemma AcceptAnswers(s: State, passenger: Id, t: Id, o: Id, eligible: bool, pinOk: bool)
    requires Quiet(s) && LedgerIntegrity.Inv(s.store) && Guards(s, passenger, t, o, eligible).None?
    requires Acceptable(s, t, o) && s.trips[t].passenger == passenger && s.offers[o].price >= 0
    ensures var outcome := HoldFor(s, t, o).1;
      var s' := AcceptAlone(s, t, o, pinOk);
      if outcome.Refused? then s' == s && FirstStop(s, passenger, t, o, eligible, pinOk, HoldRefused(outcome.error))
      else if !pinOk then
        && FirstStop(s, passenger, t, o, eligible, pinOk, PinFailed)
        && s'.trips == s.trips && s'.offers == s.offers && IsUntouched(s.store, s'.store, t, passenger)
      else (forall f :: !Stops(s, passenger, t, o, eligible, pinOk, f)) && IsMatched(s, s', t, o)
  {
    hide LedgerIntegrity.Inv, HoldEscrow, SettleEscrow, IsDriving, AcceptAlone, IsHeld, IsUntouched, Standing;
    var (store, outcome) := HoldFor(s, t, o);
    var row := s.offers[o];
    AcceptAloneIs(s, t, o, pinOk);
    GuardsLaw(s, passenger, t, o, eligible, pinOk);
    FareIsTaken(s, passenger, t, o, eligible, pinOk);
    LedgerIntegrity.HoldEscrowKeepsInv(s.store, t, passenger, row.driverUser, row.driver, row.price);
    if !outcome.Refused? && !pinOk {
      if outcome.NoOp? {
        StandingFareStays(s.store, store, t, passenger, row);
      } else {
        FareIsReturned(s.store, store, t, passenger, row);
      }
    }
  }

  // ---- the service ----

  /** A fare that is held or disputed goes back to its payer, and nothing else moves. */
  ghost predicate IsRefunded(s: Store, s': Store, t: Id) {
    if t in s.holds && s.holds[t].status in {Held, Disputed} then
      && s'.holds == s.holds[t := s.holds[t].(status := Refunded)]
      && LedgerOutcomes.OnlyBalance(s, s', s.holds[t].payer, s.holds[t].amount)
    else s' == s
  }

  lemma RefundIs(s: Store, t: Id)
    ensures LedgerIntegrity.Inv(s) && (t in s.holds ==> s.holds[t].amount >= 0) ==>
      IsRefunded(s, RefundEscrow(s, t).0, t)
  {
    hide LedgerIntegrity.Inv, SettleEscrow, LedgerOutcomes.OnlyBalance;
    if LedgerIntegrity.Inv(s) && (t in s.holds ==> s.holds[t].amount >= 0) {
      LedgerOutcomes.HoldIsSettledIff(s, t, false);
    }
  }

  class TripService {
    const ledger: LedgerStore.LedgerRepository
    const trips: Repositories.TripRepository
    const offers: Repositories.TripOfferRepository
    ghost var wins: map<Id, Win>
    ghost var settledByAdmin: set<Id>
    ghost var releasedBy: map<Id, Releaser>

    constructor (ledger: LedgerStore.LedgerRepository, trips: Repositories.TripRepository,
                 offers: Repositories.TripOfferRepository)
      ensures this.ledger == ledger && this.trips == trips && this.offers == offers
      ensures wins == map[] && settledByAdmin == {} && releasedBy == map[]
    {
      this.ledger, this.trips, this.offers := ledger, trips, offers;
      wins, settledByAdmin, releasedBy := map[], {}, map[];
    }

    /** No call is under way between two calls. */
    ghost function AsState(): State
      reads this, ledger, trips, offers
    {
      State(ledger.Snapshot(), trips.trips, offers.offers, map[], map[], wins, settledByAdmin, releasedBy)
    }

    /**
     * A call is refused for the first thing in its way, and then changes no trip, offer or balance; if nothing is, the
     * trip is matched. eligible: the offering driver is still approved and subscribed.
     */
    method AcceptOffer(passenger: Id, t: Id, o: Id, eligible: bool, pinOk: bool) returns (e: Option<Refusal>)
      modifies this, ledger, trips, offers
      ensures var s := old(AsState());
        AsState() == if Acceptable(s, t, o) && s.trips[t].passenger == passenger && eligible
          then AcceptAlone(s, t, o, pinOk) else s
      ensures e.None? <==> TripIs(old(AsState()), t, Requested) && TripIs(AsState(), t, Matched)
      ensures old(LedgerIntegrity.Inv(ledger.Snapshot()))
              && (o in old(offers.offers) ==> old(offers.offers)[o].price >= 0) ==>
        match e
        case None =>
          && (forall f :: !Stops(old(AsState()), passenger, t, o, eligible, pinOk, f))
          && IsMatched(old(AsState()), AsState(), t, o)
        case Some(f) =>
          && FirstStop(old(AsState()), passenger, t, o, eligible, pinOk, f)
          && trips.trips == old(trips.trips) && offers.offers == old(offers.offers)
          && IsUntouched(old(ledger.Snapshot()), ledger.Snapshot(), t, passenger)
    {
      hide Stops, FirstStop, IsMatched, IsUntouched, LedgerIntegrity.Inv, AcceptAlone, Next, HoldEscrow, RefundEscrow,
           ClosePending;
      GuardsLaw(AsState(), passenger, t, o, eligible, pinOk);
      Untouched(ledger.Snapshot(), t, passenger);
      if t !in trips.trips {
        return Some(TripNotFound);
      }
      var trip := trips.trips[t];
      if trip.passenger != passenger {
        return Some(NotTripOwner);
      }
      if !trip.status.Requested? {
        return Some(TripNotOpen);
      }
      if o !in offers.offers || offers.offers[o].trip != t {
        return Some(OfferNotFound);
      }
      var offer := offers.offers[o];
      if !offer.status.OfferPending? {
        return Some(OfferNotPending);
      }
      if !eligible {
        return Some(SubscriptionInactive);
      }
      ghost var s := AsState();
      AcceptAloneIs(s, t, o, pinOk);
      var busy := trips.FindActiveByDriver(offer.driver);
      if busy.Some? {
        return Some(DriverBusy);
      }
      if LedgerIntegrity.Inv(s.store) && offer.price >= 0 {
        AcceptAnswers(s, passenger, t, o, eligible, pinOk);
      }
      var hold := ledger.HoldEscrow(t, passenger, offer.driverUser, offer.driver, offer.price);
      if hold.Refused? {
        HoldRefusedChangesNothing(s.store, t, passenger, offer.driverUser, offer.driver, offer.price);
        return Some(HoldRefused(hold.error));
      }
      var claimed := offers.CompareAndSwapStatus(o, OfferPending, OfferAccepted);
      if !claimed {
        assert false;
      }
      if !pinOk {
        if hold.Applied? {
          var _ := ledger.RefundEscrow(t);
        }
        var _ := offers.CompareAndSwapStatus(o, OfferAccepted, OfferPending);
        SwappedBack(s.offers, o);
        return Some(PinFailed);
      }
      var matched := trips.CompareAndSwapStatus(t, Requested,
        (row: Trip) => row.(status := Matched, driver := Some(offer.driver), agreedPrice := Some(offer.price)));
      if !matched {
        assert false;
      }
      wins := wins[t := Win(o, offer, hold.Applied?)];
      offers.SupersedeOtherPending(t, o);
      return None;
    }

    method RejectOffer(passenger: Id, t: Id, o: Id) returns (e: Option<Refusal>)
      modifies offers
      ensures AsState() == if e.None? then Next(old(AsState()), Matching.RejectOffer(o)) else old(AsState())
      ensures e.None? <==> t in trips.trips && trips.trips[t].passenger == passenger
                           && o in old(offers.offers) && old(offers.offers)[o].trip == t
                           && old(offers.offers)[o].status.OfferPending?
      ensures offers.offers == if e.Some? then old(offers.offers)
        else old(offers.offers)[o := old(offers.offers)[o].(status := OfferRejected)]
    {
      if t !in trips.trips {
        return Some(TripNotFound);
      }
      if trips.trips[t].passenger != passenger {
        return Some(NotTripOwner);
      }
      if o !in offers.offers || offers.offers[o].trip != t {
        return Some(OfferNotFound);
      }
      var rejected := offers.CompareAndSwapStatus(o, OfferPending, OfferRejected);
      return if rejected then None else Some(OfferNotPending);
    }

    method ConfirmPickup(driver: Id, t: Id, pinOk: bool) returns (e: Option<Refusal>)
      modifies trips
      ensures AsState() == if e.None? then Next(old(AsState()), Matching.ConfirmPickup(t)) else old(AsState())
      ensures e.None? <==> t in old(trips.trips) && old(trips.trips)[t].status == Matched
                           && old(trips.trips)[t].driver == Some(driver) && pinOk
      ensures trips.trips == if e.Some? then old(trips.trips)
        else old(trips.trips)[t := old(trips.trips)[t].(status := PickedUp)]
    {
      if t !in trips.trips {
        return Some(TripNotFound);
      }
      if trips.trips[t].driver != Some(driver) {
        return Some(NotMatchedDriver);
      }
      if !trips.trips[t].status.Matched? {
        return Some(WrongStatus);
      }
      if !pinOk {
        return Some(WrongPin);
      }
      var confirmed := trips.CompareAndSwapStatus(t, Matched, (row: Trip) => row.(status := PickedUp));
      if !confirmed {
        assert false;
      }
      return None;
    }

    /**
     * Completing a trip opens the release window of its fare: from the given moment on, and not before, it is due. No
     * other hold and no balance changes.
     */
    method CompleteTrip(driver: Id, t: Id, releaseAt: int) returns (e: Option<Refusal>)
      modifies trips, ledger
      ensures AsState() ==
        if e.None? then Next(Next(old(AsState()), Matching.CompleteTrip(0, t)), FollowUp(0, releaseAt))
          else old(AsState())
      ensures e.None? <==> t in old(trips.trips) && old(trips.trips)[t].status == PickedUp
                           && old(trips.trips)[t].driver == Some(driver)
      ensures trips.trips == if e.Some? then old(trips.trips)
        else old(trips.trips)[t := old(trips.trips)[t].(status := Completed)]
      ensures ledger.Snapshot() == old(ledger.Snapshot()).(holds := ledger.holds)
      ensures e.None? && t in old(ledger.holds) && old(ledger.holds)[t].status == Held ==>
        && ledger.holds == old(ledger.holds)[t := old(ledger.holds)[t].(releaseAfter := Some(releaseAt))]
        && forall now :: EscrowService.IsDue(ledger.holds[t], now) <==> releaseAt <= now
      ensures !(e.None? && t in old(ledger.holds) && old(ledger.holds)[t].status == Held) ==>
        ledger.holds == old(ledger.holds)
    {
      if t !in trips.trips {
        return Some(TripNotFound);
      }
      if trips.trips[t].driver != Some(driver) {
        return Some(NotMatchedDriver);
      }
      if !trips.trips[t].status.PickedUp? {
        return Some(WrongStatus);
      }
      CompletesAlone(AsState(), t, releaseAt);
      hide Next;
      var completed := trips.CompareAndSwapStatus(t, PickedUp, (row: Trip) => row.(status := Completed));
      if !completed {
        assert false;
      }
      ledger.MarkEscrowCompleted(t, releaseAt);
      return None;
    }

    /** The passenger, or the user whose profile is the trip's driver. */
    predicate MayCancel(trip: Trip, caller: Id, profile: Option<Id>) {
      trip.passenger == caller || (profile.Some? && trip.driver == profile)
    }

    /** profile: the caller's own driver profile, if any. A match is refunded, an open request withdraws its offers. */
    method CancelTrip(caller: Id, profile: Option<Id>, t: Id) returns (e: Option<Refusal>)
      modifies trips, offers, ledger
      ensures AsState() == if e.None? then Next(Next(old(AsState()), Matching.CancelTrip(0, t)), FollowUp(0, 0))
        else old(AsState())
      ensures e.None? <==> (TripIs(old(AsState()), t, Requested) || TripIs(old(AsState()), t, Matched))
                           && MayCancel(old(trips.trips)[t], caller, profile)
      ensures t in old(trips.trips) && !MayCancel(old(trips.trips)[t], caller, profile) ==> e == Some(NotTripOwner)
      ensures trips.trips == if e.Some? then old(trips.trips)
        else old(trips.trips)[t := old(trips.trips)[t].(status := Cancelled)]
      ensures e.None? && old(trips.trips)[t].status == Matched ==>
        offers.offers == old(offers.offers)
        && (old(LedgerIntegrity.Inv(ledger.Snapshot())) && (t in old(ledger.holds) ==> old(ledger.holds)[t].amount >= 0)
            ==> IsRefunded(old(ledger.Snapshot()), ledger.Snapshot(), t))
      ensures e.None? && old(trips.trips)[t].status == Requested ==>
        ledger.Snapshot() == old(ledger.Snapshot()) && offers.offers.Keys == old(offers.offers).Keys
        && forall o :: o in offers.offers ==>
          var offer := old(offers.offers)[o];
          offers.offers[o] == if offer.trip == t && offer.status == OfferPending
            then offer.(status := OfferWithdrawn) else offer
    {
      RefundIs(ledger.Snapshot(), t);
      if t !in trips.trips {
        return Some(TripNotFound);
      }
      if !MayCancel(trips.trips[t], caller, profile) {
        return Some(NotTripOwner);
      }
      var status := trips.trips[t].status;
      if !status.Requested? && !status.Matched? {
        return Some(WrongStatus);
      }
      CancelsAlone(AsState(), t);
      hide Next, RefundEscrow, IsRefunded, LedgerIntegrity.Inv;
      var cancelled := trips.CompareAndSwapStatus(t, status, (row: Trip) => row.(status := Cancelled));
      if !cancelled {
        assert false;
      }
      if status.Matched? {
        var _ := ledger.RefundEscrow(t);
      }
      if status.Requested? {
        offers.WithdrawAllPending(t);
      }
      return None;
    }
  }

  lemma CompletesAlone(s: State, t: Id, releaseAt: int)
    requires Quiet(s) && TripIs(s, t, PickedUp)
    ensures Next(Next(s, Matching.CompleteTrip(0, t)), FollowUp(0, releaseAt)) ==
      s.(trips := s.trips[t := s.trips[t].(status := Completed)], store := MarkEscrowCompleted(s.store, t, releaseAt))
  {
    hide MarkEscrowCompleted;
    assert map[0 := OpenWindow(t)] - {0} == s.followups;
  }

  lemma CancelsAlone(s: State, t: Id)
    requires Quiet(s) && (TripIs(s, t, Requested) || TripIs(s, t, Matched))
    ensures var cancelled := s.(trips := s.trips[t := s.trips[t].(status := Cancelled)]);
      Next(Next(s, Matching.CancelTrip(0, t)), FollowUp(0, 0)) ==
        if TripIs(s, t, Matched) then cancelled.(store := RefundEscrow(s.store, t).0)
        else cancelled.(offers := ClosePending(s.offers, t, None, OfferWithdrawn))
  {
    hide RefundEscrow, ClosePending;
    assert map[0 := RefundFare(t)] - {0} == s.followups && map[0 := WithdrawOffers(t)] - {0} == s.followups;
  }

  lemma HoldRefusedChangesNothing(s: Store, t: Id, payer: Id, payee: Id, driver: Id, amount: int)
    ensures HoldEscrow(s, t, payer, payee, driver, amount).1.Refused? ==>
      HoldEscrow(s, t, payer, payee, driver, amount).0 == s
  {
    hide ApplyPostings, PostingSum;
  }

  // ---- all or nothing ----

  /** An open request that no call is working on has no fare in escrow, and none that was released. */
  lemma NoFareYet(s: State, t: Id)
    requires MatchingSafety.Safe(s) && Quiet(s) && TripIs(s, t, Requested) && t !in s.settledByAdmin
    ensures t in s.store.holds ==> s.store.holds[t].status.Refunded?
  {
    hide MatchingSafety.Safe, LedgerIntegrity.Inv;
    MatchingSafety.SafeSays(s, t);
    var v := MatchingSafety.ViewOf(s, t);
    assert v.fares == map[];
  }

  /**
   * Run on its own, AcceptOffer either matches the trip to the offer's driver, with exactly this fare in escrow and
   * every other offer closed, or it leaves trips, offers and every account as they were, with no fare in escrow.
   */
  lemma AcceptIsAllOrNothing(s: State, t: Id, o: Id, pinOk: bool)
    requires MatchingSafety.Safe(s) && Quiet(s) && Acceptable(s, t, o) && t !in s.settledByAdmin
    ensures var s' := AcceptAlone(s, t, o, pinOk);
      var row := s.offers[o];
      if TripIs(s', t, Matched) then
        && s'.trips == s.trips[t := MatchedTrip(s, t, o)]
        && t in s'.store.holds
        && s'.store.holds[t] == Hold(s.trips[t].passenger, row.driverUser, row.driver, row.price, Held,
                                     s'.store.holds[t].version, None)
        && LedgerMoves.Moves(s.store, s'.store, WalletOf(s.trips[t].passenger), Escrow, row.price)
        && o in s'.offers && s'.offers[o].status.OfferAccepted?
        && (forall p :: p in s'.offers && s'.offers[p].trip == t ==> !s'.offers[p].status.OfferPending?)
      else
        && s'.trips == s.trips && s'.offers == s.offers && (t in s'.store.holds ==> !Live(s'.store.holds[t]))
        && LedgerMoves.Moves(s.store, s'.store, Escrow, Escrow, 0)
  {
    hide MatchingSafety.Safe, AcceptAlone, HoldEscrow, SettleEscrow, IsDriving, LedgerIntegrity.Inv, LedgerMoves.Moves;
    var row := s.offers[o];
    var (store, outcome) := HoldFor(s, t, o);
    AcceptAloneIs(s, t, o, pinOk);
    NoFareYet(s, t);
    MatchingSafety.SafeSays(s, t);
    MatchingSafety.HoldEscrowEffect(s.store, t, s.trips[t].passenger, row.driverUser, row.driver, row.price);
    LedgerMoves.HoldMoves(s.store, t, s.trips[t].passenger, row.driverUser, row.driver, row.price);
    LedgerIntegrity.HoldEscrowKeepsInv(s.store, t, s.trips[t].passenger, row.driverUser, row.driver, row.price);
    StandsStill(s.store);
    if outcome.Applied? && !pinOk {
      OfferPriced(s, o);
      MatchingSafety.RefundSettles(store, t);
      MatchingSafety.SettlementSucceeds(store, t, false);
      LedgerMoves.SettlementMoves(store, t, false);
      ThereAndBack(s.store, store, RefundEscrow(store, t).0, s.trips[t].passenger, row.price);
    }
  }

  lemma OfferPriced(s: State, o: Id)
    requires MatchingSafety.Safe(s) && o in s.offers
    ensures s.offers[o].price >= 1
  {
    hide LedgerIntegrity.Inv, MatchingSafety.OffersOk, MatchingSafety.TripsOk, MatchingSafety.OnePerPassenger;
  }

  lemma StandsStill(s: Store)
    ensures LedgerMoves.Moves(s, s, Escrow, Escrow, 0)
  {
  }

  lemma ThereAndBack(s: Store, held: Store, s': Store, user: Id, amount: int)
    requires LedgerMoves.Moves(s, held, WalletOf(user), Escrow, amount)
    requires LedgerMoves.Moves(held, s', Escrow, WalletOf(user), amount)
    ensures LedgerMoves.Moves(s, s', Escrow, Escrow, 0)
  {
  }
}
