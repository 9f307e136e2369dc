/**
 * Matching a trip to a driver while the fare moves through escrow: AcceptOffer, CancelTrip,
 * expiry, completion and the escrow calls, taken apart into single repository calls that may
 * interleave in any order. Reads keep what they read; writes are compare-and-swap or ledger
 * transactions.
 */
module Matching {
  import opened Wrappers
  import opened Ledger

  datatype TripStatus = Requested | Matched | PickedUp | Completed | Cancelled | TripExpired

  datatype Trip = Trip(passenger: Id, status: TripStatus, driver: Option<Id>, agreedPrice: Option<int>)

  datatype OfferStatus = OfferPending | OfferAccepted | OfferRejected | OfferSuperseded | OfferWithdrawn

  /** The offer's driver is a profile with its own user account. */
  datatype Offer = Offer(trip: Id, driver: Id, driverUser: Id, price: int, status: OfferStatus)

  /**
   * How far an AcceptOffer call that has read its offer has come; it is undoing or rolling back once something
   * failed.
   */
  datatype Stage =
    OfferRead | DriverFree | FareHeld | OfferClaimed | TripWon | UndoUnclaimed | UndoClaimed | RollingBack

  /** took: this call moved the fare into escrow, so only it may move it back. */
  datatype Accept =
    | TripRead(trip: Id, passenger: Id)
    | Accepting(trip: Id, passenger: Id, offer: Id, row: Offer, stage: Stage, took: bool)

  datatype Releaser = ByPassenger | ByTimer | ByAdmin

  /** What is left to do of a call that has already moved the trip, or has seen that it may release. */
  datatype Followup =
    | RefundFare(trip: Id)
    | WithdrawOffers(trip: Id)
    | OpenWindow(trip: Id)
    | PayDriver(trip: Id, releaser: Releaser)

  /**
   * Recorded when a trip is matched: which offer won, as the winning call read it, and whether that call took the
   * fare.
   */
  datatype Win = Win(offer: Id, row: Offer, took: bool)

  /** wins, settledByAdmin and releasedBy only record what happened; no step reads them. */
  datatype State = State(store: Store, trips: map<Id, Trip>, offers: map<Id, Offer>,
                         accepts: map<Id, Accept>, followups: map<Id, Followup>,
                         wins: map<Id, Win>, settledByAdmin: set<Id>, releasedBy: map<Id, Releaser>)

  const START := State(EMPTY, map[], map[], map[], map[], map[], {}, map[])

  datatype Event =
    | CreateTrip(trip: Id, passenger: Id, price: int)
    | MakeOffer(offer: Id, trip: Id, driver: Id, driverUser: Id, price: int)
    | RejectOffer(offer: Id)
    | Money(op: Op)                            // top-ups, withdrawals and the rest of the ledger
    // AcceptOffer
    | ReadTrip(call: Id, trip: Id)
    | ReadOffer(call: Id, offer: Id)
    | CheckDriver(call: Id)
    | TakeFare(call: Id)
    | ClaimOffer(call: Id)
    | GiveUp(call: Id)
    | MatchTrip(call: Id)
    | SupersedeOthers(call: Id)
    | UndoFare(call: Id)
    | RollBackOffer(call: Id)
    // CancelTrip, expiry, ConfirmPickup, CompleteTrip
    | CancelTrip(call: Id, trip: Id)
    | ExpireTrip(call: Id, trip: Id)
    | ConfirmPickup(trip: Id)
    | CompleteTrip(call: Id, trip: Id)
    | FollowUp(call: Id, releaseAt: int)
    // escrow service
    | ConfirmTrip(call: Id, trip: Id)
    | FindDue(call: Id, trip: Id, now: int)
    | DisputeTrip(trip: Id)
    | AdminResolve(trip: Id, release: bool)

  // ---- queries ----

  predicate Active(t: Trip) {
    t.status.Requested? || t.status.Matched? || t.status.PickedUp?
  }

  predicate Driving(t: Trip, driver: Id) {
    (t.status.Matched? || t.status.PickedUp?) && t.driver == Some(driver)
  }

  ghost predicate HasActiveTrip(trips: map<Id, Trip>, passenger: Id) {
    exists t :: t in trips && trips[t].passenger == passenger && Active(trips[t])
  }

  ghost predicate IsDriving(trips: map<Id, Trip>, driver: Id) {
    exists t :: t in trips && Driving(trips[t], driver)
  }

  function PendingOffers(offers: map<Id, Offer>, trip: Id, driver: Id): set<Id> {
    set o | o in offers && offers[o].trip == trip && offers[o].driver == driver && offers[o].status.OfferPending?
  }

  predicate TouchesHolds(op: Op) {
    op.OpHoldEscrow? || op.OpMarkEscrowCompleted? || op.OpDisputeEscrow? || op.OpReleaseEscrow? || op.OpRefundEscrow?
  }

  predicate InStage(s: State, call: Id, stage: Stage) {
    call in s.accepts && s.accepts[call].Accepting? && s.accepts[call].stage == stage
  }

  predicate TripIs(s: State, trip: Id, st: TripStatus) {
    trip in s.trips && s.trips[trip].status == st
  }

  // ---- repository calls ----

  /** TripOfferRepository.CompareAndSwapStatus: swaps only if the offer still has the expected status. */
  function SwapOffer(offers: map<Id, Offer>, o: Id, expected: OfferStatus, new_: OfferStatus): map<Id, Offer> {
    if o in offers && offers[o].status == expected then offers[o := offers[o].(status := new_)] else offers
  }

  /** SupersedeOtherPending and WithdrawAllPending: every pending offer of the trip but `except` gets the new status. */
  function ClosePending(offers: map<Id, Offer>, trip: Id, except: Option<Id>, new_: OfferStatus): map<Id, Offer> {
    map o | o in offers ::
      if offers[o].trip == trip && offers[o].status.OfferPending? && except != Some(o) then offers[o].(status := new_)
        else offers[o]
  }

  /** TripRepository.CompareAndSwapStatus for the updates that only move the status. */
  function SwapTrip(s: State, trip: Id, expected: TripStatus, new_: TripStatus): State {
    if TripIs(s, trip, expected) then s.(trips := s.trips[trip := s.trips[trip].(status := new_)]) else s
  }

  // ---- steps ----

  function To(s: State, call: Id, stage: Stage): State
    requires call in s.accepts && s.accepts[call].Accepting?
  {
    s.(accepts := s.accepts[call := s.accepts[call].(stage := stage)])
  }

  function Quit(s: State, call: Id): State {
    s.(accepts := s.accepts - {call})
  }

  function Later(s: State, call: Id, f: Followup): State {
    s.(followups := s.followups[call := f])
  }

  function AfterTakeFare(s: State, call: Id): State
    requires call in s.accepts && s.accepts[call].Accepting?
  {
    var a := s.accepts[call];
    var (store, outcome) := HoldEscrow(s.store, a.trip, a.passenger, a.row.driverUser, a.row.driver, a.row.price);
    if outcome.Refused? then Quit(s, call)
    else s.(store := store, accepts := s.accepts[call := a.(stage := FareHeld, took := outcome.Applied?)])
  }

  function AfterClaimOffer(s: State, call: Id): State
    requires call in s.accepts && s.accepts[call].Accepting?
  {
    var o := s.accepts[call].offer;
    if o in s.offers && s.offers[o].status.OfferPending?
    then To(s.(offers := SwapOffer(s.offers, o, OfferPending, OfferAccepted)), call, OfferClaimed)
    else To(s, call, UndoUnclaimed)
  }

  function AfterMatchTrip(s: State, call: Id): State
    requires call in s.accepts && s.accepts[call].Accepting?
  {
    var a := s.accepts[call];
    if TripIs(s, a.trip, Requested) then
      var trip := s.trips[a.trip].(status := Matched, driver := Some(a.row.driver), agreedPrice := Some(a.row.price));
      To(s.(trips := s.trips[a.trip := trip], wins := s.wins[a.trip := Win(a.offer, a.row, a.took)]), call, TripWon)
    else To(s, call, UndoClaimed)
  }

  function AfterUndoFare(s: State, call: Id): State
    requires call in s.accepts && s.accepts[call].Accepting?
  {
    var a := s.accepts[call];
    var undone := if a.took then s.(store := RefundEscrow(s.store, a.trip).0) else s;
    if a.stage.UndoClaimed? then undone.(accepts := s.accepts[call := a.(stage := RollingBack, took := false)])
      else Quit(undone, call)
  }

  function AfterFollowUp(s: State, call: Id, releaseAt: int): State
    requires call in s.followups
  {
    var done := s.(followups := s.followups - {call});
    match s.followups[call]
    case RefundFare(t) => done.(store := RefundEscrow(s.store, t).0)
    case WithdrawOffers(t) => done.(offers := ClosePending(s.offers, t, None, OfferWithdrawn))
    case OpenWindow(t) => done.(store := MarkEscrowCompleted(s.store, t, releaseAt))
    case PayDriver(t, releaser) =>
      var (store, outcome) := ReleaseEscrow(s.store, t);
      done.(store := store, releasedBy := if outcome.Applied? then s.releasedBy[t := releaser] else s.releasedBy)
  }

  function AfterAdminResolve(s: State, trip: Id, release: bool): State {
    var (store, outcome) := SettleEscrow(s.store, trip, release);
    if outcome.Applied?
    then s.(store := store, settledByAdmin := s.settledByAdmin + {trip},
            releasedBy := if release then s.releasedBy[trip := ByAdmin] else s.releasedBy)
    else s.(store := store)
  }

  /** CreateTrip in one step: one active trip per passenger, and only a fare the wallet covers. */
  ghost function AfterCreateTrip(s: State, trip: Id, passenger: Id, price: int): State {
    if trip in s.trips || HasActiveTrip(s.trips, passenger) then s
    else
      var store := EnsureWallet(s.store, passenger);
      if store.wallets[passenger].balance < price then s.(store := store)
      else s.(store := store, trips := s.trips[trip := Trip(passenger, Requested, None, None)])
  }

  /** MakeOffer in one step: a driver's pending offer is re-priced, otherwise a new one is made. */
  ghost function AfterMakeOffer(s: State, offer: Id, trip: Id, driver: Id, driverUser: Id, price: int): State {
    if !TripIs(s, trip, Requested) || price < 1 then s
    else
      var existing := PendingOffers(s.offers, trip, driver);
      if existing != {} then
        var o :| o in existing;
        s.(offers := s.offers[o := s.offers[o].(price := price)])
      else if offer in s.offers then s
      else s.(offers := s.offers[offer := Offer(trip, driver, driverUser, price, OfferPending)])
  }

  /** An event that is not possible in the current state changes nothing. */
  ghost function Next(s: State, e: Event): State {
    match e
    case CreateTrip(trip, passenger, price) => AfterCreateTrip(s, trip, passenger, price)
    case MakeOffer(offer, trip, driver, driverUser, price) => AfterMakeOffer(s, offer, trip, driver, driverUser, price)
    case RejectOffer(o) => s.(offers := SwapOffer(s.offers, o, OfferPending, OfferRejected))
    case Money(op) => if TouchesHolds(op) || !Legal(op) then s else s.(store := Perform(s.store, op).0)

    case ReadTrip(call, trip) =>
      if call !in s.accepts && TripIs(s, trip, Requested)
      then s.(accepts := s.accepts[call := TripRead(trip, s.trips[trip].passenger)]) else s
    case ReadOffer(call, o) =>
      if call in s.accepts && s.accepts[call].TripRead? && o in s.offers && s.offers[o].status.OfferPending?
         && s.offers[o].trip == s.accepts[call].trip
      then s.(accepts := s.accepts[call := Accepting(s.accepts[call].trip, s.accepts[call].passenger, o, s.offers[o],
                                                     OfferRead, false)])
      else s
    case CheckDriver(call) =>
      if !InStage(s, call, OfferRead) then s
      else if IsDriving(s.trips, s.accepts[call].row.driver) then Quit(s, call) else To(s, call, DriverFree)
    case TakeFare(call) => if InStage(s, call, DriverFree) then AfterTakeFare(s, call) else s
    case ClaimOffer(call) => if InStage(s, call, FareHeld) then AfterClaimOffer(s, call) else s
    case GiveUp(call) =>
      // the claim, the pickup PIN or the match ended in an error
      if InStage(s, call, FareHeld) then To(s, call, UndoUnclaimed)
      else if InStage(s, call, OfferClaimed) then To(s, call, UndoClaimed)
      else s
    case MatchTrip(call) => if InStage(s, call, OfferClaimed) then AfterMatchTrip(s, call) else s
    case SupersedeOthers(call) =>
      if InStage(s, call, TripWon)
      then Quit(s.(offers := ClosePending(s.offers, s.accepts[call].trip, Some(s.accepts[call].offer),
                                          OfferSuperseded)), call) else s
    case UndoFare(call) => if InStage(s, call, UndoUnclaimed) || InStage(s, call, UndoClaimed)
      then AfterUndoFare(s, call) else s
    case RollBackOffer(call) =>
      if InStage(s, call, RollingBack)
      then Quit(s.(offers := SwapOffer(s.offers, s.accepts[call].offer, OfferAccepted, OfferPending)), call) else s

    case CancelTrip(call, trip) =>
      if call in s.followups then s
      else if TripIs(s, trip, Matched) then Later(SwapTrip(s, trip, Matched, Cancelled), call, RefundFare(trip))
      else if TripIs(s, trip, Requested) then Later(SwapTrip(s, trip, Requested, Cancelled), call, WithdrawOffers(trip))
      else s
    case ExpireTrip(call, trip) =>
      if call !in s.followups && TripIs(s, trip, Requested)
      then Later(SwapTrip(s, trip, Requested, TripExpired), call, WithdrawOffers(trip)) else s
    case ConfirmPickup(trip) => SwapTrip(s, trip, Matched, PickedUp)
    case CompleteTrip(call, trip) =>
      if call !in s.followups && TripIs(s, trip, PickedUp)
      then Later(SwapTrip(s, trip, PickedUp, Completed), call, OpenWindow(trip)) else s
    case FollowUp(call, releaseAt) => if call in s.followups then AfterFollowUp(s, call, releaseAt) else s

    case ConfirmTrip(call, trip) =>
      if call !in s.followups && TripIs(s, trip, Completed) && trip in s.store.holds && s.store.holds[trip].status.Held?
      then Later(s, call, PayDriver(trip, ByPassenger)) else s
    case FindDue(call, trip, now) =>
      if call !in s.followups && trip in s.store.holds && s.store.holds[trip].status.Held?
         && s.store.holds[trip].releaseAfter.Some? && s.store.holds[trip].releaseAfter.value <= now
      then Later(s, call, PayDriver(trip, ByTimer)) else s
    case DisputeTrip(trip) =>
      if TripIs(s, trip, PickedUp) || TripIs(s, trip, Completed) then s.(store := DisputeEscrow(s.store, trip).0) else s
    case AdminResolve(trip, release) => AfterAdminResolve(s, trip, release)
  }

  ghost function After(events: seq<Event>): State
    decreases |events|
  {
    if events == [] then START else Next(After(events[..|events| - 1]), events[|events| - 1])
  }
}
