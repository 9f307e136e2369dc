/**
 * When a matched trip is paid for although AcceptOffer calls interleave. Runs in which no two calls under way name
 * the same driver for the same trip pay for every match; OverlapCanLoseTheFare shows what such a pair can do in any
 * state, and OverlapIsReachable that a run gets there.
 */
module SerialMatching {
  import opened Wrappers
  import opened Ledger
  import LedgerIntegrity
  import LedgerLaws
  import Quotes
  import opened Matching
  import opened MatchingSafety

  /** No two calls under way name the same driver for the same trip. */
  predicate OneCallPerDriver(accepts: map<Id, Accept>) {
    forall c, d :: c in accepts && d in accepts && c != d && accepts[c].Accepting? && accepts[d].Accepting? ==>
      accepts[c].trip != accepts[d].trip || accepts[c].row.driver != accepts[d].row.driver
  }

  ghost predicate Serial(events: seq<Event>) {
    forall k :: 0 <= k <= |events| ==> OneCallPerDriver(After(events[..k]).accepts)
  }

  // ---- the invariant of such runs ----

  /** A call that can still win its trip holds the fare itself. */
  predicate HoldsFare(a: Accept, trips: map<Id, Trip>, settled: set<Id>) {
    a.Accepting? && (a.stage.FareHeld? || a.stage.OfferClaimed?) ==>
      (a.trip in trips && trips[a.trip].status.Requested? && a.trip !in settled ==> a.took)
  }

  predicate SerialOk(trips: map<Id, Trip>, accepts: map<Id, Accept>, wins: map<Id, Win>, settled: set<Id>) {
    && (forall c :: c in accepts ==> HoldsFare(accepts[c], trips, settled))
    && (forall t :: t in wins && t !in settled ==> wins[t].took)
  }

  predicate SerialState(s: State) {
    SerialOk(s.trips, s.accepts, s.wins, s.settledByAdmin)
  }

  // ---- the kinds of change ----

  lemma AcceptKeepsSerial(s: State, call: Id, a: Option<Accept>)
    requires SerialState(s)
    requires a.Some? ==> HoldsFare(a.value, s.trips, s.settledByAdmin)
    ensures SerialOk(s.trips, Put(s.accepts, call, a), s.wins, s.settledByAdmin)
  {
    hide HoldsFare;
  }

  /** A trip that is not matched by the change: it is new and requested, or moves on. */
  lemma TripKeepsSerial(s: State, t: Id, trip: Trip)
    requires SerialState(s)
    requires t in s.trips ==> !trip.status.Requested?
    requires t !in s.trips ==> forall c :: c in s.accepts ==> s.accepts[c].trip != t
    ensures SerialOk(s.trips[t := trip], s.accepts, s.wins, s.settledByAdmin)
  {
    forall c | c in s.accepts ensures HoldsFare(s.accepts[c], s.trips[t := trip], s.settledByAdmin) {
      assert HoldsFare(s.accepts[c], s.trips, s.settledByAdmin);
    }
  }

  lemma WinKeepsSerial(s: State, call: Id)
    requires SerialState(s)
    requires InStage(s, call, OfferClaimed) && TripIs(s, s.accepts[call].trip, Requested)
    ensures SerialState(AfterMatchTrip(s, call))
  {
    var s' := AfterMatchTrip(s, call);
    assert HoldsFare(s.accepts[call], s.trips, s.settledByAdmin);
    forall c | c in s'.accepts && c != call ensures HoldsFare(s'.accepts[c], s'.trips, s.settledByAdmin) {
      assert HoldsFare(s.accepts[c], s.trips, s.settledByAdmin);
    }
  }

  /** A fare in escrow while the trip is requested was taken by another call, for another driver. */
  lemma HoldNamesAnotherDriver(s: State, call: Id)
    requires Safe(s) && OneCallPerDriver(s.accepts) && InStage(s, call, DriverFree)
    requires TripIs(s, s.accepts[call].trip, Requested) && s.accepts[call].trip !in s.settledByAdmin
    ensures var a := s.accepts[call];
      a.trip in s.store.holds && !s.store.holds[a.trip].status.Refunded? ==>
        s.store.holds[a.trip].driver != a.row.driver
  {
    hide LedgerIntegrity.Inv, Safe, TodoOf;
    var a := s.accepts[call];
    var v := ViewOf(s, a.trip);
    SafeSays(s, a.trip);
    if FareInEscrow(v) {
      var c :| c in v.fares;
      assert Backs(v, v.fares[c]);
    }
  }

  lemma TakeFareKeepsSerial(s: State, call: Id)
    requires Safe(s) && SerialState(s) && OneCallPerDriver(s.accepts)
    ensures SerialState(Next(s, TakeFare(call)))
  {
    hide Safe, HoldEscrow, OneCallPerDriver;
    if InStage(s, call, DriverFree) {
      var a := s.accepts[call];
      var (store, outcome) := HoldEscrow(s.store, a.trip, a.passenger, a.row.driverUser, a.row.driver, a.row.price);
      HoldEscrowEffect(s.store, a.trip, a.passenger, a.row.driverUser, a.row.driver, a.row.price);
      if outcome.Refused? {
        AcceptKeepsSerial(s, call, None);
      } else {
        if TripIs(s, a.trip, Requested) && a.trip !in s.settledByAdmin {
          HoldNamesAnotherDriver(s, call);
        }
        AcceptKeepsSerial(s, call, Some(a.(stage := FareHeld, took := outcome.Applied?)));
      }
    }
  }

  /** The other steps of AcceptOffer. */
  lemma AcceptStepKeepsSerial(s: State, e: Event)
    requires SerialState(s)
    requires e.ReadTrip? || e.ReadOffer? || e.CheckDriver? || e.ClaimOffer? || e.GiveUp? || e.MatchTrip?
             || e.SupersedeOthers? || e.RollBackOffer? || e.UndoFare?
    ensures SerialState(Next(s, e))
  {
    hide SerialState, IsDriving, ClosePending, SwapOffer;
    if e.ReadTrip? {
      StartKeepsSerial(s, e);
    } else if e.ReadOffer? {
      StartKeepsSerial(s, e);
    } else if e.MatchTrip? && InStage(s, e.call, OfferClaimed) && TripIs(s, s.accepts[e.call].trip, Requested) {
      WinKeepsSerial(s, e.call);
    } else if e.CheckDriver? || e.ClaimOffer? || e.GiveUp? {
      EarlyStepKeepsSerial(s, e);
    } else {
      LateStepKeepsSerial(s, e);
    }
  }

  lemma StartKeepsSerial(s: State, e: Event)
    requires SerialState(s)
    requires e.ReadTrip? || e.ReadOffer?
    ensures SerialState(Next(s, e))
  {
  }

  lemma EarlyStepKeepsSerial(s: State, e: Event)
    requires SerialState(s)
    requires e.CheckDriver? || e.ClaimOffer? || e.GiveUp?
    ensures SerialState(Next(s, e))
  {
    hide IsDriving, SerialOk, SwapOffer;
    if e.call in s.accepts && s.accepts[e.call].Accepting? {
      var a := s.accepts[e.call];
      CallHoldsFare(s, e.call);
      if InStage(s, e.call, OfferRead) {
        AcceptKeepsSerial(s, e.call, if IsDriving(s.trips, a.row.driver) then None else Some(a.(stage := DriverFree)));
      } else if InStage(s, e.call, FareHeld) {
        AcceptKeepsSerial(s, e.call, Some(a.(stage := OfferClaimed)));
        AcceptKeepsSerial(s, e.call, Some(a.(stage := UndoUnclaimed)));
      } else if InStage(s, e.call, OfferClaimed) {
        AcceptKeepsSerial(s, e.call, Some(a.(stage := UndoClaimed)));
      }
    }
  }

  lemma CallHoldsFare(s: State, call: Id)
    requires SerialState(s) && call in s.accepts
    ensures HoldsFare(s.accepts[call], s.trips, s.settledByAdmin)
  {
  }

  /** The last steps of a call, the winning one excepted. */
  lemma LateStepKeepsSerial(s: State, e: Event)
    requires SerialState(s)
    requires e.MatchTrip? || e.SupersedeOthers? || e.RollBackOffer? || e.UndoFare?
    requires e.MatchTrip? ==> !(InStage(s, e.call, OfferClaimed) && TripIs(s, s.accepts[e.call].trip, Requested))
    ensures SerialState(Next(s, e))
  {
    hide SerialOk, SwapOffer, ClosePending, RefundEscrow;
    if e.call in s.accepts && s.accepts[e.call].Accepting? {
      var a := s.accepts[e.call];
      AcceptKeepsSerial(s, e.call, None);
      AcceptKeepsSerial(s, e.call, Some(a.(stage := UndoClaimed)));
      AcceptKeepsSerial(s, e.call, Some(a.(stage := RollingBack, took := false)));
    }
  }

  lemma CreateTripKeepsSerial(s: State, trip: Id, passenger: Id, price: int)
    requires Safe(s) && SerialState(s)
    ensures SerialState(Next(s, CreateTrip(trip, passenger, price)))
  {
    hide LedgerIntegrity.Inv, OffersOk, TripsOk, OnePerPassenger, SerialOk, EnsureWallet, HasActiveTrip;
    if trip !in s.trips {
      TripKeepsSerial(s, trip, Trip(passenger, Requested, None, None));
    }
  }

  lemma TripMoveKeepsSerial(s: State, e: Event)
    requires SerialState(s)
    requires e.CancelTrip? || e.ExpireTrip? || e.ConfirmPickup? || e.CompleteTrip?
    ensures SerialState(Next(s, e))
  {
    hide SerialOk;
    if e.trip in s.trips {
      var trip := s.trips[e.trip];
      TripKeepsSerial(s, e.trip, trip.(status := Cancelled));
      TripKeepsSerial(s, e.trip, trip.(status := TripExpired));
      TripKeepsSerial(s, e.trip, trip.(status := PickedUp));
      TripKeepsSerial(s, e.trip, trip.(status := Completed));
    }
  }

  lemma OtherEventKeepsSerial(s: State, e: Event)
    requires SerialState(s)
    requires e.MakeOffer? || e.RejectOffer? || e.Money? || e.FollowUp? || e.ConfirmTrip? || e.FindDue? || e.DisputeTrip?
    ensures SerialState(Next(s, e))
  {
    hide SerialOk, Perform, ReleaseEscrow, RefundEscrow, MarkEscrowCompleted, DisputeEscrow, ClosePending, SwapOffer,
      PendingOffers;
  }

  lemma AdminResolveKeepsSerial(s: State, trip: Id, release: bool)
    requires SerialState(s)
    ensures SerialState(Next(s, AdminResolve(trip, release)))
  {
    hide SettleEscrow;
  }

  lemma NextKeepsSerial(s: State, e: Event)
    requires Safe(s) && SerialState(s) && OneCallPerDriver(s.accepts)
    ensures SerialState(Next(s, e))
  {
    hide *;
    match e
    case CreateTrip(trip, passenger, price) => CreateTripKeepsSerial(s, trip, passenger, price);
    case CancelTrip(_, _) => TripMoveKeepsSerial(s, e);
    case ExpireTrip(_, _) => TripMoveKeepsSerial(s, e);
    case ConfirmPickup(_) => TripMoveKeepsSerial(s, e);
    case CompleteTrip(_, _) => TripMoveKeepsSerial(s, e);
    case TakeFare(call) => TakeFareKeepsSerial(s, call);
    case AdminResolve(trip, release) => AdminResolveKeepsSerial(s, trip, release);
    case MakeOffer(_, _, _, _, _) => OtherEventKeepsSerial(s, e);
    case RejectOffer(_) => OtherEventKeepsSerial(s, e);
    case Money(_) => OtherEventKeepsSerial(s, e);
    case FollowUp(_, _) => OtherEventKeepsSerial(s, e);
    case ConfirmTrip(_, _) => OtherEventKeepsSerial(s, e);
    case FindDue(_, _, _) => OtherEventKeepsSerial(s, e);
    case DisputeTrip(_) => OtherEventKeepsSerial(s, e);
    case _ => AcceptStepKeepsSerial(s, e);
  }

  lemma StartIsSerial()
    ensures SerialState(START)
  {
  }

  lemma {:induction false} SerialRunKeeps(events: seq<Event>)
    requires Serial(events)
    ensures Safe(After(events)) && SerialState(After(events))
    decreases |events|
  {
    hide Safe, Next, OneCallPerDriver, SerialOk;
    EveryRunIsSafe(events);
    if events == [] {
      StartIsSerial();
    } else {
      var before := events[..|events| - 1];
      forall k | 0 <= k <= |before| ensures OneCallPerDriver(After(before[..k]).accepts) {
        assert before[..k] == events[..k];
      }
      SerialRunKeeps(before);
      assert before[..|before|] == before;
      NextKeepsSerial(After(before), events[|events| - 1]);
    }
  }

  // ---- what such runs promise ----

  /** Every matched or picked-up trip is paid for: its agreed price is in escrow, from its passenger to its driver. */
  lemma SerialMatchIsPaidFor(events: seq<Event>, t: Id)
    requires Serial(events)
    requires var s := After(events); t in s.trips && OnTheWay(s.trips[t]) && t !in s.settledByAdmin
    ensures var s := After(events);
      && t in s.store.holds && Live(s.store.holds[t])
      && s.store.holds[t].payer == s.trips[t].passenger
      && s.trips[t].driver == Some(s.store.holds[t].driver)
      && s.trips[t].agreedPrice == Some(s.store.holds[t].amount)
  {
    hide Safe, Next, OneCallPerDriver;
    SerialRunKeeps(events);
    SafeSays(After(events), t);
    assert TripOk(ViewOf(After(events), t));
  }

  // ---- why the overlap must be ruled out ----

  /** Two calls have read the same pending offer of an open request, and the passenger can pay for it. */
  predicate Overlapping(s: State, c: Id, d: Id) {
    && c != d && InStage(s, c, DriverFree) && InStage(s, d, DriverFree)
    && var a := s.accepts[c];
    && s.accepts[d].trip == a.trip && s.accepts[d].offer == a.offer && s.accepts[d].row == a.row
    && s.accepts[d].passenger == a.passenger
    && a.offer in s.offers && s.offers[a.offer].status.OfferPending? && TripIs(s, a.trip, Requested)
    && a.trip !in s.store.holds && a.passenger in s.store.wallets && s.store.wallets[a.passenger].balance >= a.row.price
  }

  /** Both calls pass HoldEscrow, of which only the first takes money, and only the second claims the offer. */
  ghost function SecondClaims(s: State, c: Id, d: Id): State {
    Next(Next(Next(Next(s, TakeFare(c)), TakeFare(d)), ClaimOffer(d)), ClaimOffer(c))
  }

  /** The second call wins the trip, and the first returns the fare it took. */
  ghost function FirstUndoes(s: State, c: Id, d: Id): State {
    Next(Next(Next(s, MatchTrip(d)), UndoFare(c)), SupersedeOthers(d))
  }

  lemma FirstHoldSucceeds(s: Store, trip: Id, payer: Id, payee: Id, driver: Id, amount: int)
    requires LedgerIntegrity.Inv(s) && trip !in s.holds && payer in s.wallets && s.wallets[payer].balance >= amount
    ensures HoldEscrow(s, trip, payer, payee, driver, amount).1.Applied?
  {
    hide ApplyPostings, PostingSum, Post, LedgerIntegrity.Books, LedgerIntegrity.Pools, LedgerIntegrity.RowsValid;
    assert LedgerIntegrity.KeysAgree(s.keys, s.topups, s.holds, s.withdrawals);
    assert HoldKey(trip, 1) !in s.keys;
    LedgerLaws.PaymentPosts(s, HoldKey(trip, 1), amount, payer, Escrow);
  }

  lemma SecondCallOvertakes(s: State, c: Id, d: Id)
    requires Safe(s) && Overlapping(s, c, d)
    ensures var a := s.accepts[c];
      var s4 := SecondClaims(s, c, d);
      && s4.accepts == s.accepts[c := a.(stage := UndoUnclaimed, took := true)][d := a.(stage := OfferClaimed,
                                                                                        took := false)]
      && s4.trips == s.trips && s4.followups == s.followups && s4.settledByAdmin == s.settledByAdmin
  {
    hide LedgerIntegrity.Inv, Safe, HoldEscrow;
    SafeSays(s, s.accepts[c].trip);
    var a := s.accepts[c];
    HoldEscrowEffect(s.store, a.trip, a.passenger, a.row.driverUser, a.row.driver, a.row.price);
    FirstHoldSucceeds(s.store, a.trip, a.passenger, a.row.driverUser, a.row.driver, a.row.price);
    var s1 := Next(s, TakeFare(c));
    SecondHoldIsNoOp(s1.store, a.trip, a.passenger, a.row.driverUser, a.row.driver, a.row.price);
    var s2 := Next(s1, TakeFare(d));
    assert s2.accepts == s.accepts[c := a.(stage := FareHeld, took := true)][d := a.(stage := FareHeld, took := false)];
    assert s2 == s.(store := s2.store, accepts := s2.accepts);
    OneClaims(s2, c, d);
  }

  /** Of two calls that claim the same pending offer the first to try gets it. */
  lemma OneClaims(s: State, c: Id, d: Id)
    requires c != d && InStage(s, c, FareHeld) && InStage(s, d, FareHeld)
    requires s.accepts[c].offer == s.accepts[d].offer
    requires s.accepts[c].offer in s.offers && s.offers[s.accepts[c].offer].status.OfferPending?
    ensures var s' := Next(Next(s, ClaimOffer(d)), ClaimOffer(c));
      s' == s.(offers := s'.offers,
               accepts := s.accepts[c := s.accepts[c].(stage := UndoUnclaimed)]
                                   [d := s.accepts[d].(stage := OfferClaimed)])
  {
    var s1 := Next(s, ClaimOffer(d));
    assert s1.accepts[d].stage.OfferClaimed? && s1.offers[s.accepts[c].offer].status.OfferAccepted?;
  }

  lemma SecondHoldIsNoOp(s: Store, trip: Id, payer: Id, payee: Id, driver: Id, amount: int)
    requires trip in s.holds
    requires s.holds[trip] ==
      Hold(payer, payee, driver, amount, Held, s.holds[trip].version, s.holds[trip].releaseAfter)
    ensures HoldEscrow(s, trip, payer, payee, driver, amount).1.NoOp?
  {
  }

  lemma WinEffect(s: State, d: Id)
    requires InStage(s, d, OfferClaimed) && TripIs(s, s.accepts[d].trip, Requested)
    ensures var s' := Next(s, MatchTrip(d));
      && s'.accepts == s.accepts[d := s.accepts[d].(stage := TripWon)] && TripIs(s', s.accepts[d].trip, Matched)
      && s'.store == s.store && s'.followups == s.followups && s'.settledByAdmin == s.settledByAdmin
  {
  }

  lemma UndoEffect(s: State, c: Id)
    requires Safe(s) && InStage(s, c, UndoUnclaimed) && s.accepts[c].took
    ensures var s' := Next(s, UndoFare(c));
      && s'.accepts == s.accepts - {c} && s'.trips == s.trips && s'.followups == s.followups
      && s'.settledByAdmin == s.settledByAdmin
      && (s.accepts[c].trip in s'.store.holds ==> !Live(s'.store.holds[s.accepts[c].trip]))
  {
    hide LedgerIntegrity.Inv, Safe, RefundEscrow;
    SafeSays(s, s.accepts[c].trip);
    RefundSettles(s.store, s.accepts[c].trip);
  }

  lemma FinishEffect(s: State, d: Id)
    requires InStage(s, d, TripWon)
    ensures var s' := Next(s, SupersedeOthers(d));
      s' == s.(accepts := s.accepts - {d}, offers := s'.offers)
  {
    hide ClosePending;
  }

  /**
   * Whenever two calls for one offer overlap, they can finish with the trip matched and its fare back with the
   * passenger.
   */
  lemma OverlapCanLoseTheFare(s: State, c: Id, d: Id)
    requires Safe(s) && Overlapping(s, c, d)
    ensures var t := s.accepts[c].trip;
      var s' := FirstUndoes(SecondClaims(s, c, d), c, d);
      && s'.accepts == s.accepts - {c, d} && s'.followups == s.followups && s'.settledByAdmin == s.settledByAdmin
      && TripIs(s', t, Matched)
      && (t in s'.store.holds ==> !Live(s'.store.holds[t]))
  {
    hide Safe, Next;
    SecondCallOvertakes(s, c, d);
    ClaimedIsSafe(s, c, d);
    var s4 := SecondClaims(s, c, d);
    WinEffect(s4, d);
    NextKeepsSafe(s4, MatchTrip(d));
    UndoEffect(Next(s4, MatchTrip(d)), c);
    FinishEffect(Next(Next(s4, MatchTrip(d)), UndoFare(c)), d);
  }

  lemma ClaimedIsSafe(s: State, c: Id, d: Id)
    requires Safe(s)
    ensures Safe(SecondClaims(s, c, d))
  {
    hide Safe, Next;
    NextKeepsSafe(s, TakeFare(c));
    NextKeepsSafe(Next(s, TakeFare(c)), TakeFare(d));
    NextKeepsSafe(Next(Next(s, TakeFare(c)), TakeFare(d)), ClaimOffer(d));
    NextKeepsSafe(Next(Next(Next(s, TakeFare(c)), TakeFare(d)), ClaimOffer(d)), ClaimOffer(c));
  }

  lemma AfterOneMore(events: seq<Event>, e: Event)
    ensures After(events + [e]) == Next(After(events), e)
  {
    hide Next;
    assert (events + [e])[..|events|] == events;
  }

  /** A passenger with 500 kobo. */
  lemma FundedPassenger() returns (events: seq<Event>)
    ensures var s := After(events);
      s == START.(store := s.store) && s.store.holds == map[] && 1 in s.store.wallets
      && s.store.wallets[1].balance >= 500
  {
    LedgerIntegrity.EmptyStoreInv();
    events := TopUp([], 0, 1, 500);
  }

  /** A top-up, which is always possible. */
  lemma TopUp(events: seq<Event>, topup: Id, user: Id, amount: nat) returns (more: seq<Event>)
    requires LedgerIntegrity.Inv(After(events).store) && topup !in After(events).store.topups
    ensures var (s, s') := (After(events), After(more));
      && s' == s.(store := s'.store) && LedgerIntegrity.Inv(s'.store) && s'.store.holds == s.store.holds
      && s'.store.topups.Keys == s.store.topups.Keys + {topup}
      && user in s'.store.wallets && s'.store.wallets[user].balance >= amount
  {
    hide Next, LedgerIntegrity.Inv, CreditTopup;
    var create, credit := OpCreateTopup(topup, user, None), OpCreditTopup(topup, amount, amount);
    Quotes.TopupArrives(After(events).store, topup, user, amount);
    MoneyStep(After(events), create);
    MoneyStep(Next(After(events), Money(create)), credit);
    more := TwoMore(events, Money(create), Money(credit));
  }

  lemma MoneyStep(s: State, op: Op)
    requires !TouchesHolds(op) && Legal(op)
    ensures Next(s, Money(op)) == s.(store := Perform(s.store, op).0)
  {
    hide Perform;
  }

  /** A request by a passenger who has the money, and a driver's first offer for it. */
  lemma RequestedAndOffered(s: State, trip: Id, passenger: Id, offer: Id, driver: Id, driverUser: Id, price: int)
    requires trip !in s.trips && !HasActiveTrip(s.trips, passenger) && price >= 1
    requires passenger in s.store.wallets && s.store.wallets[passenger].balance >= price
    requires offer !in s.offers && PendingOffers(s.offers, trip, driver) == {}
    ensures Next(Next(s, CreateTrip(trip, passenger, price)), MakeOffer(offer, trip, driver, driverUser, price))
         == s.(trips := s.trips[trip := Trip(passenger, Requested, None, None)],
               offers := s.offers[offer := Offer(trip, driver, driverUser, price, OfferPending)])
  {
    assert Next(s, CreateTrip(trip, passenger, price)) ==
      s.(trips := s.trips[trip := Trip(passenger, Requested, None, None)]);
  }

  lemma CallReadsOffer(s: State, call: Id, offer: Id)
    requires offer in s.offers && s.offers[offer].status.OfferPending? && TripIs(s, s.offers[offer].trip, Requested)
    requires call !in s.accepts
    ensures var row := s.offers[offer];
      Next(Next(s, ReadTrip(call, row.trip)), ReadOffer(call, offer))
      == s.(accepts := s.accepts[call := Accepting(row.trip, s.trips[row.trip].passenger, offer, row, OfferRead,
                                                   false)])
  {
    var row := s.offers[offer];
    assert Next(s, ReadTrip(call, row.trip)) ==
      s.(accepts := s.accepts[call := TripRead(row.trip, s.trips[row.trip].passenger)]);
  }

  /** The first reads of an AcceptOffer whose driver is free. */
  lemma CallGetsReady(events: seq<Event>, call: Id, offer: Id) returns (more: seq<Event>)
    requires var s := After(events);
      && offer in s.offers && s.offers[offer].status.OfferPending? && TripIs(s, s.offers[offer].trip, Requested)
      && call !in s.accepts && !IsDriving(s.trips, s.offers[offer].driver)
    ensures events <= more
    ensures var (s, s') := (After(events), After(more));
      var row := s.offers[offer];
      s' == s.(accepts := s.accepts[call := Accepting(row.trip, s.trips[row.trip].passenger, offer, row, DriverFree,
                                                      false)])
  {
    hide Next;
    var s := After(events);
    CallReadsOffer(s, call, offer);
    more := TwoMore(events, ReadTrip(call, s.offers[offer].trip), ReadOffer(call, offer));
    DriverIsFree(After(more), call);
    AfterOneMore(more, CheckDriver(call));
    more := more + [CheckDriver(call)];
  }

  lemma DriverIsFree(s: State, call: Id)
    requires InStage(s, call, OfferRead) && !IsDriving(s.trips, s.accepts[call].row.driver)
    ensures Next(s, CheckDriver(call)) == To(s, call, DriverFree)
  {
  }

  /** The overlap is within reach: a funded passenger requests a trip, gets one offer and accepts it twice. */
  lemma OverlapIsReachable() returns (events: seq<Event>)
    ensures Overlapping(After(events), 1, 2)
  {
    hide Next, After;
    events := FundedPassenger();
    RequestedAndOffered(After(events), 1, 1, 1, 7, 8, 500);
    events := TwoMore(events, CreateTrip(1, 1, 500), MakeOffer(1, 1, 7, 8, 500));
    assert !IsDriving(After(events).trips, 7);
    events := CallGetsReady(events, 1, 1);
    events := CallGetsReady(events, 2, 1);
  }

  lemma TwoMore(events: seq<Event>, e: Event, f: Event) returns (more: seq<Event>)
    ensures events <= more
    ensures After(more) == Next(Next(After(events), e), f)
  {
    hide Next;
    AfterOneMore(events, e);
    AfterOneMore(events + [e], f);
    more := events + [e] + [f];
  }
}
