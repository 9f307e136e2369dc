/**
 * One trip at a time for a driver: AcceptOffer only reads whether the driver is free, so this holds of a run exactly
 * as long as no call wins a trip for a driver who is driving by then. Two calls for one driver that are both past the
 * check, for two open requests, can break it.
 */
module DriverTrips {
  import opened Wrappers
  import opened Ledger
  import LedgerIntegrity
  import opened Matching
  import opened MatchingSafety
  import SerialMatching

  ghost predicate OneTripPerDriver(trips: map<Id, Trip>) {
    forall t, u, driver :: t in trips && u in trips && Driving(trips[t], driver) && Driving(trips[u], driver) ==> t == u
  }

  /** The step by which a call wins its trip. */
  predicate Wins(s: State, e: Event) {
    e.MatchTrip? && InStage(s, e.call, OfferClaimed) && TripIs(s, s.accepts[e.call].trip, Requested)
  }

  /** It wins it for a driver who is on another trip by then. */
  ghost predicate WinsForBusyDriver(s: State, e: Event) {
    Wins(s, e) && IsDriving(s.trips, s.accepts[e.call].row.driver)
  }

  // ---- what one step does to the trips and the calls ----

  predicate CallStep(e: Event) {
    e.ReadTrip? || e.ReadOffer? || e.CheckDriver? || e.TakeFare? || e.ClaimOffer? || e.GiveUp? || e.MatchTrip?
    || e.SupersedeOthers? || e.UndoFare? || e.RollBackOffer?
  }

  /** The steps that write trips, the winning swap excepted. */
  predicate MovesTrip(e: Event) {
    e.CreateTrip? || e.CancelTrip? || e.ExpireTrip? || e.ConfirmPickup? || e.CompleteTrip?
  }

  /** Nobody new is driving, and no old trip has become open again. */
  ghost predicate OnlyMoves(trips: map<Id, Trip>, trips': map<Id, Trip>) {
    && (forall t, driver :: t in trips' && Driving(trips'[t], driver) ==> t in trips && Driving(trips[t], driver))
    && (forall t :: t in trips' && trips'[t].status.Requested? && t in trips ==> trips[t].status.Requested?)
  }

  lemma OtherStepsKeep(s: State, e: Event)
    requires !MovesTrip(e) && !CallStep(e)
    ensures Next(s, e).trips == s.trips && Next(s, e).accepts == s.accepts
  {
    hide Next;
    if e.Money? || e.DisputeTrip? {
      MoneyStepsKeep(s, e);
    } else if e.FollowUp? {
      FollowUpKeeps(s, e);
    } else if e.AdminResolve? {
      AdminResolveKeeps(s, e);
    } else if e.MakeOffer? || e.RejectOffer? {
      OfferStepsKeep(s, e);
    } else {
      ReleaseStepsKeep(s, e);
    }
  }

  lemma MoneyStepsKeep(s: State, e: Event)
    requires e.Money? || e.DisputeTrip?
    ensures Next(s, e).trips == s.trips && Next(s, e).accepts == s.accepts
  {
    hide Perform, Legal, DisputeEscrow;
  }

  lemma FollowUpKeeps(s: State, e: Event)
    requires e.FollowUp?
    ensures Next(s, e).trips == s.trips && Next(s, e).accepts == s.accepts
  {
    hide SettleEscrow, MarkEscrowCompleted, ClosePending;
  }

  lemma AdminResolveKeeps(s: State, e: Event)
    requires e.AdminResolve?
    ensures Next(s, e).trips == s.trips && Next(s, e).accepts == s.accepts
  {
    hide SettleEscrow;
  }

  lemma OfferStepsKeep(s: State, e: Event)
    requires e.MakeOffer? || e.RejectOffer?
    ensures Next(s, e).trips == s.trips && Next(s, e).accepts == s.accepts
  {
    hide SwapOffer, PendingOffers;
  }

  lemma ReleaseStepsKeep(s: State, e: Event)
    requires e.ConfirmTrip? || e.FindDue?
    ensures Next(s, e).trips == s.trips && Next(s, e).accepts == s.accepts
  {
  }

  lemma NewTripOnlyMoves(trips: map<Id, Trip>, t: Id, passenger: Id)
    requires t !in trips
    ensures OnlyMoves(trips, trips[t := Trip(passenger, Requested, None, None)])
  {
  }

  lemma CreateOnlyMoves(s: State, e: Event)
    requires e.CreateTrip?
    ensures OnlyMoves(s.trips, Next(s, e).trips) && Next(s, e).accepts == s.accepts
  {
    hide EnsureWallet, HasActiveTrip, OnlyMoves;
    NoMove(s);
    if e.trip !in s.trips {
      NewTripOnlyMoves(s.trips, e.trip, e.passenger);
    }
  }

  lemma NoMove(s: State)
    ensures OnlyMoves(s.trips, s.trips)
  {
  }

  lemma SwapOnlyMoves(s: State, trip: Id, expected: TripStatus, new_: TripStatus)
    requires !new_.Requested? && !new_.Matched? && (new_.PickedUp? ==> expected.Matched?)
    ensures var s' := SwapTrip(s, trip, expected, new_); OnlyMoves(s.trips, s'.trips) && s'.accepts == s.accepts
  {
  }

  lemma MovesOnlyMove(s: State, e: Event)
    requires MovesTrip(e)
    ensures OnlyMoves(s.trips, Next(s, e).trips) && Next(s, e).accepts == s.accepts
  {
    hide OnlyMoves, SwapTrip;
    if e.CreateTrip? {
      CreateOnlyMoves(s, e);
    } else {
      NoMove(s);
      SwapOnlyMoves(s, e.trip, Matched, Cancelled);
      SwapOnlyMoves(s, e.trip, Requested, Cancelled);
      SwapOnlyMoves(s, e.trip, Requested, TripExpired);
      SwapOnlyMoves(s, e.trip, Matched, PickedUp);
      SwapOnlyMoves(s, e.trip, PickedUp, Completed);
    }
  }

  /**
   * What a call may have become in one step: gone, no longer able to win, or still past the check, which it passed
   * with a free driver.
   */
  predicate Progress(before: Option<Accept>, after: Option<Accept>, driverFree: bool) {
    after.Some? && PastCheck(after.value) ==>
      && before.Some? && before.value.Accepting? && before.value.trip == after.value.trip
      && before.value.row == after.value.row
      && (PastCheck(before.value) || driverFree)
  }

  /** A step of AcceptOffer writes its own call, and trips only when it wins. */
  lemma CallStepProgresses(s: State, e: Event)
    requires CallStep(e)
    ensures Progresses(s, e)
  {
    hide Next, Progresses;
    match e
    case ReadTrip(_, _) => ReadProgresses(s, e);
    case ReadOffer(_, _) => ReadProgresses(s, e);
    case CheckDriver(_) => CheckProgresses(s, e);
    case TakeFare(_) => FareProgresses(s, e);
    case ClaimOffer(_) => ClaimProgresses(s, e);
    case GiveUp(_) => GiveUpProgresses(s, e);
    case MatchTrip(_) => MatchProgresses(s, e);
    case UndoFare(_) => UndoProgresses(s, e);
    case _ => EndProgresses(s, e);
  }

  ghost predicate Progresses(s: State, e: Event)
    requires CallStep(e)
  { var s' := Next(s, e);
      && (!Wins(s, e) ==> s'.trips == s.trips)
      && (forall c :: c != e.call ==> Lookup(s'.accepts, c) == Lookup(s.accepts, c))
      && Progress(Lookup(s.accepts, e.call), Lookup(s'.accepts, e.call),
                  InStage(s, e.call, OfferRead) && !IsDriving(s.trips, s.accepts[e.call].row.driver))
  }

  lemma ReadProgresses(s: State, e: Event)
    requires e.ReadTrip? || e.ReadOffer?
    ensures Progresses(s, e)
  {
    hide IsDriving;
  }

  lemma CheckProgresses(s: State, e: Event)
    requires e.CheckDriver?
    ensures Progresses(s, e)
  {
    hide IsDriving;
    if InStage(s, e.call, OfferRead) {
      if IsDriving(s.trips, s.accepts[e.call].row.driver) {
      } else {
      }
    }
  }

  lemma FareProgresses(s: State, e: Event)
    requires e.TakeFare?
    ensures Progresses(s, e)
  {
    hide IsDriving, HoldEscrow;
    if InStage(s, e.call, DriverFree) {
      var a := s.accepts[e.call];
      if HoldEscrow(s.store, a.trip, a.passenger, a.row.driverUser, a.row.driver, a.row.price).1.Refused? {
      } else {
      }
    }
  }

  lemma ClaimProgresses(s: State, e: Event)
    requires e.ClaimOffer?
    ensures Progresses(s, e)
  {
    hide IsDriving, SwapOffer;
  }

  /** What GiveUp makes of its own call. */
  lemma GiveUpIs(s: State, call: Id)
    ensures var s' := Next(s, GiveUp(call));
      && s'.trips == s.trips
      && s'.accepts ==
         if InStage(s, call, FareHeld) then s.accepts[call := s.accepts[call].(stage := UndoUnclaimed)]
         else if InStage(s, call, OfferClaimed) then s.accepts[call := s.accepts[call].(stage := UndoClaimed)]
         else s.accepts
  {
    if InStage(s, call, FareHeld) {
    } else if InStage(s, call, OfferClaimed) {
    }
  }

  lemma GiveUpProgresses(s: State, e: Event)
    requires e.GiveUp?
    ensures Progresses(s, e)
  {
    hide Next, IsDriving;
    GiveUpIs(s, e.call);
  }

  lemma MatchProgresses(s: State, e: Event)
    requires e.MatchTrip?
    ensures Progresses(s, e)
  {
    hide IsDriving;
  }

  /** What UndoFare makes of its own call. */
  lemma UndoIs(s: State, call: Id)
    ensures var s' := Next(s, UndoFare(call));
      && s'.trips == s.trips
      && s'.accepts ==
         if InStage(s, call, UndoUnclaimed) then s.accepts - {call}
         else if InStage(s, call, UndoClaimed)
           then s.accepts[call := s.accepts[call].(stage := RollingBack, took := false)]
         else s.accepts
  {
    hide SettleEscrow;
    if InStage(s, call, UndoUnclaimed) {
    } else if InStage(s, call, UndoClaimed) {
    }
  }

  lemma UndoProgresses(s: State, e: Event)
    requires e.UndoFare?
    ensures Progresses(s, e)
  {
    hide Next, IsDriving;
    UndoIs(s, e.call);
  }

  lemma EndProgresses(s: State, e: Event)
    requires e.SupersedeOthers? || e.RollBackOffer?
    ensures Progresses(s, e)
  {
    hide IsDriving, ClosePending, SwapOffer;
  }

  lemma OnlyWinsStartDriving(s: State, e: Event)
    requires !Wins(s, e)
    ensures OnlyMoves(s.trips, Next(s, e).trips)
  {
    hide Next, Wins, Progress, CallStep, MovesTrip;
    if MovesTrip(e) {
      MovesOnlyMove(s, e);
    } else if CallStep(e) {
      CallStepProgresses(s, e);
    } else {
      OtherStepsKeep(s, e);
    }
  }

  lemma WinStartsDriving(s: State, e: Event)
    requires Wins(s, e)
    ensures var a := s.accepts[e.call];
      var s' := Next(s, e);
      && s'.trips == s.trips[a.trip := s.trips[a.trip].(status := Matched, driver := Some(a.row.driver),
                                                        agreedPrice := Some(a.row.price))]
      && Driving(s'.trips[a.trip], a.row.driver) && s'.accepts == s.accepts[e.call := a.(stage := TripWon)]
  {
  }

  /** Exactly a win for a busy driver gives a driver a second trip. */
  lemma StepDoubleBooksIff(s: State, e: Event)
    requires OneTripPerDriver(s.trips)
    ensures WinsForBusyDriver(s, e) <==> !OneTripPerDriver(Next(s, e).trips)
  {
    hide Next;
    if !Wins(s, e) {
      OnlyWinsStartDriving(s, e);
    } else {
      WinStartsDriving(s, e);
      if WinsForBusyDriver(s, e) {
        var u :| u in s.trips && Driving(s.trips[u], s.accepts[e.call].row.driver);
        assert Driving(Next(s, e).trips[u], s.accepts[e.call].row.driver);
      }
    }
  }

  /** Some driver was on two trips at once at some moment of a run exactly if a call won a trip for a busy driver. */
  lemma {:induction false} RunDoubleBooksIff(events: seq<Event>)
    ensures (exists k :: 0 <= k <= |events| && !OneTripPerDriver(After(events[..k]).trips))
       <==> (exists k :: 0 <= k < |events| && WinsForBusyDriver(After(events[..k]), events[k]))
    decreases |events|
  {
    hide Next, After, OneTripPerDriver, WinsForBusyDriver;
    AfterUnfolds(events);
    if events == [] {
      NobodyDrivesAtFirst();
      assert events[..0] == [];
    } else {
      var n := |events| - 1;
      var before := events[..n];
      RunDoubleBooksIff(before);
      assert events[..n + 1] == events && before[..n] == before;
      assert forall k :: 0 <= k <= n ==> before[..k] == events[..k];
      if OneTripPerDriver(After(before).trips) {
        StepDoubleBooksIff(After(before), events[n]);
      }
    }
  }

  lemma AfterUnfolds(events: seq<Event>)
    ensures After(events) == if events == [] then START else Next(After(events[..|events| - 1]), events[|events| - 1])
  {
    hide Next;
  }

  lemma NobodyDrivesAtFirst()
    ensures OneTripPerDriver(START.trips)
  {
  }

  // ---- rivals ----

  /** Past the check that its driver is free, with the trip still to win. */
  predicate PastCheck(a: Accept) {
    a.Accepting? && (a.stage.DriverFree? || a.stage.FareHeld? || a.stage.OfferClaimed?)
  }

  /** Two calls for one driver, both past the check, for two open requests. */
  predicate Rivals(s: State, c: Id, d: Id) {
    && c in s.accepts && d in s.accepts && PastCheck(s.accepts[c]) && PastCheck(s.accepts[d])
    && s.accepts[c].row.driver == s.accepts[d].row.driver && s.accepts[c].trip != s.accepts[d].trip
    && TripIs(s, s.accepts[c].trip, Requested) && TripIs(s, s.accepts[d].trip, Requested)
  }

  ghost predicate NoRivals(s: State) {
    forall c, d :: c in s.accepts && d in s.accepts ==> !Rivals(s, c, d)
  }

  /** A call past the check can still win its trip only while its driver is free. */
  ghost predicate StillFree(s: State, a: Accept) {
    PastCheck(a) && TripIs(s, a.trip, Requested) ==> !IsDriving(s.trips, a.row.driver)
  }

  ghost predicate DriversOk(s: State) {
    OneTripPerDriver(s.trips) && forall c :: c in s.accepts ==> StillFree(s, s.accepts[c])
  }

  /** A call gets past the check by the check only, and then keeps its trip and its driver. */
  lemma OnlyTheCheckPasses(s: State, e: Event, c: Id)
    requires c in Next(s, e).accepts
    ensures Progress(Lookup(s.accepts, c), Some(Next(s, e).accepts[c]),
                     InStage(s, c, OfferRead) && !IsDriving(s.trips, s.accepts[c].row.driver))
  {
    hide Next, IsDriving, Wins;
    if CallStep(e) {
      CallStepProgresses(s, e);
    } else if MovesTrip(e) {
      MovesOnlyMove(s, e);
    } else {
      OtherStepsKeep(s, e);
    }
  }

  lemma NoWinKeepsDriversOk(s: State, e: Event)
    requires Safe(s) && DriversOk(s) && !Wins(s, e)
    ensures DriversOk(Next(s, e))
  {
    hide Next, Safe, PastCheck;
    var s' := Next(s, e);
    OnlyWinsStartDriving(s, e);
    forall c | c in s'.accepts ensures StillFree(s', s'.accepts[c]) {
      if PastCheck(s'.accepts[c]) {
        OnlyTheCheckPasses(s, e, c);
        TripExists(s, c);
      }
    }
  }

  lemma TripExists(s: State, c: Id)
    requires Safe(s) && c in s.accepts
    ensures s.accepts[c].trip in s.trips
  {
    hide LedgerIntegrity.Inv, OffersOk, TripsOk, OnePerPassenger;
  }

  lemma WinKeepsDriversOk(s: State, e: Event)
    requires DriversOk(s) && NoRivals(s) && Wins(s, e)
    ensures DriversOk(Next(s, e))
  {
    hide Next;
    var a := s.accepts[e.call];
    var s' := Next(s, e);
    WinStartsDriving(s, e);
    assert StillFree(s, a);
    StepDoubleBooksIff(s, e);
    forall c | c in s'.accepts && c != e.call ensures StillFree(s', s'.accepts[c]) {
      assert StillFree(s, s.accepts[c]);
      assert !Rivals(s, e.call, c);
    }
  }

  ghost predicate Unrivalled(events: seq<Event>) {
    forall k :: 0 <= k <= |events| ==> NoRivals(After(events[..k]))
  }

  lemma {:induction false} UnrivalledRunKeepsDriversOk(events: seq<Event>)
    requires Unrivalled(events)
    ensures DriversOk(After(events))
    decreases |events|
  {
    hide Next, DriversOk, NoRivals, Wins;
    if events == [] {
      StartIsOk();
    } else {
      var before := events[..|events| - 1];
      assert forall k :: 0 <= k <= |before| ==> before[..k] == events[..k];
      UnrivalledRunKeepsDriversOk(before);
      assert before[..|before|] == before;
      if Wins(After(before), events[|before|]) {
        WinKeepsDriversOk(After(before), events[|before|]);
      } else {
        EveryRunIsSafe(before);
        NoWinKeepsDriversOk(After(before), events[|before|]);
      }
    }
  }

  lemma StartIsOk()
    ensures DriversOk(START)
  {
  }

  /** As long as there are no rivals, no driver is on two trips at once. */
  lemma DriverHasOneTrip(events: seq<Event>)
    requires Unrivalled(events)
    ensures OneTripPerDriver(After(events).trips)
  {
    hide Next, NoRivals, OneTripPerDriver;
    UnrivalledRunKeepsDriversOk(events);
  }

  // ---- what rivals can do ----

  predicate DoubleBooked(s: State, t: Id, u: Id, driver: Id) {
    t != u && t in s.trips && u in s.trips && Driving(s.trips[t], driver) && Driving(s.trips[u], driver)
  }

  /** Whenever two rivals have claimed their offers, both can win: their driver is then on both trips. */
  lemma RivalsDoubleBook(s: State, c: Id, d: Id)
    requires Rivals(s, c, d) && InStage(s, c, OfferClaimed) && InStage(s, d, OfferClaimed)
    ensures DoubleBooked(Next(Next(s, MatchTrip(c)), MatchTrip(d)), s.accepts[c].trip, s.accepts[d].trip,
                         s.accepts[c].row.driver)
  {
    hide Next;
    WinStartsDriving(s, MatchTrip(c));
    WinStartsDriving(Next(s, MatchTrip(c)), MatchTrip(d));
  }

  /** A call that is past the check takes the fare, and then claims its offer. */
  lemma CallTakesFare(s: State, call: Id)
    requires Safe(s) && InStage(s, call, DriverFree)
    requires var a := s.accepts[call];
      a.trip !in s.store.holds && a.passenger in s.store.wallets && s.store.wallets[a.passenger].balance >= a.row.price
    ensures var s' := Next(s, TakeFare(call));
      && s' == s.(store := s'.store, accepts := s.accepts[call := s.accepts[call].(stage := FareHeld, took := true)])
      && s'.store.topups == s.store.topups
      && var a := s.accepts[call];
      s'.store.holds == s.store.holds[a.trip := Hold(a.passenger, a.row.driverUser, a.row.driver, a.row.price, Held, 1,
                                                     None)]
  {
    hide Safe, HoldEscrow;
    var a := s.accepts[call];
    SafeSays(s, a.trip);
    HoldEscrowEffect(s.store, a.trip, a.passenger, a.row.driverUser, a.row.driver, a.row.price);
    SerialMatching.FirstHoldSucceeds(s.store, a.trip, a.passenger, a.row.driverUser, a.row.driver, a.row.price);
    HoldKeepsTopups(s.store, a.trip, a.passenger, a.row.driverUser, a.row.driver, a.row.price);
  }

  lemma HoldKeepsTopups(s: Store, trip: Id, payer: Id, payee: Id, driver: Id, amount: int)
    ensures HoldEscrow(s, trip, payer, payee, driver, amount).0.topups == s.topups
  {
    hide ApplyPostings, PostingSum;
  }

  lemma CallClaims(s: State, call: Id)
    requires InStage(s, call, FareHeld)
    requires var o := s.accepts[call].offer; o in s.offers && s.offers[o].status.OfferPending?
    ensures var a := s.accepts[call];
      Next(s, ClaimOffer(call)) == s.(offers := s.offers[a.offer := s.offers[a.offer].(status := OfferAccepted)],
                                      accepts := s.accepts[call := a.(stage := OfferClaimed)])
  {
  }

  /** Passenger n has asked for trip n; driver 7 has made offer n for it and drives nobody. */
  predicate Offered(s: State, n: Id) {
    && TripIs(s, n, Requested) && s.trips[n].passenger == n
    && n in s.offers && s.offers[n] == Offer(n, 7, 8, 500, OfferPending)
    && n in s.store.wallets && s.store.wallets[n].balance >= 500
  }

  lemma LedgerAgrees(events: seq<Event>)
    ensures LedgerIntegrity.Inv(After(events).store)
  {
    hide Next, After, LedgerIntegrity.Inv, OffersOk, TripsOk;
    EveryRunIsSafe(events);
  }

  lemma OneMoreOffered(events: seq<Event>, n: Id) returns (more: seq<Event>)
    requires var s := After(events);
      && n !in s.store.topups && n !in s.trips && n !in s.offers
      && !HasActiveTrip(s.trips, n) && PendingOffers(s.offers, n, 7) == {}
    ensures var (s, s') := (After(events), After(more));
      && s' == s.(store := s'.store, trips := s.trips[n := Trip(n, Requested, None, None)],
                  offers := s.offers[n := Offer(n, 7, 8, 500, OfferPending)])
      && Offered(s', n) && s'.store.holds == s.store.holds && s'.store.topups.Keys == s.store.topups.Keys + {n}
  {
    hide Next, After, HasActiveTrip, PendingOffers, LedgerIntegrity.Inv;
    LedgerAgrees(events);
    more := SerialMatching.TopUp(events, n, n, 500);
    SerialMatching.RequestedAndOffered(After(more), n, n, n, 7, 8, 500);
    more := SerialMatching.TwoMore(more, CreateTrip(n, n, 500), MakeOffer(n, n, 7, 8, 500));
  }

  /** The acceptance of such an offer, up to its claim. */
  lemma OneMoreClaimed(events: seq<Event>, n: Id) returns (more: seq<Event>)
    requires var s := After(events);
      Offered(s, n) && n !in s.accepts && n !in s.store.holds && !IsDriving(s.trips, 7)
    ensures events <= more
    ensures var (s, s') := (After(events), After(more));
      && s' == s.(store := s'.store, offers := s.offers[n := s.offers[n].(status := OfferAccepted)],
                  accepts := s.accepts[n := Accepting(n, n, n, s.offers[n], OfferClaimed, true)])
      && s'.store.topups == s.store.topups && s'.store.holds == s.store.holds[n := Hold(n, 8, 7, 500, Held, 1, None)]
  {
    hide Next, Safe, After, IsDriving;
    more := SerialMatching.CallGetsReady(events, n, n);
    EveryRunIsSafe(more);
    CallTakesFare(After(more), n);
    CallClaims(Next(After(more), TakeFare(n)), n);
    more := SerialMatching.TwoMore(more, TakeFare(n), ClaimOffer(n));
  }

  /** Two passengers who accept offers of one driver at the same time: a run at whose end he is on both trips. */
  lemma DoubleBookingIsReachable() returns (events: seq<Event>)
    ensures DoubleBooked(After(events), 1, 2, 7)
  {
    hide Next, After;
    assert After([]) == START by { AtStart(); }
    events := OneMoreOffered([], 1);
    events := OneMoreClaimed(events, 1);
    events := OneMoreOffered(events, 2);
    events := OneMoreClaimed(events, 2);
    RivalsDoubleBook(After(events), 1, 2);
    events := SerialMatching.TwoMore(events, MatchTrip(1), MatchTrip(2));
  }

  lemma AtStart()
    ensures After([]) == START
  {
  }
}
