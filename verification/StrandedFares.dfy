/**
 * What a crash in AcceptOffer costs for good, over every run that follows it: the offer it owned stays accepted and
 * never wins, and a fare whose trip is given up stays in escrow until an admin settles it.
 */
module StrandedFares {
  import opened Wrappers
  import opened Ledger
  import LedgerIntegrity
  import opened Matching
  import opened MatchingSafety
  import opened HoldSteps
  import opened DriverTrips
  import opened CrashedAccept
  import TripService

  // ---- the offer ----

  /** Accepted, although it has won nothing and no call owns it. */
  ghost predicate StuckOffer(s: State, o: Id) {
    && o in s.offers && s.offers[o].status.OfferAccepted?
    && !Won(s.wins, o, s.offers[o]) && OwnersOf(s.accepts, o) == {}
  }

  /** The parts of the state that StuckOffer reads. */
  predicate SameOffers(s: State, s': State, o: Id) {
    o in s.offers && o in s'.offers && s'.offers[o] == s.offers[o] && s'.wins == s.wins
  }

  lemma MoneyKeepsOffers(s: State, e: Event, o: Id)
    requires o in s.offers && s.offers[o].status.OfferAccepted? && (e.Money? || e.DisputeTrip?)
    ensures SameOffers(s, Next(s, e), o)
  {
    hide Perform, Legal, DisputeEscrow;
  }

  lemma FollowUpKeepsOffers(s: State, e: Event, o: Id)
    requires o in s.offers && s.offers[o].status.OfferAccepted? && e.FollowUp?
    ensures SameOffers(s, Next(s, e), o)
  {
    hide SettleEscrow, MarkEscrowCompleted;
  }

  lemma AdminKeepsOffers(s: State, trip: Id, release: bool, o: Id)
    requires o in s.offers
    ensures SameOffers(s, AfterAdminResolve(s, trip, release), o)
  {
    hide SettleEscrow;
    if SettleEscrow(s.store, trip, release).1.Applied? {
    } else {
    }
  }

  lemma OfferKeepsOffers(s: State, e: Event, o: Id)
    requires o in s.offers && s.offers[o].status.OfferAccepted? && (e.MakeOffer? || e.RejectOffer?)
    ensures SameOffers(s, Next(s, e), o)
  {
  }

  lemma TripKeepsOffers(s: State, e: Event, o: Id)
    requires o in s.offers && (e.ConfirmPickup? || e.CompleteTrip? || e.ConfirmTrip? || e.FindDue?)
    ensures SameOffers(s, Next(s, e), o)
  {
  }

  lemma CloseKeepsOffers(s: State, e: Event, o: Id)
    requires o in s.offers && (e.CreateTrip? || e.CancelTrip? || e.ExpireTrip?)
    ensures SameOffers(s, Next(s, e), o)
  {
    hide HasActiveTrip, EnsureWallet;
  }

  lemma FewerOwners(accepts: map<Id, Accept>, accepts': map<Id, Accept>, o: Id)
    requires OwnersOf(accepts, o) == {}
    requires forall c :: c in accepts' && Owning(accepts'[c]) && accepts'[c].offer == o ==>
      c in accepts && Owning(accepts[c]) && accepts[c].offer == o
    ensures OwnersOf(accepts', o) == {}
  {
    forall c | c in OwnersOf(accepts', o) ensures c in OwnersOf(accepts, o) {
    }
  }

  lemma NotOwned(s: State, o: Id, call: Id)
    requires StuckOffer(s, o) && call in s.accepts && Owning(s.accepts[call])
    ensures s.accepts[call].offer != o
  {
    assert call in OwnersOf(s.accepts, o) || s.accepts[call].offer != o;
  }

  lemma ReadKeepsStuck(s: State, e: Event, o: Id)
    requires StuckOffer(s, o) && (e.ReadTrip? || e.ReadOffer?)
    ensures StuckOffer(Next(s, e), o)
  {
    hide OwnersOf, Won;
    FewerOwners(s.accepts, Next(s, e).accepts, o);
  }

  lemma CheckKeepsStuck(s: State, e: Event, o: Id)
    requires StuckOffer(s, o) && e.CheckDriver?
    ensures StuckOffer(Next(s, e), o)
  {
    hide IsDriving, OwnersOf, Won;
    if InStage(s, e.call, OfferRead) {
      if IsDriving(s.trips, s.accepts[e.call].row.driver) {
        FewerOwners(s.accepts, Next(s, e).accepts, o);
      } else {
        FewerOwners(s.accepts, Next(s, e).accepts, o);
      }
    }
  }

  lemma TakeKeepsStuck(s: State, e: Event, o: Id)
    requires StuckOffer(s, o) && e.TakeFare?
    ensures StuckOffer(Next(s, e), o)
  {
    hide HoldEscrow, OwnersOf, Won;
    if InStage(s, e.call, DriverFree) {
      FewerOwners(s.accepts, Next(s, e).accepts, o);
    }
  }

  lemma ClaimKeepsStuck(s: State, e: Event, o: Id)
    requires StuckOffer(s, o) && e.ClaimOffer?
    ensures StuckOffer(Next(s, e), o)
  {
    hide OwnersOf, Won;
    if InStage(s, e.call, FareHeld) {
      FewerOwners(s.accepts, Next(s, e).accepts, o);
    }
  }

  lemma GiveUpKeepsStuck(s: State, e: Event, o: Id)
    requires StuckOffer(s, o) && e.GiveUp?
    ensures StuckOffer(Next(s, e), o)
  {
    hide OwnersOf, Won;
    if InStage(s, e.call, FareHeld) {
      FewerOwners(s.accepts, Next(s, e).accepts, o);
    } else if InStage(s, e.call, OfferClaimed) {
      FewerOwners(s.accepts, Next(s, e).accepts, o);
    }
  }

  lemma MatchKeepsStuck(s: State, e: Event, o: Id)
    requires StuckOffer(s, o) && e.MatchTrip?
    ensures StuckOffer(Next(s, e), o)
  {
    hide OwnersOf;
    if InStage(s, e.call, OfferClaimed) {
      NotOwned(s, o, e.call);
      FewerOwners(s.accepts, Next(s, e).accepts, o);
    }
  }

  lemma SupersedeKeepsStuck(s: State, e: Event, o: Id)
    requires StuckOffer(s, o) && e.SupersedeOthers?
    ensures StuckOffer(Next(s, e), o)
  {
    hide OwnersOf, Won;
    if InStage(s, e.call, TripWon) {
      FewerOwners(s.accepts, Next(s, e).accepts, o);
    }
  }

  lemma UndoKeepsStuck(s: State, e: Event, o: Id)
    requires StuckOffer(s, o) && e.UndoFare?
    ensures StuckOffer(Next(s, e), o)
  {
    hide OwnersOf, Won, SettleEscrow;
    if InStage(s, e.call, UndoUnclaimed) {
      FewerOwners(s.accepts, Next(s, e).accepts, o);
    } else if InStage(s, e.call, UndoClaimed) {
      FewerOwners(s.accepts, Next(s, e).accepts, o);
    }
  }

  lemma RollBackKeepsStuck(s: State, e: Event, o: Id)
    requires StuckOffer(s, o) && e.RollBackOffer?
    ensures StuckOffer(Next(s, e), o)
  {
    hide OwnersOf, Won;
    if InStage(s, e.call, RollingBack) {
      NotOwned(s, o, e.call);
      FewerOwners(s.accepts, Next(s, e).accepts, o);
    }
  }

  lemma CallStepKeepsStuck(s: State, e: Event, o: Id)
    requires StuckOffer(s, o) && CallStep(e)
    ensures StuckOffer(Next(s, e), o)
  {
    hide Next, StuckOffer;
    match e
    case CheckDriver(_) => CheckKeepsStuck(s, e, o);
    case TakeFare(_) => TakeKeepsStuck(s, e, o);
    case ClaimOffer(_) => ClaimKeepsStuck(s, e, o);
    case GiveUp(_) => GiveUpKeepsStuck(s, e, o);
    case MatchTrip(_) => MatchKeepsStuck(s, e, o);
    case SupersedeOthers(_) => SupersedeKeepsStuck(s, e, o);
    case UndoFare(_) => UndoKeepsStuck(s, e, o);
    case RollBackOffer(_) => RollBackKeepsStuck(s, e, o);
    case _ => ReadKeepsStuck(s, e, o);
  }

  lemma OtherStepKeepsOffers(s: State, e: Event, o: Id)
    requires o in s.offers && s.offers[o].status.OfferAccepted? && !CallStep(e)
    ensures SameOffers(s, Next(s, e), o) && Next(s, e).accepts == s.accepts
  {
    hide Next;
    if MovesTrip(e) {
      MovesOnlyMove(s, e);
    } else {
      OtherStepsKeep(s, e);
    }
    match e
    case Money(_) => MoneyKeepsOffers(s, e, o);
    case DisputeTrip(_) => MoneyKeepsOffers(s, e, o);
    case FollowUp(_, _) => FollowUpKeepsOffers(s, e, o);
    case AdminResolve(trip, release) => AdminIs(s, trip, release); AdminKeepsOffers(s, trip, release, o);
    case MakeOffer(_, _, _, _, _) => OfferKeepsOffers(s, e, o);
    case RejectOffer(_) => OfferKeepsOffers(s, e, o);
    case CreateTrip(_, _, _) => CloseKeepsOffers(s, e, o);
    case CancelTrip(_, _) => CloseKeepsOffers(s, e, o);
    case ExpireTrip(_, _) => CloseKeepsOffers(s, e, o);
    case _ => TripKeepsOffers(s, e, o);
  }

  lemma AdminIs(s: State, trip: Id, release: bool)
    ensures Next(s, AdminResolve(trip, release)) == AfterAdminResolve(s, trip, release)
  {
    hide AfterAdminResolve;
  }

  lemma NextStaysStuck(s: State, e: Event, o: Id)
    requires StuckOffer(s, o)
    ensures StuckOffer(Next(s, e), o)
  {
    hide Next, OwnersOf;
    if CallStep(e) {
      CallStepKeepsStuck(s, e, o);
    } else {
      OtherStepKeepsOffers(s, e, o);
    }
  }

  /** Whatever happens afterwards, the offer stays accepted and never wins. */
  lemma {:induction false} StuckOfferStays(s: State, events: seq<Event>, o: Id)
    requires StuckOffer(s, o)
    ensures StuckOffer(Continue(s, events), o)
    decreases |events|
  {
    hide Next, StuckOffer;
    if events != [] {
      StuckOfferStays(s, events[..|events| - 1], o);
      NextStaysStuck(Continue(s, events[..|events| - 1]), events[|events| - 1], o);
    }
  }

  /** A call that crashes leaves its offer like that exactly if it owns it. */
  lemma CrashSticksOfferIff(s: State, call: Id)
    requires Safe(s) && call in s.accepts && s.accepts[call].Accepting?
    ensures StuckOffer(Quit(s, call), s.accepts[call].offer) <==> Owning(s.accepts[call])
  {
    hide LedgerIntegrity.Inv, TripsOk, OnePerPassenger, OwnersOf;
    var o := s.accepts[call].offer;
    CallExists(s, call);
    assert OfferOk(s.offers[o], Won(s.wins, o, s.offers[o]), OwnersOf(s.accepts, o));
    OwnersAfterPut(s.accepts, call, None, o);
    OwnsIff(s.accepts, call, o);
    assert call !in OwnersOf(s.accepts, o) ==> OwnersOf(s.accepts, o) - {call} == OwnersOf(s.accepts, o);
  }

  lemma OwnsIff(accepts: map<Id, Accept>, call: Id, o: Id)
    requires call in accepts && accepts[call].Accepting? && accepts[call].offer == o
    ensures call in OwnersOf(accepts, o) <==> Owning(accepts[call])
  {
  }

  // ---- the fare ----

  predicate GivenUp(s: State, t: Id) {
    TripIs(s, t, TripExpired) || TripIs(s, t, Cancelled)
  }

  /** The trip was given up with h in escrow, and nothing under way will return it. */
  ghost predicate Stranded(s: State, t: Id, h: Hold) {
    && GivenUp(s, t) && Lookup(s.store.holds, t) == Some(h) && Live(h) && h.releaseAfter.None?
    && FaresOf(s.accepts, t) == map[]
    && forall c :: c in s.followups && s.followups[c].trip == t ==> s.followups[c].WithdrawOffers?
  }

  lemma CancelLeavesGivenUp(s: State, e: Event, t: Id)
    requires GivenUp(s, t) && (e.CancelTrip? || e.ExpireTrip?)
    ensures GivenUp(Next(s, e), t)
  {
    if e.call in s.followups {
    } else if TripIs(s, e.trip, Matched) {
    } else if TripIs(s, e.trip, Requested) {
    }
  }

  lemma MoveLeavesGivenUp(s: State, e: Event, t: Id)
    requires GivenUp(s, t) && (e.CreateTrip? || e.ConfirmPickup? || e.CompleteTrip?)
    ensures GivenUp(Next(s, e), t)
  {
    hide HasActiveTrip, EnsureWallet;
  }

  lemma GivenUpStays(s: State, e: Event, t: Id)
    requires GivenUp(s, t)
    ensures GivenUp(Next(s, e), t)
  {
    hide Next;
    if CallStep(e) {
      CallStepProgresses(s, e);
      if Wins(s, e) {
        WinStartsDriving(s, e);
      }
    } else if e.CancelTrip? || e.ExpireTrip? {
      CancelLeavesGivenUp(s, e, t);
    } else if MovesTrip(e) {
      MoveLeavesGivenUp(s, e, t);
    } else {
      OtherStepsKeep(s, e);
    }
  }

  // -- no call takes a fare that is in escrow already --

  lemma NoFares(accepts: map<Id, Accept>, accepts': map<Id, Accept>, t: Id)
    requires FaresOf(accepts, t) == map[]
    requires forall c :: c in accepts' && Taking(accepts'[c]) && accepts'[c].trip == t ==>
      c in accepts && Taking(accepts[c]) && accepts[c].trip == t
    ensures FaresOf(accepts', t) == map[]
  {
    forall c | c in FaresOf(accepts', t) ensures c in FaresOf(accepts, t) {
    }
  }

  lemma ReadTakesNoFare(s: State, e: Event, t: Id)
    requires FaresOf(s.accepts, t) == map[] && (e.ReadTrip? || e.ReadOffer?)
    ensures FaresOf(Next(s, e).accepts, t) == map[]
  {
    hide FaresOf;
    NoFares(s.accepts, Next(s, e).accepts, t);
  }

  lemma CheckTakesNoFare(s: State, e: Event, t: Id)
    requires FaresOf(s.accepts, t) == map[] && e.CheckDriver?
    ensures FaresOf(Next(s, e).accepts, t) == map[]
  {
    hide IsDriving, FaresOf;
    if InStage(s, e.call, OfferRead) {
      if IsDriving(s.trips, s.accepts[e.call].row.driver) {
        NoFares(s.accepts, Next(s, e).accepts, t);
      } else {
        NoFares(s.accepts, Next(s, e).accepts, t);
      }
    }
  }

  /** What TakeFare makes of its own call. */
  lemma TakeIs(s: State, call: Id)
    ensures var accepts' := Next(s, TakeFare(call)).accepts;
      if !InStage(s, call, DriverFree) then accepts' == s.accepts
      else
        var a := s.accepts[call];
        var o := HoldEscrow(s.store, a.trip, a.passenger, a.row.driverUser, a.row.driver, a.row.price).1;
        accepts' == if o.Refused? then s.accepts - {call}
          else s.accepts[call := a.(stage := FareHeld, took := o.Applied?)]
  {
    hide HoldEscrow;
    if InStage(s, call, DriverFree) {
      var a := s.accepts[call];
      if HoldEscrow(s.store, a.trip, a.passenger, a.row.driverUser, a.row.driver, a.row.price).1.Refused? {
      } else {
      }
    }
  }

  lemma TakeTakesNoFare(s: State, e: Event, t: Id)
    requires FaresOf(s.accepts, t) == map[] && e.TakeFare? && t in s.store.holds && Live(s.store.holds[t])
    ensures FaresOf(Next(s, e).accepts, t) == map[]
  {
    hide Next, HoldEscrow, FaresOf;
    TakeIs(s, e.call);
    if InStage(s, e.call, DriverFree) {
      var a := s.accepts[e.call];
      HoldEscrowEffect(s.store, a.trip, a.passenger, a.row.driverUser, a.row.driver, a.row.price);
      NoFares(s.accepts, Next(s, e).accepts, t);
    }
  }

  lemma ClaimTakesNoFare(s: State, e: Event, t: Id)
    requires FaresOf(s.accepts, t) == map[] && e.ClaimOffer?
    ensures FaresOf(Next(s, e).accepts, t) == map[]
  {
    hide FaresOf, SwapOffer;
    if InStage(s, e.call, FareHeld) {
      NoFares(s.accepts, Next(s, e).accepts, t);
    }
  }

  lemma GiveUpTakesNoFare(s: State, e: Event, t: Id)
    requires FaresOf(s.accepts, t) == map[] && e.GiveUp?
    ensures FaresOf(Next(s, e).accepts, t) == map[]
  {
    hide Next, FaresOf;
    GiveUpIs(s, e.call);
    NoFares(s.accepts, Next(s, e).accepts, t);
  }

  lemma MatchTakesNoFare(s: State, e: Event, t: Id)
    requires FaresOf(s.accepts, t) == map[] && e.MatchTrip?
    ensures FaresOf(Next(s, e).accepts, t) == map[]
  {
    hide FaresOf;
    if InStage(s, e.call, OfferClaimed) {
      NoFares(s.accepts, Next(s, e).accepts, t);
    }
  }

  lemma UndoTakesNoFare(s: State, e: Event, t: Id)
    requires FaresOf(s.accepts, t) == map[] && e.UndoFare?
    ensures FaresOf(Next(s, e).accepts, t) == map[]
  {
    hide Next, FaresOf;
    UndoIs(s, e.call);
    NoFares(s.accepts, Next(s, e).accepts, t);
  }

  lemma EndTakesNoFare(s: State, e: Event, t: Id)
    requires FaresOf(s.accepts, t) == map[] && (e.SupersedeOthers? || e.RollBackOffer?)
    ensures FaresOf(Next(s, e).accepts, t) == map[]
  {
    hide FaresOf, ClosePending, SwapOffer;
    NoFares(s.accepts, Next(s, e).accepts, t);
  }

  lemma NobodyTakesFare(s: State, e: Event, t: Id)
    requires FaresOf(s.accepts, t) == map[] && t in s.store.holds && Live(s.store.holds[t])
    ensures FaresOf(Next(s, e).accepts, t) == map[]
  {
    hide Next, FaresOf;
    match e
    case ReadTrip(_, _) => ReadTakesNoFare(s, e, t);
    case ReadOffer(_, _) => ReadTakesNoFare(s, e, t);
    case CheckDriver(_) => CheckTakesNoFare(s, e, t);
    case TakeFare(_) => TakeTakesNoFare(s, e, t);
    case ClaimOffer(_) => ClaimTakesNoFare(s, e, t);
    case GiveUp(_) => GiveUpTakesNoFare(s, e, t);
    case MatchTrip(_) => MatchTakesNoFare(s, e, t);
    case UndoFare(_) => UndoTakesNoFare(s, e, t);
    case SupersedeOthers(_) => EndTakesNoFare(s, e, t);
    case RollBackOffer(_) => EndTakesNoFare(s, e, t);
    case _ => if MovesTrip(e) { MovesOnlyMove(s, e); } else { OtherStepsKeep(s, e); }
  }

  lemma UndoNeedsFare(s: State, e: Event, t: Id)
    requires FaresOf(s.accepts, t) == map[] && e.UndoFare?
    ensures !Returns(s, e, t)
  {
    if Returns(s, e, t) {
      InFares(s.accepts, e.call, t);
    }
  }

  /** No admin settles t. */
  predicate NoAdmin(events: seq<Event>, t: Id) {
    forall i :: 0 <= i < |events| && events[i].AdminResolve? ==> events[i].trip != t
  }

  lemma NextStaysStranded(s: State, e: Event, t: Id, h: Hold)
    requires Stranded(s, t, h) && (e.AdminResolve? ==> e.trip != t)
    ensures Stranded(Next(s, e), t, h)
  {
    hide Next, FaresOf;
    GivenUpStays(s, e, t);
    NobodyTakesFare(s, e, t);
    NextHold(s, e, t);
    NextFollowups(s, e);
    if e.UndoFare? {
      UndoNeedsFare(s, e, t);
    }
  }

  /** Whatever happens afterwards, only an admin gets the fare out of escrow. */
  lemma {:induction false} FareStaysStranded(s: State, events: seq<Event>, t: Id, h: Hold)
    requires Stranded(s, t, h) && NoAdmin(events, t)
    ensures Stranded(Continue(s, events), t, h)
    decreases |events|
  {
    hide Next, Stranded;
    if events != [] {
      FareStaysStranded(s, events[..|events| - 1], t, h);
      NextStaysStranded(Continue(s, events[..|events| - 1]), events[|events| - 1], t, h);
    }
  }

  // -- how a crash gets there --

  lemma CrashLeaves(s: State, call: Id)
    requires Safe(s) && call in s.accepts && TripIs(s, s.accepts[call].trip, Requested)
    requires OnlyOneToReturn(ViewOf(s, s.accepts[call].trip), call)
    ensures var t := s.accepts[call].trip;
      && FaresOf(Quit(s, call).accepts, t) == map[] && t in s.store.holds
      && Live(s.store.holds[t]) && s.store.holds[t].releaseAfter.None?
      && forall c :: c in s.followups && s.followups[c].trip == t ==> s.followups[c].WithdrawOffers?
  {
    hide LedgerIntegrity.Inv, CallsFit, OffersOk, OnePerPassenger;
    var t := s.accepts[call].trip;
    var v := ViewOf(s, t);
    assert TripOk(v);
    ViewAfter(s, call);
    assert FaresOf(Quit(s, call).accepts, t).Keys == v.fares.Keys - {call} == {};
    forall c | c in s.followups && s.followups[c].trip == t ensures s.followups[c].WithdrawOffers? {
      assert c in v.todo && TodoOk(v, v.todo[c]);
    }
  }

  /** A harmful crash on an open request: once the request is cancelled, its fare is stranded. */
  lemma CrashStrandsFare(s: State, call: Id, cancelling: Id)
    requires Safe(s) && call in s.accepts && TripIs(s, s.accepts[call].trip, Requested) && cancelling !in s.followups
    requires OnlyOneToReturn(ViewOf(s, s.accepts[call].trip), call)
    ensures var t := s.accepts[call].trip;
      t in s.store.holds && Stranded(Next(Quit(s, call), CancelTrip(cancelling, t)), t, s.store.holds[t])
  {
    hide Safe, FaresOf, OnlyOneToReturn, Next;
    CrashLeaves(s, call);
    CancelsRequest(Quit(s, call), cancelling, s.accepts[call].trip);
  }

  lemma CancelsRequest(s: State, call: Id, t: Id)
    requires TripIs(s, t, Requested) && call !in s.followups
    ensures Next(s, CancelTrip(call, t)) ==
      s.(trips := s.trips[t := s.trips[t].(status := Cancelled)], followups := s.followups[call := WithdrawOffers(t)])
  {
  }

  /** A run from the start to such a crash. */
  lemma StrandedFareIsReachable() returns (events: seq<Event>)
    ensures 1 in After(events).accepts
    ensures Stranded(Next(Quit(After(events), 1), CancelTrip(0, 1)), 1, Hold(1, 8, 7, 500, Held, 1, None))
  {
    hide Next, After, Safe, Stranded, OnlyOneToReturn;
    assert After([]) == START by { AtStart(); }
    events := OneMoreOffered([], 1);
    events := OneMoreClaimed(events, 1);
    EveryRunIsSafe(events);
    OnlyClaimant(After(events));
    CrashStrandsFare(After(events), 1, 0);
  }

  lemma OnlyClaimant(s: State)
    requires TripIs(s, 1, Requested) && 1 in s.store.holds && Live(s.store.holds[1]) && s.settledByAdmin == {}
    requires s.wins == map[]
    requires s.accepts.Keys == {1} && InStage(s, 1, OfferClaimed) && s.accepts[1].took && s.accepts[1].trip == 1
    ensures OnlyOneToReturn(ViewOf(s, 1), 1)
  {
    assert FaresOf(s.accepts, 1).Keys == {1};
  }

  // -- while the request is still open --

  /**
   * Another AcceptOffer of the trip gets past the escrow exactly if its offer asks for the terms of the hold; it
   * takes nothing.
   */
  lemma RetryPassesIff(s: State, call: Id)
    requires InStage(s, call, DriverFree) && s.accepts[call].trip in s.store.holds
    requires Live(s.store.holds[s.accepts[call].trip])
    ensures var (a, h) := (s.accepts[call], s.store.holds[s.accepts[call].trip]);
      var s' := Next(s, TakeFare(call));
      && s'.store.holds == s.store.holds
      && (if h.payer == a.passenger && h.driver == a.row.driver && h.amount == a.row.price
          then s'.accepts == s.accepts[call := a.(stage := FareHeld, took := false)]
          else s'.accepts == s.accepts - {call})
  {
    hide Next;
    var a := s.accepts[call];
    TakeIs(s, call);
    NextHold(s, TakeFare(call), a.trip);
    TakeStore(s, call);
  }

  lemma TakeStore(s: State, call: Id)
    requires InStage(s, call, DriverFree) && s.accepts[call].trip in s.store.holds
    requires Live(s.store.holds[s.accepts[call].trip])
    ensures Next(s, TakeFare(call)).store.holds == s.store.holds
  {
    hide HoldEscrow;
    var a := s.accepts[call];
    HoldEscrowEffect(s.store, a.trip, a.passenger, a.row.driverUser, a.row.driver, a.row.price);
    if HoldEscrow(s.store, a.trip, a.passenger, a.row.driverUser, a.row.driver, a.row.price).1.Refused? {
    } else {
    }
  }

  /** Such a retry, alone, matches the trip, and the fare that was left in escrow backs the match. */
  lemma RetryMatches(s: State, t: Id, o: Id)
    requires TripService.Quiet(s) && TripService.Acceptable(s, t, o) && !IsDriving(s.trips, s.offers[o].driver)
    requires t in s.store.holds && Live(s.store.holds[t])
    requires var (h, row) := (s.store.holds[t], s.offers[o]);
      h.payer == s.trips[t].passenger && h.driver == row.driver && h.amount == row.price
    ensures var s' := TripService.AcceptAlone(s, t, o, true);
      TripIs(s', t, Matched) && s'.trips[t].driver == Some(s.offers[o].driver) && s'.store.holds == s.store.holds
  {
    hide TripService.AcceptAlone, IsDriving;
    TripService.AcceptAloneIs(s, t, o, true);
  }
}
