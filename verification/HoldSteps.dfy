/** What a step of module Matching can do to the hold of a trip and to what is left to do for it, in any state. */
module HoldSteps {
  import opened Wrappers
  import opened Ledger
  import opened Matching
  import opened MatchingSafety

  /** The events that follow a state. */
  ghost function Continue(s: State, events: seq<Event>): State
    decreases |events|
  {
    if events == [] then s else Next(Continue(s, events[..|events| - 1]), events[|events| - 1])
  }

  // ---- ledger transactions ----

  lemma SettleHold(s: Store, t: Id, release: bool)
    ensures var s' := SettleEscrow(s, t, release).0;
      s'.holds == s.holds
      || (t in s.holds && Live(s.holds[t])
          && s'.holds == s.holds[t := s.holds[t].(status := if release then Released else Refunded)])
  {
    hide ApplyPostings, PostingSum;
  }

  // ---- the hold ----

  /** The step may return the fare of t. */
  predicate Returns(s: State, e: Event, t: Id) {
    match e
    case UndoFare(call) =>
      (InStage(s, call, UndoUnclaimed) || InStage(s, call, UndoClaimed)) && s.accepts[call].took
      && s.accepts[call].trip == t
    case FollowUp(call, _) => call in s.followups && s.followups[call] == RefundFare(t)
    case AdminResolve(trip, release) => trip == t && !release
    case _ => false
  }

  /** The step may pay the fare of t to its driver. */
  predicate Pays(s: State, e: Event, t: Id) {
    match e
    case FollowUp(call, _) => call in s.followups && s.followups[call].PayDriver? && s.followups[call].trip == t
    case AdminResolve(trip, release) => trip == t && release
    case _ => false
  }

  /** The hold is re-opened under the next version, or opened. */
  predicate Reopens(h: Option<Hold>, h': Option<Hold>) {
    h'.Some? && (h.Some? ==> h.value.status.Refunded? && h'.value.version == h.value.version + 1)
  }

  predicate HoldStep(s: State, e: Event, t: Id, h: Option<Hold>, h': Option<Hold>) {
    || h' == h
    || (e.TakeFare? && Reopens(h, h'))
    || (h.Some? && Live(h.value) && Returns(s, e, t) && h' == Some(h.value.(status := Refunded)))
    || (h.Some? && Live(h.value) && Pays(s, e, t) && h' == Some(h.value.(status := Released)))
    || (h.Some? && h.value.status.Held? && e.FollowUp? && h' == Some(h.value.(releaseAfter := Some(e.releaseAt)))
        && e.call in s.followups && s.followups[e.call] == OpenWindow(t))
    || (h.Some? && h.value.status.Held? && h' == Some(h.value.(status := Disputed, releaseAfter := None))
        && e == DisputeTrip(t) && (TripIs(s, t, PickedUp) || TripIs(s, t, Completed)))
  }

  ghost predicate HoldSteps(s: State, e: Event, t: Id) {
    HoldStep(s, e, t, Lookup(s.store.holds, t), Lookup(Next(s, e).store.holds, t))
  }

  lemma TakeFareSteps(s: State, e: Event, t: Id)
    requires e.TakeFare?
    ensures HoldSteps(s, e, t)
  {
    hide HoldEscrow;
    if e.call in s.accepts && s.accepts[e.call].Accepting? {
      var a := s.accepts[e.call];
      HoldEscrowEffect(s.store, a.trip, a.passenger, a.row.driverUser, a.row.driver, a.row.price);
    }
  }

  lemma UndoFareSteps(s: State, e: Event, t: Id)
    requires e.UndoFare?
    ensures HoldSteps(s, e, t)
  {
    hide SettleEscrow;
    if e.call in s.accepts {
      SettleHold(s.store, s.accepts[e.call].trip, false);
    }
  }

  lemma FollowUpSteps(s: State, e: Event, t: Id)
    requires e.FollowUp?
    ensures HoldSteps(s, e, t)
  {
    hide SettleEscrow, ClosePending;
    if e.call in s.followups {
      SettleHold(s.store, s.followups[e.call].trip, false);
      SettleHold(s.store, s.followups[e.call].trip, true);
    }
  }

  lemma AdminStore(s: State, trip: Id, release: bool)
    ensures AfterAdminResolve(s, trip, release).store == SettleEscrow(s.store, trip, release).0
  {
    hide SettleEscrow;
    if SettleEscrow(s.store, trip, release).1.Applied? {
    } else {
    }
  }

  lemma AdminSteps(s: State, e: Event, t: Id)
    requires e.AdminResolve?
    ensures HoldSteps(s, e, t)
  {
    hide SettleEscrow, AfterAdminResolve, Reopens;
    AdminStore(s, e.trip, e.release);
    SettleHold(s.store, e.trip, e.release);
  }

  lemma DisputeSteps(s: State, e: Event, t: Id)
    requires e.DisputeTrip?
    ensures HoldSteps(s, e, t)
  {
  }

  lemma MoneyLeavesHolds(s: State, e: Event)
    requires e.Money?
    ensures Next(s, e).store.holds == s.store.holds
  {
    hide Perform, Legal;
    if !TouchesHolds(e.op) {
      OtherOpsLeaveHolds(s.store, e.op);
    }
  }

  lemma ReadsLeave(s: State, e: Event)
    requires e.ReadTrip? || e.ReadOffer? || e.CheckDriver?
    ensures Next(s, e).store == s.store && Next(s, e).followups == s.followups
  {
    hide IsDriving;
  }

  lemma ClaimLeaves(s: State, e: Event)
    requires e.ClaimOffer?
    ensures Next(s, e).store == s.store && Next(s, e).followups == s.followups
  {
    hide SwapOffer;
  }

  lemma GiveUpLeaves(s: State, e: Event)
    requires e.GiveUp?
    ensures Next(s, e).store == s.store && Next(s, e).followups == s.followups
  {
    if InStage(s, e.call, FareHeld) {
    } else if InStage(s, e.call, OfferClaimed) {
    }
  }

  lemma MatchLeaves(s: State, e: Event)
    requires e.MatchTrip?
    ensures Next(s, e).store == s.store && Next(s, e).followups == s.followups
  {
  }

  lemma EndsLeave(s: State, e: Event)
    requires e.SupersedeOthers? || e.RollBackOffer?
    ensures Next(s, e).store == s.store && Next(s, e).followups == s.followups
  {
    hide ClosePending, SwapOffer;
  }

  lemma CreateLeavesHolds(s: State, e: Event)
    requires e.CreateTrip?
    ensures Next(s, e).store.holds == s.store.holds
  {
    hide HasActiveTrip, EnsureWallet;
    EnsureLeavesHolds(s.store, e.passenger);
  }

  lemma EnsureLeavesHolds(s: Store, user: Id)
    ensures EnsureWallet(s, user).holds == s.holds && user in EnsureWallet(s, user).wallets
  {
  }

  lemma CancelLeavesHolds(s: State, e: Event)
    requires e.CancelTrip? || e.ExpireTrip?
    ensures Next(s, e).store == s.store
  {
  }

  lemma MoveLeavesHolds(s: State, e: Event)
    requires e.ConfirmPickup? || e.CompleteTrip?
    ensures Next(s, e).store == s.store
  {
  }

  lemma OfferLeavesHolds(s: State, e: Event)
    requires e.MakeOffer? || e.RejectOffer?
    ensures Next(s, e).store == s.store && Next(s, e).followups == s.followups
  {
    hide PendingOffers, SwapOffer;
  }

  lemma ReleaseLeavesHolds(s: State, e: Event)
    requires e.ConfirmTrip? || e.FindDue?
    ensures Next(s, e).store == s.store
  {
  }

  /** The ways in which a step can change a hold. */
  lemma NextHold(s: State, e: Event, t: Id)
    ensures HoldSteps(s, e, t)
  {
    hide Next, Reopens, Returns, Pays;
    match e
    case TakeFare(_) => TakeFareSteps(s, e, t);
    case UndoFare(_) => UndoFareSteps(s, e, t);
    case FollowUp(_, _) => FollowUpSteps(s, e, t);
    case AdminResolve(_, _) => AdminSteps(s, e, t);
    case DisputeTrip(_) => DisputeSteps(s, e, t);
    case Money(_) => MoneyLeavesHolds(s, e);
    case CreateTrip(_, _, _) => CreateLeavesHolds(s, e);
    case CancelTrip(_, _) => CancelLeavesHolds(s, e);
    case ExpireTrip(_, _) => CancelLeavesHolds(s, e);
    case ConfirmPickup(_) => MoveLeavesHolds(s, e);
    case CompleteTrip(_, _) => MoveLeavesHolds(s, e);
    case MakeOffer(_, _, _, _, _) => OfferLeavesHolds(s, e);
    case RejectOffer(_) => OfferLeavesHolds(s, e);
    case ConfirmTrip(_, _) => ReleaseLeavesHolds(s, e);
    case FindDue(_, _, _) => ReleaseLeavesHolds(s, e);
    case ReadTrip(_, _) => ReadsLeave(s, e);
    case ReadOffer(_, _) => ReadsLeave(s, e);
    case CheckDriver(_) => ReadsLeave(s, e);
    case ClaimOffer(_) => ClaimLeaves(s, e);
    case GiveUp(_) => GiveUpLeaves(s, e);
    case MatchTrip(_) => MatchLeaves(s, e);
    case SupersedeOthers(_) => EndsLeave(s, e);
    case RollBackOffer(_) => EndsLeave(s, e);
  }

  // ---- what is left to do ----

  /** What a new follow-up of a trip tells about the trip or its hold at that moment. */
  predicate MayStart(s: State, f: Followup) {
    match f
    case RefundFare(t) => TripIs(s, t, Matched)
    case WithdrawOffers(t) => TripIs(s, t, Requested)
    case OpenWindow(t) => TripIs(s, t, PickedUp)
    case PayDriver(t, _) =>
      t in s.store.holds && s.store.holds[t].status.Held?
      && (TripIs(s, t, Completed) || s.store.holds[t].releaseAfter.Some?)
  }

  ghost predicate FollowupSteps(s: State, e: Event) {
    forall c :: c in Next(s, e).followups ==>
      (c in s.followups && Next(s, e).followups[c] == s.followups[c]) || MayStart(s, Next(s, e).followups[c])
  }

  lemma FareLeavesFollowups(s: State, e: Event)
    requires e.TakeFare? || e.UndoFare?
    ensures Next(s, e).followups == s.followups
  {
    hide HoldEscrow, SettleEscrow;
  }

  lemma MoneyLeavesFollowups(s: State, e: Event)
    requires e.Money? || e.AdminResolve? || e.DisputeTrip?
    ensures Next(s, e).followups == s.followups
  {
    hide Perform, Legal, SettleEscrow, DisputeEscrow;
  }

  lemma TripLeavesFollowups(s: State, e: Event)
    requires e.CreateTrip? || e.ConfirmPickup?
    ensures Next(s, e).followups == s.followups
  {
    hide HasActiveTrip, EnsureWallet;
  }

  lemma FollowUpEnds(s: State, e: Event)
    requires e.FollowUp?
    ensures FollowupSteps(s, e)
  {
    hide SettleEscrow, ClosePending, MarkEscrowCompleted;
  }

  lemma ExpireStarts(s: State, e: Event)
    requires e.ExpireTrip?
    ensures FollowupSteps(s, e)
  {
  }

  lemma CancelStarts(s: State, e: Event)
    requires e.CancelTrip?
    ensures FollowupSteps(s, e)
  {
    if e.call in s.followups {
    } else if TripIs(s, e.trip, Matched) {
    } else if TripIs(s, e.trip, Requested) {
    }
  }

  lemma CompleteStarts(s: State, e: Event)
    requires e.CompleteTrip?
    ensures FollowupSteps(s, e)
  {
  }

  lemma ReleaseStarts(s: State, e: Event)
    requires e.ConfirmTrip? || e.FindDue?
    ensures FollowupSteps(s, e)
  {
  }

  /** Follow-ups start only in these situations. */
  lemma NextFollowups(s: State, e: Event)
    ensures FollowupSteps(s, e)
  {
    hide Next, MayStart;
    match e
    case TakeFare(_) => FareLeavesFollowups(s, e);
    case UndoFare(_) => FareLeavesFollowups(s, e);
    case FollowUp(_, _) => FollowUpEnds(s, e);
    case AdminResolve(_, _) => MoneyLeavesFollowups(s, e);
    case DisputeTrip(_) => MoneyLeavesFollowups(s, e);
    case Money(_) => MoneyLeavesFollowups(s, e);
    case CreateTrip(_, _, _) => TripLeavesFollowups(s, e);
    case MakeOffer(_, _, _, _, _) => OfferLeavesHolds(s, e);
    case RejectOffer(_) => OfferLeavesHolds(s, e);
    case ConfirmPickup(_) => TripLeavesFollowups(s, e);
    case CancelTrip(_, _) => CancelStarts(s, e);
    case ExpireTrip(_, _) => ExpireStarts(s, e);
    case CompleteTrip(_, _) => CompleteStarts(s, e);
    case ConfirmTrip(_, _) => ReleaseStarts(s, e);
    case FindDue(_, _, _) => ReleaseStarts(s, e);
    case ReadTrip(_, _) => ReadsLeave(s, e);
    case ReadOffer(_, _) => ReadsLeave(s, e);
    case CheckDriver(_) => ReadsLeave(s, e);
    case ClaimOffer(_) => ClaimLeaves(s, e);
    case GiveUp(_) => GiveUpLeaves(s, e);
    case MatchTrip(_) => MatchLeaves(s, e);
    case SupersedeOthers(_) => EndsLeave(s, e);
    case RollBackOffer(_) => EndsLeave(s, e);
  }
}
