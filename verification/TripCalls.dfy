/**
 * What the calls of module Matching other than AcceptOffer come to when nothing runs in between: requests, offers,
 * expiry, confirmation, the release timer, disputes and an admin's settlement.
 */
module TripCalls {
  import opened Wrappers
  import opened Ledger
  import LedgerIntegrity
  import LedgerOutcomes
  import opened Matching
  import Quotes

  /** A call that starts with one step and finishes what that leaves to do. */
  ghost function Alone(s: State, start: Event, call: Id, releaseAt: int): State {
    Next(Next(s, start), FollowUp(call, releaseAt))
  }

  /** The fare of t is paid out, in full and to one user; nothing else has moved. */
  ghost predicate FarePaid(s: State, s': State, t: Id, user: Id, status: EscrowStatus)
    requires t in s.store.holds
  {
    && s'.store.holds == s.store.holds[t := s.store.holds[t].(status := status)]
    && LedgerOutcomes.OnlyBalance(s.store, s'.store, user, s.store.holds[t].amount)
    && s'.trips == s.trips && s'.offers == s.offers && s'.accepts == s.accepts && s'.followups == s.followups
    && s'.wins == s.wins
  }

  /** A fare that can be settled, if there is one. */
  ghost predicate Sound(s: State, t: Id) {
    LedgerIntegrity.Inv(s.store) && (t in s.store.holds ==> s.store.holds[t].amount >= 0)
  }

  lemma PaysDriver(s: State, call: Id, t: Id, releaser: Releaser, releaseAt: int)
    requires Sound(s, t) && call !in s.followups && t in s.store.holds && s.store.holds[t].status.Held?
    ensures var s' := Next(Later(s, call, PayDriver(t, releaser)), FollowUp(call, releaseAt));
      && FarePaid(s, s', t, s.store.holds[t].payee, Released)
      && s'.releasedBy == s.releasedBy[t := releaser] && s'.settledByAdmin == s.settledByAdmin
  {
    hide LedgerIntegrity.Inv, SettleEscrow, LedgerOutcomes.OnlyBalance;
    LedgerOutcomes.HoldIsSettledIff(s.store, t, true);
    var waiting := Later(s, call, PayDriver(t, releaser));
    assert waiting.followups - {call} == s.followups;
    var s' := AfterFollowUp(waiting, call, releaseAt);
    assert Next(waiting, FollowUp(call, releaseAt)) == s';
  }

  /** The passenger's confirmation pays the driver if and only if the trip is completed and its fare is held. */
  lemma ConfirmationPaysIff(s: State, call: Id, t: Id, releaseAt: int)
    requires Sound(s, t) && call !in s.followups
    ensures var s' := Alone(s, ConfirmTrip(call, t), call, releaseAt);
      if t in s.trips && s.trips[t].status == Completed && t in s.store.holds && s.store.holds[t].status == Held then
        && FarePaid(s, s', t, s.store.holds[t].payee, Released)
        && s'.releasedBy == s.releasedBy[t := ByPassenger] && s'.settledByAdmin == s.settledByAdmin
      else s' == s
  {
    hide FarePaid, LedgerIntegrity.Inv;
    if TripIs(s, t, Completed) && t in s.store.holds && s.store.holds[t].status.Held? {
      assert Next(s, ConfirmTrip(call, t)) == Later(s, call, PayDriver(t, ByPassenger));
      hide Next;
      PaysDriver(s, call, t, ByPassenger, releaseAt);
    }
  }

  /** The timer pays the driver if and only if the fare is held and its window is over. */
  lemma TimerPaysIff(s: State, call: Id, t: Id, now: int, releaseAt: int)
    requires Sound(s, t) && call !in s.followups
    ensures var s' := Alone(s, FindDue(call, t, now), call, releaseAt);
      if t in s.store.holds && s.store.holds[t].status == Held && s.store.holds[t].releaseAfter.Some?
         && s.store.holds[t].releaseAfter.value <= now then
        && FarePaid(s, s', t, s.store.holds[t].payee, Released)
        && s'.releasedBy == s.releasedBy[t := ByTimer] && s'.settledByAdmin == s.settledByAdmin
      else s' == s
  {
    hide FarePaid, LedgerIntegrity.Inv;
    if t in s.store.holds && s.store.holds[t].status.Held? && s.store.holds[t].releaseAfter.Some?
       && s.store.holds[t].releaseAfter.value <= now {
      assert Next(s, FindDue(call, t, now)) == Later(s, call, PayDriver(t, ByTimer));
      hide Next;
      PaysDriver(s, call, t, ByTimer, releaseAt);
    }
  }

  /** A dispute stops the fare of a trip that is under way or completed, if and only if it is still held. */
  lemma DisputeStopsIff(s: State, t: Id)
    ensures var s' := Next(s, DisputeTrip(t));
      if t in s.trips && s.trips[t].status in {PickedUp, Completed} && t in s.store.holds
         && s.store.holds[t].status == Held then
        s' == s.(store := s.store.(holds :=
          s.store.holds[t := s.store.holds[t].(status := Disputed, releaseAfter := None)]))
      else s' == s
  {
    if TripIs(s, t, PickedUp) || TripIs(s, t, Completed) {
    } else {
    }
  }

  /** An admin settles a fare, either way, if and only if it is held or disputed. */
  lemma AdminSettlesIff(s: State, t: Id, release: bool)
    requires Sound(s, t)
    ensures var s' := Next(s, AdminResolve(t, release));
      if t in s.store.holds && s.store.holds[t].status in {Held, Disputed} then
        var h := s.store.holds[t];
        && FarePaid(s, s', t, if release then h.payee else h.payer, if release then Released else Refunded)
        && s'.settledByAdmin == s.settledByAdmin + {t}
        && s'.releasedBy == (if release then s.releasedBy[t := ByAdmin] else s.releasedBy)
      else s' == s
  {
    hide LedgerIntegrity.Inv, SettleEscrow, LedgerOutcomes.OnlyBalance;
    LedgerOutcomes.HoldIsSettledIff(s.store, t, release);
    assert Next(s, AdminResolve(t, release)) == AfterAdminResolve(s, t, release);
    hide Next;
  }

  /** The pending offers of t are withdrawn; every other offer stays. */
  ghost predicate OffersWithdrawn(s: State, s': State, t: Id) {
    && s'.offers.Keys == s.offers.Keys
    && forall o :: o in s.offers ==>
      s'.offers[o] == if s.offers[o].trip == t && s.offers[o].status == OfferPending
        then s.offers[o].(status := OfferWithdrawn) else s.offers[o]
  }

  /** An open request that is given up ends as expired, without pending offers; any other trip cannot expire. */
  lemma ExpiryEndsIff(s: State, call: Id, t: Id, releaseAt: int)
    requires call !in s.followups
    ensures var s' := Alone(s, ExpireTrip(call, t), call, releaseAt);
      if t in s.trips && s.trips[t].status == Requested then
        && s' == s.(trips := s.trips[t := s.trips[t].(status := TripExpired)], offers := s'.offers)
        && OffersWithdrawn(s, s', t)
      else s' == s
  {
    if TripIs(s, t, Requested) {
      hide ClosePending, Next;
      var expired := s.(trips := s.trips[t := s.trips[t].(status := TripExpired)]);
      ExpiryStep(s, call, t);
      WithdrawStep(expired, call, t, releaseAt);
      ClosingWithdraws(s.offers, t);
    }
  }

  lemma ExpiryStep(s: State, call: Id, t: Id)
    requires call !in s.followups && TripIs(s, t, Requested)
    ensures Next(s, ExpireTrip(call, t)) ==
      Later(s.(trips := s.trips[t := s.trips[t].(status := TripExpired)]), call, WithdrawOffers(t))
  {
  }

  lemma WithdrawStep(s: State, call: Id, t: Id, releaseAt: int)
    requires call !in s.followups
    ensures Next(Later(s, call, WithdrawOffers(t)), FollowUp(call, releaseAt)) ==
      s.(offers := ClosePending(s.offers, t, None, OfferWithdrawn))
  {
    hide ClosePending;
    assert s.followups[call := WithdrawOffers(t)] - {call} == s.followups;
  }

  lemma ClosingWithdraws(offers: map<Id, Offer>, t: Id)
    ensures var closed := ClosePending(offers, t, None, OfferWithdrawn);
      && closed.Keys == offers.Keys
      && forall o :: o in offers ==>
        closed[o] == if offers[o].trip == t && offers[o].status == OfferPending
          then offers[o].(status := OfferWithdrawn) else offers[o]
  {
  }

  /** A request is opened if and only if its passenger has no other under way and can pay the price offered. */
  lemma RequestIsOpenedIff(s: State, t: Id, passenger: Id, price: int)
    requires t !in s.trips
    ensures var s' := Next(s, CreateTrip(t, passenger, price));
      && (if (forall u :: u in s.trips && s.trips[u].passenger == passenger ==>
                s.trips[u].status in {Completed, Cancelled, TripExpired})
             && Quotes.BalanceOf(s.store, passenger) >= price
          then s'.trips == s.trips[t := Trip(passenger, Requested, None, None)] else s'.trips == s.trips)
      && s' == s.(trips := s'.trips, store := s'.store) && s'.store == s.store.(wallets := s'.store.wallets)
      && LedgerOutcomes.OnlyBalance(s.store, s'.store, passenger, 0)
  {
    hide Next, HasActiveTrip, LedgerOutcomes.OnlyBalance, EnsureWallet, Quotes.BalanceOf;
    CreationStep(s, t, passenger, price);
    LedgerOutcomes.EnsuredWallet(s.store, passenger);
    NoneActive(s.trips, passenger);
    SameBalances(s.store, passenger);
    if HasActiveTrip(s.trips, passenger) {
    } else if Quotes.BalanceOf(s.store, passenger) < price {
    }
  }

  lemma CreationStep(s: State, t: Id, passenger: Id, price: int)
    ensures Next(s, CreateTrip(t, passenger, price)) == AfterCreateTrip(s, t, passenger, price)
  {
    hide AfterCreateTrip;
  }

  lemma SameBalances(s: Store, user: Id)
    ensures LedgerOutcomes.OnlyBalance(s, s, user, 0)
  {
  }

  lemma NoneActive(trips: map<Id, Trip>, passenger: Id)
    ensures HasActiveTrip(trips, passenger) <==>
      !forall u :: u in trips && trips[u].passenger == passenger ==>
        trips[u].status in {Completed, Cancelled, TripExpired}
  {
    if u :| u in trips && trips[u].passenger == passenger
            && trips[u].status !in {Completed, Cancelled, TripExpired} {
      assert Active(trips[u]);
    }
    if HasActiveTrip(trips, passenger) {
      var u :| u in trips && trips[u].passenger == passenger && Active(trips[u]);
      assert trips[u].status !in {Completed, Cancelled, TripExpired};
    }
  }

  /** The driver has a pending offer for the trip. */
  predicate IsPending(offer: Offer, t: Id, driver: Id) {
    offer.trip == t && offer.driver == driver && offer.status == OfferPending
  }

  /**
   * A driver's price for an open request replaces that of the one pending offer, if there is one, or is a new pending
   * offer; for any other trip, or below one kobo, nothing happens.
   */
  lemma OfferIsMadeIff(s: State, o: Id, t: Id, driver: Id, driverUser: Id, price: int)
    requires o !in s.offers
    ensures var s' := Next(s, MakeOffer(o, t, driver, driverUser, price));
      if t in s.trips && s.trips[t].status == Requested && price >= 1 then
        if exists p :: p in s.offers && IsPending(s.offers[p], t, driver) then
          exists p :: p in s.offers && IsPending(s.offers[p], t, driver)
                      && s' == s.(offers := s.offers[p := s.offers[p].(price := price)])
        else s' == s.(offers := s.offers[o := Offer(t, driver, driverUser, price, OfferPending)])
      else s' == s
  {
    var existing := PendingOffers(s.offers, t, driver);
    assert forall p :: p in s.offers && IsPending(s.offers[p], t, driver) ==> p in existing;
    assert Next(s, MakeOffer(o, t, driver, driverUser, price))
        == AfterMakeOffer(s, o, t, driver, driverUser, price);
    hide Next;
    if TripIs(s, t, Requested) && price >= 1 && existing != {} {
      Repriced(s, o, t, driver, driverUser, price);
    }
  }

  lemma Repriced(s: State, o: Id, t: Id, driver: Id, driverUser: Id, price: int)
    requires TripIs(s, t, Requested) && price >= 1 && PendingOffers(s.offers, t, driver) != {}
    ensures exists p :: (p in s.offers && IsPending(s.offers[p], t, driver)
      && AfterMakeOffer(s, o, t, driver, driverUser, price)
         == s.(offers := s.offers[p := s.offers[p].(price := price)]))
  {
    var existing := PendingOffers(s.offers, t, driver);
    var p :| p in existing && AfterMakeOffer(s, o, t, driver, driverUser, price)
                              == s.(offers := s.offers[p := s.offers[p].(price := price)]);
    assert IsPending(s.offers[p], t, driver);
  }
}
