/** What every interleaving of the calls of module Matching keeps. */
module MatchingSafety {
  import opened Wrappers
  import opened Ledger
  import LedgerIntegrity
  import LedgerLaws
  import opened Matching

  // ---- what the ledger's escrow transactions do to the holds ----

  lemma HoldEscrowEffect(s: Store, trip: Id, payer: Id, payee: Id, driver: Id, amount: int)
    ensures var (s', outcome) := HoldEscrow(s, trip, payer, payee, driver, amount);
      && (outcome.Applied? <==> s'.holds != s.holds)
      && (outcome.Applied? ==> (trip in s.holds ==> s.holds[trip].status.Refunded?)
                               && s'.holds == s.holds[trip := Reopened(s, trip, payer, payee, driver, amount)])
      && (!outcome.Applied? && !outcome.Refused? ==>
            && trip in s.holds && !s.holds[trip].status.Refunded?
            && s.holds[trip].driver == driver && s.holds[trip].amount == amount && s.holds[trip].payer == payer)
  {
    hide ApplyPostings, PostingSum;
    if trip in s.holds {
      assert s.holds[trip].version != s.holds[trip].version + 1;
    }
  }

  /** Settling a live hold cannot fail: its key is fresh, the postings balance and the payee's balance only grows. */
  lemma SettlementSucceeds(s: Store, trip: Id, release: bool)
    requires LedgerIntegrity.Inv(s)
    requires trip in s.holds && Live(s.holds[trip]) && s.holds[trip].amount >= 0
    ensures SettleEscrow(s, trip, release).1.Applied?
  {
    hide ApplyPostings, PostingSum, Post, LedgerIntegrity.Pools, LedgerIntegrity.KeysAgree, LedgerIntegrity.RowsValid;
    assert LedgerIntegrity.KeysAgree(s.keys, s.topups, s.holds, s.withdrawals);
    assert LedgerIntegrity.Books(s.wallets, s.entries, s.keys);
    var h := s.holds[trip];
    var user := if release then h.payee else h.payer;
    var key := if release then ReleaseKey(trip, h.version) else RefundKey(trip, h.version);
    LedgerIntegrity.SettleKeyUsed(s.keys, s.topups, s.holds, s.withdrawals, trip, release, key,
                                  h.(status := if release then Released else Refunded));
    LedgerLaws.TransferPosts(EnsureWallet(s, user), key, h.amount, user, Escrow);
  }

  lemma SettleEscrowEffect(s: Store, trip: Id, release: bool)
    ensures var (s', outcome) := SettleEscrow(s, trip, release);
      if outcome.Applied?
      then trip in s.holds && Live(s.holds[trip])
           && s'.holds == s.holds[trip := s.holds[trip].(status := if release then Released else Refunded)]
      else s'.holds == s.holds
  {
    hide ApplyPostings, PostingSum;
  }

  lemma OtherOpsLeaveHolds(s: Store, op: Op)
    requires !TouchesHolds(op)
    ensures Perform(s, op).0.holds == s.holds
  {
    hide ApplyPostings, PostingSum;
  }

  // ---- the invariant, one trip and one offer at a time ----

  /** An unfinished AcceptOffer that took the fare, has not returned it and has not won the trip. */
  predicate Taking(a: Accept) {
    a.Accepting? && a.took && (a.stage.FareHeld? || a.stage.OfferClaimed? || a.stage.UndoUnclaimed?
                               || a.stage.UndoClaimed?)
  }

  /** An unfinished AcceptOffer that claimed its offer, has not put it back and has not won the trip. */
  predicate Owning(a: Accept) {
    a.Accepting? && (a.stage.OfferClaimed? || a.stage.UndoClaimed? || a.stage.RollingBack?)
  }

  function FaresOf(accepts: map<Id, Accept>, trip: Id): map<Id, Offer> {
    map c | c in accepts && Taking(accepts[c]) && accepts[c].trip == trip :: accepts[c].row
  }

  function OwnersOf(accepts: map<Id, Accept>, offer: Id): set<Id> {
    set c | c in accepts && Owning(accepts[c]) && accepts[c].offer == offer
  }

  function TodoOf(followups: map<Id, Followup>, trip: Id): map<Id, Followup> {
    map c | c in followups && followups[c].trip == trip :: followups[c]
  }

  function Lookup<T>(m: map<Id, T>, k: Id): Option<T> {
    if k in m then Some(m[k]) else None
  }

  /** Everything the system knows about one trip. */
  datatype TripView = TripView(trip: Trip, hold: Option<Hold>, fares: map<Id, Offer>, todo: map<Id, Followup>,
                               win: Option<Win>, settledByAdmin: bool, releasedBy: Option<Releaser>)

  function ViewOf(s: State, t: Id): TripView
    requires t in s.trips
  {
    TripView(s.trips[t], Lookup(s.store.holds, t), FaresOf(s.accepts, t), TodoOf(s.followups, t),
             Lookup(s.wins, t), t in s.settledByAdmin, Lookup(s.releasedBy, t))
  }

  predicate OnTheWay(t: Trip) {
    t.status.Matched? || t.status.PickedUp?
  }

  predicate FareInEscrow(v: TripView) {
    v.hold.Some? && Live(v.hold.value)
  }

  /** The fare of this offer is in escrow, from the trip's passenger to the offer's driver. */
  predicate Backs(v: TripView, row: Offer) {
    && FareInEscrow(v) && v.hold.value.payer == v.trip.passenger && v.hold.value.payee == row.driverUser
    && v.hold.value.driver == row.driver && v.hold.value.amount == row.price
  }

  predicate WinOk(v: TripView) {
    && (v.win.Some? <==> v.trip.driver.Some?)
    && (v.trip.status.Requested? || v.trip.status.TripExpired? ==> v.win.None?)
    && (OnTheWay(v.trip) || v.trip.status.Completed? ==> v.win.Some?)
    && (v.win.Some? ==>
          v.trip.driver == Some(v.win.value.row.driver) && v.trip.agreedPrice == Some(v.win.value.row.price))
  }

  /** No call that took the fare has won the trip. */
  predicate FareUnspent(v: TripView) {
    v.win.None? || (!v.win.value.took && OnTheWay(v.trip))
  }

  predicate RefundDue(v: TripView) {
    exists c :: c in v.todo && v.todo[c].RefundFare?
  }

  predicate FareOk(v: TripView) {
    && (v.hold.Some? ==> v.hold.value.amount >= 1)
    && (!v.settledByAdmin && FareUnspent(v) ==>
          && (forall c :: c in v.fares ==> Backs(v, v.fares[c]))
          && (forall c, d :: c in v.fares && d in v.fares ==> c == d)
          && (FareInEscrow(v) ==> v.fares != map[]))
    && (!v.settledByAdmin && OnTheWay(v.trip) && v.win.Some? && v.win.value.took ==>
          Backs(v, v.win.value.row) && v.fares == map[])
    && (!v.settledByAdmin && v.trip.status.Cancelled? && FareInEscrow(v) ==> v.fares != map[] || RefundDue(v))
  }

  predicate ReleaseOk(v: TripView) {
    && (v.hold.Some? && v.hold.value.releaseAfter.Some? ==> v.trip.status.Completed?)
    && (v.hold.Some? && v.hold.value.status.Released? ==> v.releasedBy.Some?)
    && (v.releasedBy.Some? ==> if v.releasedBy.value.ByAdmin? then v.settledByAdmin else v.trip.status.Completed?)
    && (forall c :: c in v.todo ==> TodoOk(v, v.todo[c]))
  }

  predicate TodoOk(v: TripView, f: Followup) {
    match f
    case RefundFare(_) => v.trip.status.Cancelled? && v.win.Some?
    case WithdrawOffers(_) => true
    case OpenWindow(_) => v.trip.status.Completed?
    case PayDriver(_, releaser) => v.trip.status.Completed? && !releaser.ByAdmin?
  }

  predicate TripOk(v: TripView) {
    WinOk(v) && FareOk(v) && ReleaseOk(v)
  }

  /** Records about trips are records about trips that exist. */
  ghost predicate NoOrphans(s: State) {
    && (forall t :: t in s.store.holds ==> t in s.trips)
    && (forall t :: t in s.wins ==> t in s.trips)
    && (forall t :: t in s.releasedBy ==> t in s.trips)
    && (forall t :: t in s.settledByAdmin ==> t in s.trips)
    && (forall c :: c in s.followups ==> s.followups[c].trip in s.trips)
  }

  ghost predicate TripsOk(s: State) {
    NoOrphans(s) && forall t :: t in s.trips ==> TripOk(ViewOf(s, t))
  }

  predicate Won(wins: map<Id, Win>, o: Id, offer: Offer) {
    offer.trip in wins && wins[offer.trip].offer == o
  }

  /** Exactly the accepted offers have a holder: the trip they won, or one unfinished AcceptOffer. */
  ghost predicate OfferOk(offer: Offer, won: bool, owners: set<Id>) {
    if !offer.status.OfferAccepted? then !won && owners == {}
    else if won then owners == {}
    else exists c :: owners == {c}
  }

  ghost predicate OffersOk(offers: map<Id, Offer>, accepts: map<Id, Accept>, wins: map<Id, Win>) {
    && (forall o :: o in offers ==> OfferOk(offers[o], Won(wins, o, offers[o]), OwnersOf(accepts, o)))
    && (forall t :: t in wins ==> wins[t].offer in offers && offers[wins[t].offer].trip == t
                                  && offers[wins[t].offer].driver == wins[t].row.driver)
  }

  /**
   * What a call has read still describes its trip and its offer; only the offer's price and status may have changed
   * since.
   */
  predicate Fits(a: Accept, trips: map<Id, Trip>, offers: map<Id, Offer>) {
    && a.trip in trips && a.passenger == trips[a.trip].passenger
    && (a.Accepting? ==>
          && a.offer in offers && offers[a.offer].trip == a.row.trip == a.trip
          && offers[a.offer].driver == a.row.driver && offers[a.offer].driverUser == a.row.driverUser
          && a.row.price >= 1)
  }

  ghost predicate CallsFit(trips: map<Id, Trip>, offers: map<Id, Offer>, accepts: map<Id, Accept>) {
    && (forall c :: c in accepts ==> Fits(accepts[c], trips, offers))
    && (forall o :: o in offers ==> offers[o].price >= 1 && offers[o].trip in trips)
  }

  ghost predicate OnePerPassenger(trips: map<Id, Trip>) {
    forall t, u ::
      t in trips && u in trips && Active(trips[t]) && Active(trips[u]) && trips[t].passenger == trips[u].passenger ==>
      t == u
  }

  ghost predicate Safe(s: State) {
    && LedgerIntegrity.Inv(s.store) && CallsFit(s.trips, s.offers, s.accepts)
    && OffersOk(s.offers, s.accepts, s.wins) && TripsOk(s) && OnePerPassenger(s.trips)
  }

  // ---- one call moves on or ends ----

  function Put(accepts: map<Id, Accept>, call: Id, a: Option<Accept>): map<Id, Accept> {
    if a.Some? then accepts[call := a.value] else accepts - {call}
  }

  /** The offer for which a call holds the fare of trip t. */
  function FareAt(a: Option<Accept>, t: Id): Option<Offer> {
    if a.Some? && Taking(a.value) && a.value.trip == t then Some(a.value.row) else None
  }

  /** Which offer a call owns. */
  function OwnAt(a: Option<Accept>): Option<Id> {
    if a.Some? && Owning(a.value) then Some(a.value.offer) else None
  }

  lemma FaresAfterPut(accepts: map<Id, Accept>, call: Id, a: Option<Accept>, t: Id)
    ensures FaresOf(Put(accepts, call, a), t) ==
            if FareAt(a, t).Some? then FaresOf(accepts, t)[call := FareAt(a, t).value] else FaresOf(accepts, t) - {call}
  {
  }

  lemma FaresUntouched(accepts: map<Id, Accept>, call: Id, a: Option<Accept>, t: Id)
    requires FareAt(a, t) == FareAt(Lookup(accepts, call), t)
    ensures FaresOf(Put(accepts, call, a), t) == FaresOf(accepts, t)
  {
  }

  lemma OwnersAfterPut(accepts: map<Id, Accept>, call: Id, a: Option<Accept>, o: Id)
    ensures OwnersOf(Put(accepts, call, a), o) == OwnersOf(accepts, o) - {call} + if OwnAt(a) == Some(o) then {call}
      else {}
  {
  }

  lemma OwnersUntouched(accepts: map<Id, Accept>, call: Id, a: Option<Accept>, o: Id)
    requires OwnAt(a) == Some(o) <==> OwnAt(Lookup(accepts, call)) == Some(o)
    ensures OwnersOf(Put(accepts, call, a), o) == OwnersOf(accepts, o)
  {
  }

  // ---- the kinds of change every event is made of ----

  /** A call moves on without taking or returning a fare and without claiming or freeing an offer. */
  lemma AcceptKeepsSafe(s: State, call: Id, a: Option<Accept>)
    requires Safe(s)
    requires a.Some? ==> Fits(a.value, s.trips, s.offers)
    requires forall t :: FareAt(a, t) == FareAt(Lookup(s.accepts, call), t)
    requires OwnAt(a) == OwnAt(Lookup(s.accepts, call))
    ensures Safe(s.(accepts := Put(s.accepts, call, a)))
  {
    hide LedgerIntegrity.Inv, TripOk, OfferOk, OnePerPassenger, FaresOf, OwnersOf, TodoOf, FareAt, OwnAt, Fits;
    var s' := s.(accepts := Put(s.accepts, call, a));
    forall t | t in s.trips ensures TripOk(ViewOf(s', t)) {
      FaresUntouched(s.accepts, call, a, t);
      assert ViewOf(s', t) == ViewOf(s, t);
    }
    forall o | o in s.offers ensures OfferOk(s.offers[o], Won(s.wins, o, s.offers[o]), OwnersOf(s'.accepts, o)) {
      OwnersUntouched(s.accepts, call, a, o);
    }
  }

  /** Offers are made, re-priced or closed, but none is claimed or freed. */
  predicate SameAccepted(offers: map<Id, Offer>, offers': map<Id, Offer>) {
    && (forall o :: o in offers ==>
          && o in offers' && offers'[o].trip == offers[o].trip && offers'[o].driver == offers[o].driver
          && offers'[o].driverUser == offers[o].driverUser && offers'[o].price >= 1
          && (offers'[o].status.OfferAccepted? <==> offers[o].status.OfferAccepted?))
    && (forall o :: o in offers' && o !in offers ==> offers'[o].status.OfferPending? && offers'[o].price >= 1)
  }

  lemma OffersStayOk(offers: map<Id, Offer>, offers': map<Id, Offer>, accepts: map<Id, Accept>, wins: map<Id, Win>)
    requires OffersOk(offers, accepts, wins) && SameAccepted(offers, offers')
    requires forall c :: c in accepts && accepts[c].Accepting? ==> accepts[c].offer in offers
    ensures OffersOk(offers', accepts, wins)
  {
    hide OwnersOf;
    forall o | o in offers' ensures OfferOk(offers'[o], Won(wins, o, offers'[o]), OwnersOf(accepts, o)) {
      if o !in offers {
        NoOwners(accepts, o);
      }
    }
  }

  lemma NoOwners(accepts: map<Id, Accept>, o: Id)
    requires forall c :: c in accepts && accepts[c].Accepting? ==> accepts[c].offer != o
    ensures OwnersOf(accepts, o) == {}
  {
  }

  lemma OffersKeepSafe(s: State, offers': map<Id, Offer>)
    requires Safe(s) && SameAccepted(s.offers, offers')
    requires forall o :: o in offers' && o !in s.offers ==> offers'[o].trip in s.trips
    ensures Safe(s.(offers := offers'))
  {
    hide LedgerIntegrity.Inv, TripOk, OfferOk, OnePerPassenger, FaresOf, OwnersOf, TodoOf, OffersOk;
    var s' := s.(offers := offers');
    assert forall t :: t in s.trips ==> ViewOf(s', t) == ViewOf(s, t);
    OffersStayOk(s.offers, offers', s.accepts, s.wins);
  }

  lemma ClosingKeepsSafe(s: State, trip: Id, except: Option<Id>, new_: OfferStatus)
    requires Safe(s) && !new_.OfferPending? && !new_.OfferAccepted?
    ensures Safe(s.(offers := ClosePending(s.offers, trip, except, new_)))
  {
    hide LedgerIntegrity.Inv, TripsOk, OffersOk, OnePerPassenger;
    OffersKeepSafe(s, ClosePending(s.offers, trip, except, new_));
  }

  ghost predicate OtherTripsUntouched(s: State, s': State, t: Id) {
    && t in s.trips && s'.trips.Keys == s.trips.Keys
    && (forall u :: u in s.trips && u != t ==> s'.trips[u] == s.trips[u])
    && (forall u :: u in s.trips && u != t ==> ViewOf(s', u) == ViewOf(s, u))
  }

  ghost predicate StillFit(s: State, s': State) {
    s'.offers == s.offers && forall c :: c in s'.accepts ==> Fits(s'.accepts[c], s.trips, s.offers)
  }

  /** Only one trip, its hold and what is recorded about it change. */
  lemma TripKeepsSafe(s: State, s': State, t: Id)
    requires Safe(s) && LedgerIntegrity.Inv(s'.store) && NoOrphans(s')
    requires OtherTripsUntouched(s, s', t) && StillFit(s, s') && OffersOk(s'.offers, s'.accepts, s'.wins)
    requires s'.trips[t].passenger == s.trips[t].passenger && (Active(s'.trips[t]) ==> Active(s.trips[t]))
    requires TripOk(ViewOf(s', t))
    ensures Safe(s')
  {
    hide LedgerIntegrity.Inv, TripOk, OfferOk, OwnersOf, ViewOf, CallsFit, OffersOk;
    TripsStillFit(s, s', t);
  }

  lemma TripsStillFit(s: State, s': State, t: Id)
    requires CallsFit(s.trips, s.offers, s.accepts) && StillFit(s, s') && OtherTripsUntouched(s, s', t)
    requires s'.trips[t].passenger == s.trips[t].passenger
    ensures CallsFit(s'.trips, s'.offers, s'.accepts)
  {
    hide ViewOf;
  }

  lemma OwnersStillOk(offers: map<Id, Offer>, accepts: map<Id, Accept>, wins: map<Id, Win>, call: Id, a: Option<Accept>)
    requires OffersOk(offers, accepts, wins)
    requires OwnAt(a) == OwnAt(Lookup(accepts, call))
    ensures OffersOk(offers, Put(accepts, call, a), wins)
  {
    hide OwnersOf, OwnAt, Put;
    forall o | o in offers ensures OwnersOf(Put(accepts, call, a), o) == OwnersOf(accepts, o) {
      OwnersUntouched(accepts, call, a, o);
    }
  }

  /** What a call does to its own trip t, and to t's hold, leaves the other trips alone. */
  lemma OthersUntouched(s: State, s': State, call: Id, a: Option<Accept>, t: Id)
    requires t in s.trips && t in s'.trips && s'.trips == s.trips[t := s'.trips[t]]
    requires s'.accepts == Put(s.accepts, call, a)
    requires (a.Some? ==> a.value.trip == t) && (call in s.accepts ==> s.accepts[call].trip == t)
    requires forall u :: u != t ==>
      Lookup(s'.store.holds, u) == Lookup(s.store.holds, u) && Lookup(s'.wins, u) == Lookup(s.wins, u)
    requires s'.followups == s.followups && s'.settledByAdmin == s.settledByAdmin && s'.releasedBy == s.releasedBy
    ensures OtherTripsUntouched(s, s', t)
  {
    hide FaresOf, TodoOf, Put;
    forall u | u in s.trips && u != t ensures ViewOf(s', u) == ViewOf(s, u) {
      FaresUntouched(s.accepts, call, a, u);
    }
  }

  lemma StoreKeepsSafe(s: State, store: Store)
    requires Safe(s) && LedgerIntegrity.Inv(store) && store.holds == s.store.holds
    ensures Safe(s.(store := store))
  {
    hide LedgerIntegrity.Inv, TripOk, OfferOk, OwnersOf, FaresOf, TodoOf, CallsFit, OffersOk, OnePerPassenger;
    assert forall t :: t in s.trips ==> ViewOf(s.(store := store), t) == ViewOf(s, t);
  }

  // ---- AcceptOffer ----

  lemma ReadTripKeepsSafe(s: State, call: Id, trip: Id)
    requires Safe(s)
    ensures Safe(Next(s, ReadTrip(call, trip)))
  {
    hide LedgerIntegrity.Inv, TripsOk, OffersOk, OnePerPassenger;
    if call !in s.accepts && TripIs(s, trip, Requested) {
      AcceptKeepsSafe(s, call, Some(TripRead(trip, s.trips[trip].passenger)));
    }
  }

  lemma ReadOfferKeepsSafe(s: State, call: Id, o: Id)
    requires Safe(s)
    ensures Safe(Next(s, ReadOffer(call, o)))
  {
    hide LedgerIntegrity.Inv, TripsOk, OffersOk, OnePerPassenger;
    if call in s.accepts && s.accepts[call].TripRead? && o in s.offers && s.offers[o].trip == s.accepts[call].trip {
      AcceptKeepsSafe(s, call, Some(Accepting(s.accepts[call].trip, s.accepts[call].passenger, o, s.offers[o],
                                              OfferRead, false)));
    }
  }

  lemma CheckDriverKeepsSafe(s: State, call: Id)
    requires Safe(s)
    ensures Safe(Next(s, CheckDriver(call)))
  {
    hide LedgerIntegrity.Inv, TripsOk, OffersOk, OnePerPassenger, IsDriving;
    if InStage(s, call, OfferRead) {
      AcceptKeepsSafe(s, call, None);
      AcceptKeepsSafe(s, call, Some(s.accepts[call].(stage := DriverFree)));
    }
  }

  lemma GiveUpKeepsSafe(s: State, call: Id)
    requires Safe(s)
    ensures Safe(Next(s, GiveUp(call)))
  {
    hide LedgerIntegrity.Inv, TripsOk, OffersOk, OnePerPassenger;
    if InStage(s, call, FareHeld) {
      AcceptKeepsSafe(s, call, Some(s.accepts[call].(stage := UndoUnclaimed)));
    } else if InStage(s, call, OfferClaimed) {
      AcceptKeepsSafe(s, call, Some(s.accepts[call].(stage := UndoClaimed)));
    }
  }

  /** The call's hold is put in place: nobody else had taken this trip's fare. */
  lemma FareTaken(v: TripView, h: Hold, call: Id, row: Offer)
    requires TripOk(v) && (v.hold.Some? ==> v.hold.value.status.Refunded?)
    requires row.price >= 1
    requires h.status.Held? && h.releaseAfter.None?
    requires h.payer == v.trip.passenger && h.payee == row.driverUser && h.driver == row.driver && h.amount == row.price
    ensures TripOk(v.(hold := Some(h), fares := v.fares[call := row]))
  {
    var v' := v.(hold := Some(h), fares := v.fares[call := row]);
    assert call in v'.fares;
    if !v.settledByAdmin && FareUnspent(v) {
      assert forall c :: c !in v.fares;
      assert v.fares == map[];
    }
  }

  lemma FareTakenKeepsTripOk(s: State, s': State, call: Id, a: Accept, h: Hold)
    requires a.trip in s.trips && TripOk(ViewOf(s, a.trip))
    requires (a.trip in s.store.holds ==> s.store.holds[a.trip].status.Refunded?)
    requires Fits(a, s.trips, s.offers) && Taking(a)
    requires h == Hold(a.passenger, a.row.driverUser, a.row.driver, a.row.price, Held, h.version, None)
    requires s' == s.(store := s'.store, accepts := Put(s.accepts, call, Some(a)))
    requires s'.store.holds == s.store.holds[a.trip := h]
    ensures TripOk(ViewOf(s', a.trip))
  {
    hide TripOk, FaresOf, TodoOf, Put;
    var v := ViewOf(s, a.trip);
    FaresAfterPut(s.accepts, call, Some(a), a.trip);
    assert ViewOf(s', a.trip) == v.(hold := Some(h), fares := v.fares[call := a.row]);
    FareTaken(v, h, call, a.row);
  }

  lemma FareTakenKeepsSafe(s: State, call: Id, store: Store)
    requires Safe(s) && InStage(s, call, DriverFree) && LedgerIntegrity.Inv(store)
    requires var a := s.accepts[call];
      && (a.trip in s.store.holds ==> s.store.holds[a.trip].status.Refunded?)
      && store.holds == s.store.holds[a.trip := Reopened(s.store, a.trip, a.passenger, a.row.driverUser, a.row.driver,
                                                         a.row.price)]
    ensures Safe(s.(store := store, accepts := s.accepts[call := s.accepts[call].(stage := FareHeld, took := true)]))
  {
    hide LedgerIntegrity.Inv, TripOk, OffersOk, OnePerPassenger, OtherTripsUntouched, ViewOf;
    var a := s.accepts[call].(stage := FareHeld, took := true);
    var s' := s.(store := store, accepts := s.accepts[call := a]);
    OwnersStillOk(s.offers, s.accepts, s.wins, call, Some(a));
    OthersUntouched(s, s', call, Some(a), a.trip);
    FareTakenKeepsTripOk(s, s', call, a, store.holds[a.trip]);
    TripKeepsSafe(s, s', a.trip);
  }

  lemma TakeFareKeepsSafe(s: State, call: Id)
    requires Safe(s)
    ensures Safe(Next(s, TakeFare(call)))
  {
    hide LedgerIntegrity.Inv, TripsOk, OffersOk, OnePerPassenger, HoldEscrow;
    if InStage(s, call, DriverFree) {
      var a := s.accepts[call];
      var (store, outcome) := HoldEscrow(s.store, a.trip, a.passenger, a.row.driverUser, a.row.driver, a.row.price);
      HoldEscrowEffect(s.store, a.trip, a.passenger, a.row.driverUser, a.row.driver, a.row.price);
      LedgerIntegrity.HoldEscrowKeepsInv(s.store, a.trip, a.passenger, a.row.driverUser, a.row.driver, a.row.price);
      if outcome.Refused? {
        AcceptKeepsSafe(s, call, None);
      } else if outcome.Applied? {
        FareTakenKeepsSafe(s, call, store);
      } else {
        AcceptKeepsSafe(s, call, Some(a.(stage := FareHeld, took := false)));
        StoreKeepsSafe(s.(accepts := s.accepts[call := a.(stage := FareHeld, took := false)]), store);
      }
    }
  }

  /** A call that neither takes nor returns a fare leaves every trip's situation alone. */
  lemma ViewsUntouched(s: State, s': State, call: Id, a: Option<Accept>)
    requires s' == s.(accepts := Put(s.accepts, call, a), offers := s'.offers)
    requires forall t :: FareAt(a, t) == FareAt(Lookup(s.accepts, call), t)
    ensures forall t :: t in s.trips ==> ViewOf(s', t) == ViewOf(s, t)
  {
    hide FaresOf, TodoOf, Put, FareAt;
    forall t | t in s.trips ensures ViewOf(s', t) == ViewOf(s, t) {
      FaresUntouched(s.accepts, call, a, t);
    }
  }

  /** No trip's situation changes. */
  lemma SameViewsKeepSafe(s: State, s': State)
    requires Safe(s) && s' == s.(accepts := s'.accepts, offers := s'.offers)
    requires forall t :: t in s.trips ==> ViewOf(s', t) == ViewOf(s, t)
    requires CallsFit(s'.trips, s'.offers, s'.accepts) && OffersOk(s'.offers, s'.accepts, s'.wins)
    ensures Safe(s')
  {
    hide LedgerIntegrity.Inv, TripOk, OffersOk, CallsFit, OnePerPassenger, ViewOf;
  }

  /** Claiming a pending offer makes the call its one owner. */
  lemma ClaimKeepsOffersOk(offers: map<Id, Offer>, accepts: map<Id, Accept>, wins: map<Id, Win>, call: Id)
    requires OffersOk(offers, accepts, wins)
    requires call in accepts && accepts[call].Accepting? && accepts[call].stage.FareHeld?
    requires accepts[call].offer in offers && offers[accepts[call].offer].status.OfferPending?
    ensures OffersOk(SwapOffer(offers, accepts[call].offer, OfferPending, OfferAccepted),
                     Put(accepts, call, Some(accepts[call].(stage := OfferClaimed))), wins)
  {
    hide OwnersOf, Put;
    var o := accepts[call].offer;
    var a := accepts[call].(stage := OfferClaimed);
    var offers' := SwapOffer(offers, o, OfferPending, OfferAccepted);
    forall p | p in offers' ensures OfferOk(offers'[p], Won(wins, p, offers'[p]),
                                            OwnersOf(Put(accepts, call, Some(a)), p)) {
      if p == o {
        OwnersAfterPut(accepts, call, Some(a), o);
        assert OwnersOf(Put(accepts, call, Some(a)), o) == {call};
      } else {
        OwnersUntouched(accepts, call, Some(a), p);
      }
    }
  }

  lemma SwapKeepsCallsFit(trips: map<Id, Trip>, offers: map<Id, Offer>, accepts: map<Id, Accept>,
                          o: Id, expected: OfferStatus, new_: OfferStatus, call: Id, a: Option<Accept>)
    requires CallsFit(trips, offers, accepts)
    requires a.Some? ==> Fits(a.value, trips, offers)
    ensures CallsFit(trips, SwapOffer(offers, o, expected, new_), Put(accepts, call, a))
  {
  }

  lemma ClaimOfferKeepsSafe(s: State, call: Id)
    requires Safe(s)
    ensures Safe(Next(s, ClaimOffer(call)))
  {
    hide LedgerIntegrity.Inv, TripsOk, OffersOk, OnePerPassenger, ViewOf;
    if InStage(s, call, FareHeld) {
      var a := s.accepts[call];
      if s.offers[a.offer].status.OfferPending? {
        var s' := Next(s, ClaimOffer(call));
        SwapKeepsCallsFit(s.trips, s.offers, s.accepts, a.offer, OfferPending, OfferAccepted, call,
                          Some(a.(stage := OfferClaimed)));
        ClaimKeepsOffersOk(s.offers, s.accepts, s.wins, call);
        ViewsUntouched(s, s', call, Some(a.(stage := OfferClaimed)));
        SameViewsKeepSafe(s, s');
      } else {
        AcceptKeepsSafe(s, call, Some(a.(stage := UndoUnclaimed)));
      }
    }
  }

  /** Putting a claimed offer back leaves it without an owner. */
  lemma RollBackKeepsOffersOk(offers: map<Id, Offer>, accepts: map<Id, Accept>, wins: map<Id, Win>, call: Id)
    requires OffersOk(offers, accepts, wins)
    requires call in accepts && Owning(accepts[call]) && accepts[call].offer in offers
    ensures OffersOk(SwapOffer(offers, accepts[call].offer, OfferAccepted, OfferPending), Put(accepts, call, None),
                     wins)
  {
    hide Put;
    var o := accepts[call].offer;
    var offers' := SwapOffer(offers, o, OfferAccepted, OfferPending);
    forall p | p in offers' ensures OfferOk(offers'[p], Won(wins, p, offers'[p]),
                                            OwnersOf(Put(accepts, call, None), p)) {
      assert call in OwnersOf(accepts, o);
      OwnersAfterPut(accepts, call, None, p);
      assert OwnersOf(accepts, o) - {call} == {};
      if p != o {
        OwnersUntouched(accepts, call, None, p);
      }
    }
  }

  lemma RollBackOfferKeepsSafe(s: State, call: Id)
    requires Safe(s)
    ensures Safe(Next(s, RollBackOffer(call)))
  {
    hide LedgerIntegrity.Inv, TripsOk, OffersOk, OnePerPassenger, ViewOf;
    if InStage(s, call, RollingBack) {
      var s' := Next(s, RollBackOffer(call));
      SwapKeepsCallsFit(s.trips, s.offers, s.accepts, s.accepts[call].offer, OfferAccepted, OfferPending, call, None);
      RollBackKeepsOffersOk(s.offers, s.accepts, s.wins, call);
      ViewsUntouched(s, s', call, None);
      SameViewsKeepSafe(s, s');
    }
  }

  lemma SupersedeOthersKeepsSafe(s: State, call: Id)
    requires Safe(s)
    ensures Safe(Next(s, SupersedeOthers(call)))
  {
    hide LedgerIntegrity.Inv, TripsOk, OffersOk, OnePerPassenger;
    if InStage(s, call, TripWon) {
      var offers' := ClosePending(s.offers, s.accepts[call].trip, Some(s.accepts[call].offer), OfferSuperseded);
      ClosingKeepsSafe(s, s.accepts[call].trip, Some(s.accepts[call].offer), OfferSuperseded);
      AcceptKeepsSafe(s.(offers := offers'), call, None);
    }
  }

  // -- the trip is won --

  lemma TripWonOk(v: TripView, call: Id, win: Win)
    requires TripOk(v) && v.trip.status.Requested?
    requires win.took <==> call in v.fares
    requires win.took ==> v.fares[call] == win.row
    ensures TripOk(v.(trip := v.trip.(status := Matched, driver := Some(win.row.driver),
                                      agreedPrice := Some(win.row.price)),
                      win := Some(win), fares := v.fares - {call}))
  {
    hide Backs;
    var v' := v.(trip := v.trip.(status := Matched, driver := Some(win.row.driver), agreedPrice := Some(win.row.price)),
                 win := Some(win), fares := v.fares - {call});
    if !v.settledByAdmin && win.took {
      assert Backs(v, win.row);
      assert Backs(v', win.row) by { SameBacking(v, v', win.row); }
      assert v'.fares == map[];
    } else {
      assert v'.fares == v.fares || v.settledByAdmin;
      forall c | c in v'.fares && !v.settledByAdmin ensures Backs(v', v'.fares[c]) {
        SameBacking(v, v', v.fares[c]);
      }
    }
  }

  lemma SameBacking(v: TripView, v': TripView, row: Offer)
    requires v'.hold == v.hold && v'.trip.passenger == v.trip.passenger
    ensures Backs(v', row) <==> Backs(v, row)
  {
  }

  lemma WinKeepsOffersOk(offers: map<Id, Offer>, accepts: map<Id, Accept>, wins: map<Id, Win>, call: Id)
    requires OffersOk(offers, accepts, wins)
    requires call in accepts && Owning(accepts[call]) && accepts[call].trip !in wins
    requires var a := accepts[call];
      a.offer in offers && offers[a.offer].trip == a.trip && offers[a.offer].driver == a.row.driver
    ensures var a := accepts[call];
      OffersOk(offers, Put(accepts, call, Some(a.(stage := TripWon))), wins[a.trip := Win(a.offer, a.row, a.took)])
  {
    hide Put;
    var a := accepts[call];
    var a' := Some(a.(stage := TripWon));
    var wins' := wins[a.trip := Win(a.offer, a.row, a.took)];
    forall p | p in offers ensures OfferOk(offers[p], Won(wins', p, offers[p]), OwnersOf(Put(accepts, call, a'), p)) {
      assert call in OwnersOf(accepts, a.offer);
      OwnersAfterPut(accepts, call, a', p);
      assert OwnersOf(accepts, a.offer) - {call} == {};
      if p != a.offer {
        OwnersUntouched(accepts, call, a', p);
      }
    }
  }

  lemma TripWonKeepsTripOk(s: State, s': State, call: Id, a: Accept)
    requires InStage(s, call, OfferClaimed) && a == s.accepts[call].(stage := TripWon)
    requires a.trip in s.trips && s.trips[a.trip].status.Requested? && TripOk(ViewOf(s, a.trip))
    requires var trip := s.trips[a.trip].(status := Matched, driver := Some(a.row.driver),
                                          agreedPrice := Some(a.row.price));
      s' == s.(trips := s.trips[a.trip := trip], wins := s.wins[a.trip := Win(a.offer, a.row, a.took)],
               accepts := Put(s.accepts, call, Some(a)))
    ensures TripOk(ViewOf(s', a.trip))
  {
    hide TripOk, FaresOf, TodoOf, Put;
    var v := ViewOf(s, a.trip);
    FaresAfterPut(s.accepts, call, Some(a), a.trip);
    assert call in v.fares <==> a.took by { InFares(s.accepts, call, a.trip); }
    assert a.took ==> v.fares[call] == a.row by { InFares(s.accepts, call, a.trip); }
    TripWonOk(v, call, Win(a.offer, a.row, a.took));
  }

  lemma InFares(accepts: map<Id, Accept>, call: Id, t: Id)
    requires call in accepts
    ensures call in FaresOf(accepts, t) <==> Taking(accepts[call]) && accepts[call].trip == t
    ensures call in FaresOf(accepts, t) ==> FaresOf(accepts, t)[call] == accepts[call].row
  {
  }

  lemma MatchTripKeepsSafe(s: State, call: Id)
    requires Safe(s)
    ensures Safe(Next(s, MatchTrip(call)))
  {
    hide LedgerIntegrity.Inv, OffersOk, OnePerPassenger, ViewOf, TripOk, OtherTripsUntouched;
    if InStage(s, call, OfferClaimed) {
      var a := s.accepts[call];
      var a' := a.(stage := TripWon);
      var s' := Next(s, MatchTrip(call));
      if TripIs(s, a.trip, Requested) {
        assert a.trip !in s.wins by { NotWonYet(s, a.trip); }
        WinKeepsOffersOk(s.offers, s.accepts, s.wins, call);
        OthersUntouched(s, s', call, Some(a'), a.trip);
        TripWonKeepsTripOk(s, s', call, a');
        TripKeepsSafe(s, s', a.trip);
      } else {
        AcceptKeepsSafe(s, call, Some(a.(stage := UndoClaimed)));
      }
    }
  }

  lemma NotWonYet(s: State, t: Id)
    requires TripsOk(s) && TripIs(s, t, Requested)
    ensures t !in s.wins
  {
    assert WinOk(ViewOf(s, t));
  }

  // -- the fare goes back or on --

  function Settled(h: Option<Hold>, to: EscrowStatus): Option<Hold> {
    if h.Some? && Live(h.value) then Some(h.value.(status := to)) else h
  }

  /** A settlement always goes through when there is something to settle. */
  lemma Settles(s: Store, t: Id, release: bool)
    requires LedgerIntegrity.Inv(s)
    requires t in s.holds ==> s.holds[t].amount >= 1
    ensures var (s', outcome) := SettleEscrow(s, t, release);
      && LedgerIntegrity.Inv(s')
      && Lookup(s'.holds, t) == Settled(Lookup(s.holds, t), if release then Released else Refunded)
      && (forall u :: u != t ==> Lookup(s'.holds, u) == Lookup(s.holds, u))
      && (outcome.Applied? <==> t in s.holds && Live(s.holds[t]))
      && s'.holds.Keys == s.holds.Keys
  {
    hide LedgerIntegrity.Inv, SettleEscrow;
    SettleEscrowEffect(s, t, release);
    LedgerIntegrity.SettleEscrowKeepsInv(s, t, release);
    if t in s.holds && Live(s.holds[t]) {
      SettlementSucceeds(s, t, release);
    }
  }

  lemma FareReturned(v: TripView, call: Id)
    requires TripOk(v) && call in v.fares
    ensures TripOk(v.(hold := Settled(v.hold, Refunded), fares := v.fares - {call}))
  {
    hide Backs;
    var v' := v.(hold := Settled(v.hold, Refunded), fares := v.fares - {call});
    if !v.settledByAdmin && FareUnspent(v) {
      assert forall c :: c !in v'.fares;
    }
    assert !FareInEscrow(v');
  }

  lemma RefundDone(v: TripView, c: Id)
    requires TripOk(v) && c in v.todo && v.todo[c].RefundFare?
    ensures TripOk(v.(hold := Settled(v.hold, Refunded), todo := v.todo - {c}))
  {
    hide Backs;
    assert TodoOk(v, v.todo[c]);
  }

  lemma DriverPaid(v: TripView, c: Id)
    requires TripOk(v) && c in v.todo && v.todo[c].PayDriver?
    ensures TripOk(v.(hold := Settled(v.hold, Released), todo := v.todo - {c},
                      releasedBy := if FareInEscrow(v) then Some(v.todo[c].releaser) else v.releasedBy))
  {
    hide Backs;
    assert TodoOk(v, v.todo[c]);
  }

  lemma AdminSettled(v: TripView, release: bool)
    requires TripOk(v) && FareInEscrow(v)
    ensures TripOk(v.(hold := Settled(v.hold, if release then Released else Refunded), settledByAdmin := true,
                      releasedBy := if release then Some(ByAdmin) else v.releasedBy))
  {
    hide Backs;
  }

  lemma WindowOpened(v: TripView, c: Id, releaseAt: int)
    requires TripOk(v) && c in v.todo && v.todo[c].OpenWindow?
    ensures var h := if v.hold.Some? && v.hold.value.status.Held?
      then Some(v.hold.value.(releaseAfter := Some(releaseAt))) else v.hold;
      TripOk(v.(hold := h, todo := v.todo - {c}))
  {
    hide Backs;
    assert TodoOk(v, v.todo[c]);
  }

  lemma TodoDropped(v: TripView, c: Id)
    requires TripOk(v) && c in v.todo && !v.todo[c].RefundFare?
    ensures TripOk(v.(todo := v.todo - {c}))
  {
    var v' := v.(todo := v.todo - {c});
    if d :| d in v.todo && v.todo[d].RefundFare? {
      assert d in v'.todo;
    }
  }

  lemma FareDisputed(v: TripView)
    requires TripOk(v) && v.hold.Some? && v.hold.value.status.Held?
    requires (v.trip.status.PickedUp? || v.trip.status.Completed?)
    ensures TripOk(v.(hold := Some(v.hold.value.(status := Disputed, releaseAfter := None))))
  {
  }

  lemma TodoAdded(v: TripView, c: Id, f: Followup)
    requires TripOk(v) && c !in v.todo && f.PayDriver? && !f.releaser.ByAdmin? && v.trip.status.Completed?
    ensures TripOk(v.(todo := v.todo[c := f]))
  {
  }

  lemma TripMoved(v: TripView, to: TripStatus, c: Id, f: Followup)
    requires TripOk(v) && c !in v.todo
    requires || (v.trip.status.Matched? && to.Cancelled? && f.RefundFare?)
             || (v.trip.status.Requested? && (to.Cancelled? || to.TripExpired?) && f.WithdrawOffers?)
             || (v.trip.status.PickedUp? && to.Completed? && f.OpenWindow?)
    ensures TripOk(v.(trip := v.trip.(status := to), todo := v.todo[c := f]))
  {
    var v' := v.(trip := v.trip.(status := to), todo := v.todo[c := f]);
    assert c in v'.todo && v'.todo[c] == f;
  }

  lemma PickedUpOk(v: TripView)
    requires TripOk(v) && v.trip.status.Matched?
    ensures TripOk(v.(trip := v.trip.(status := PickedUp)))
  {
  }

  lemma TodoAfterAdd(followups: map<Id, Followup>, c: Id, f: Followup, t: Id)
    requires c !in followups
    ensures TodoOf(followups[c := f], t) == if f.trip == t then TodoOf(followups, t)[c := f] else TodoOf(followups, t)
  {
  }

  lemma TodoAfterDrop(followups: map<Id, Followup>, c: Id, t: Id)
    requires c in followups
    ensures TodoOf(followups - {c}, t) == if followups[c].trip == t then TodoOf(followups, t) - {c}
      else TodoOf(followups, t)
  {
  }

  /** Only trip t's row, hold, follow-ups and records change; no AcceptOffer moves. */
  ghost predicate OnlyTrip(s: State, s': State, t: Id) {
    && t in s.trips && t in s'.trips && s'.trips == s.trips[t := s'.trips[t]]
    && s'.trips[t].passenger == s.trips[t].passenger && (Active(s'.trips[t]) ==> Active(s.trips[t]))
    && s'.offers == s.offers && s'.accepts == s.accepts && s'.wins == s.wins
    && (forall u :: u != t ==> Lookup(s'.store.holds, u) == Lookup(s.store.holds, u))
    && (forall u :: u != t ==> TodoOf(s'.followups, u) == TodoOf(s.followups, u))
    && (forall u :: u != t ==> (u in s'.settledByAdmin <==> u in s.settledByAdmin))
    && (forall u :: u != t ==> Lookup(s'.releasedBy, u) == Lookup(s.releasedBy, u))
    && (forall c :: c in s'.followups && c !in s.followups ==> s'.followups[c].trip == t)
    && (forall c :: c in s'.followups && c in s.followups ==> s'.followups[c] == s.followups[c])
  }

  lemma OnlyTripUntouched(s: State, s': State, t: Id)
    requires OnlyTrip(s, s', t)
    ensures OtherTripsUntouched(s, s', t)
  {
    hide FaresOf, TodoOf;
  }

  lemma OnlyTripNoOrphans(s: State, s': State, t: Id)
    requires NoOrphans(s) && OnlyTrip(s, s', t)
    ensures NoOrphans(s')
  {
    hide TodoOf;
    forall u | u in s'.store.holds ensures u in s'.trips {
      if u != t { assert Lookup(s'.store.holds, u) == Lookup(s.store.holds, u); }
    }
    forall u | u in s'.releasedBy ensures u in s'.trips {
      if u != t { assert Lookup(s'.releasedBy, u) == Lookup(s.releasedBy, u); }
    }
  }

  lemma OnlyTripKeepsSafe(s: State, s': State, t: Id)
    requires Safe(s) && LedgerIntegrity.Inv(s'.store) && OnlyTrip(s, s', t)
    requires t in s'.trips && TripOk(ViewOf(s', t))
    ensures Safe(s')
  {
    hide LedgerIntegrity.Inv, OffersOk, OnePerPassenger, ViewOf, TripOk, OtherTripsUntouched, NoOrphans;
    OnlyTripUntouched(s, s', t);
    OnlyTripNoOrphans(s, s', t);
    TripKeepsSafe(s, s', t);
  }

  /** What a safe state says about trip t and the follow-ups. */
  lemma SafeSays(s: State, t: Id)
    requires Safe(s)
    ensures LedgerIntegrity.Inv(s.store)
    ensures t in s.trips ==> TripOk(ViewOf(s, t))
    ensures t in s.store.holds ==> t in s.trips && s.store.holds[t].amount >= 1
    ensures forall c :: c in s.followups ==> s.followups[c].trip in s.trips
  {
    hide LedgerIntegrity.Inv, CallsFit, OffersOk, OnePerPassenger, WinOk, ReleaseOk;
    if t in s.store.holds {
      assert FareOk(ViewOf(s, t));
    }
  }

  // -- giving up a match --

  lemma FareReturnedKeepsTripOk(s: State, s': State, call: Id, a: Option<Accept>)
    requires call in s.accepts && Taking(s.accepts[call])
    requires var t := s.accepts[call].trip;
      && t in s.trips && TripOk(ViewOf(s, t)) && FareAt(a, t).None?
      && s' == s.(store := s'.store, accepts := Put(s.accepts, call, a))
      && Lookup(s'.store.holds, t) == Settled(Lookup(s.store.holds, t), Refunded)
    ensures TripOk(ViewOf(s', s.accepts[call].trip))
  {
    hide TripOk, FaresOf, TodoOf, Put, Taking;
    var t := s.accepts[call].trip;
    FaresAfterPut(s.accepts, call, a, t);
    InFares(s.accepts, call, t);
    FareReturned(ViewOf(s, t), call);
  }

  lemma FareReturnedKeepsSafe(s: State, s': State, call: Id, a: Option<Accept>)
    requires Safe(s) && call in s.accepts && Taking(s.accepts[call])
    requires FareAt(a, s.accepts[call].trip).None? && OwnAt(a) == OwnAt(Some(s.accepts[call]))
    requires a.Some? ==> a.value.trip == s.accepts[call].trip && Fits(a.value, s.trips, s.offers)
    requires s' == s.(store := RefundEscrow(s.store, s.accepts[call].trip).0, accepts := Put(s.accepts, call, a))
    ensures Safe(s')
  {
    hide LedgerIntegrity.Inv, OffersOk, OnePerPassenger, ViewOf, TripOk, OtherTripsUntouched, RefundEscrow, FareAt,
      OwnAt;
    var t := s.accepts[call].trip;
    SafeSays(s, t);
    RefundSettles(s.store, t);
    OwnersStillOk(s.offers, s.accepts, s.wins, call, a);
    OthersUntouched(s, s', call, a, t);
    FareReturnedKeepsTripOk(s, s', call, a);
    TripKeepsSafe(s, s', t);
  }

  lemma UndoFareKeepsSafe(s: State, call: Id)
    requires Safe(s)
    ensures Safe(Next(s, UndoFare(call)))
  {
    hide LedgerIntegrity.Inv, OffersOk, TripsOk, OnePerPassenger, RefundEscrow;
    if InStage(s, call, UndoUnclaimed) || InStage(s, call, UndoClaimed) {
      var a := s.accepts[call];
      var a' := if a.stage.UndoClaimed? then Some(a.(stage := RollingBack, took := false)) else None;
      if a.took {
        FareReturnedKeepsSafe(s, Next(s, UndoFare(call)), call, a');
      } else {
        AcceptKeepsSafe(s, call, a');
      }
    }
  }

  lemma RefundSettles(s: Store, t: Id)
    requires LedgerIntegrity.Inv(s)
    requires t in s.holds ==> s.holds[t].amount >= 1
    ensures LedgerIntegrity.Inv(RefundEscrow(s, t).0)
    ensures Lookup(RefundEscrow(s, t).0.holds, t) == Settled(Lookup(s.holds, t), Refunded)
    ensures forall u :: u != t ==> Lookup(RefundEscrow(s, t).0.holds, u) == Lookup(s.holds, u)
    ensures RefundEscrow(s, t).0.holds.Keys == s.holds.Keys
  {
    hide LedgerIntegrity.Inv, SettleEscrow;
    Settles(s, t, false);
  }

  // ---- CancelTrip, expiry, ConfirmPickup, CompleteTrip ----

  lemma MoveKeepsSafe(s: State, t: Id, to: TripStatus, call: Id, f: Followup)
    requires Safe(s) && t in s.trips && call !in s.followups && f.trip == t
    requires var from := s.trips[t].status;
      || (from.Matched? && to.Cancelled? && f.RefundFare?)
      || (from.Requested? && (to.Cancelled? || to.TripExpired?) && f.WithdrawOffers?)
      || (from.PickedUp? && to.Completed? && f.OpenWindow?)
    ensures Safe(s.(trips := s.trips[t := s.trips[t].(status := to)], followups := s.followups[call := f]))
  {
    hide LedgerIntegrity.Inv, Safe, TripOk, FaresOf, TodoOf;
    SafeSays(s, t);
    var s' := s.(trips := s.trips[t := s.trips[t].(status := to)], followups := s.followups[call := f]);
    forall u ensures TodoOf(s'.followups, u) == if u == t then TodoOf(s.followups, u)[call := f]
      else TodoOf(s.followups, u) {
      TodoAfterAdd(s.followups, call, f, u);
    }
    assert call !in ViewOf(s, t).todo by { NotInTodo(s.followups, call, t); }
    TripMoved(ViewOf(s, t), to, call, f);
    OnlyTripKeepsSafe(s, s', t);
  }

  lemma NotInTodo(followups: map<Id, Followup>, c: Id, t: Id)
    requires c !in followups
    ensures c !in TodoOf(followups, t)
  {
  }

  lemma CancelTripKeepsSafe(s: State, call: Id, trip: Id)
    requires Safe(s)
    ensures Safe(Next(s, CancelTrip(call, trip)))
  {
    hide Safe;
    if call !in s.followups {
      if TripIs(s, trip, Matched) {
        MoveKeepsSafe(s, trip, Cancelled, call, RefundFare(trip));
      } else if TripIs(s, trip, Requested) {
        MoveKeepsSafe(s, trip, Cancelled, call, WithdrawOffers(trip));
      }
    }
  }

  lemma ExpireTripKeepsSafe(s: State, call: Id, trip: Id)
    requires Safe(s)
    ensures Safe(Next(s, ExpireTrip(call, trip)))
  {
    hide Safe;
    if call !in s.followups && TripIs(s, trip, Requested) {
      MoveKeepsSafe(s, trip, TripExpired, call, WithdrawOffers(trip));
    }
  }

  lemma CompleteTripKeepsSafe(s: State, call: Id, trip: Id)
    requires Safe(s)
    ensures Safe(Next(s, CompleteTrip(call, trip)))
  {
    hide Safe;
    if call !in s.followups && TripIs(s, trip, PickedUp) {
      MoveKeepsSafe(s, trip, Completed, call, OpenWindow(trip));
    }
  }

  lemma ConfirmPickupKeepsSafe(s: State, trip: Id)
    requires Safe(s)
    ensures Safe(Next(s, ConfirmPickup(trip)))
  {
    hide LedgerIntegrity.Inv, Safe, TripOk, FaresOf, TodoOf;
    SafeSays(s, trip);
    if TripIs(s, trip, Matched) {
      PickedUpOk(ViewOf(s, trip));
      OnlyTripKeepsSafe(s, SwapTrip(s, trip, Matched, PickedUp), trip);
    }
  }

  // ---- follow-ups ----

  lemma RefundFareKeepsSafe(s: State, call: Id, releaseAt: int)
    requires Safe(s) && call in s.followups && s.followups[call].RefundFare?
    ensures Safe(AfterFollowUp(s, call, releaseAt))
  {
    hide LedgerIntegrity.Inv, Safe, TripOk, FaresOf, TodoOf, RefundEscrow;
    var t := s.followups[call].trip;
    SafeSays(s, t);
    var s' := AfterFollowUp(s, call, releaseAt);
    RefundSettles(s.store, t);
    DropsFrom(s, s', call);
    RefundDone(ViewOf(s, t), call);
    OnlyTripKeepsSafe(s, s', t);
  }

  lemma DropsFrom(s: State, s': State, call: Id)
    requires call in s.followups && s'.followups == s.followups - {call}
    ensures forall u ::
      TodoOf(s'.followups, u) == if u == s.followups[call].trip then TodoOf(s.followups, u) - {call}
        else TodoOf(s.followups, u)
    ensures call in TodoOf(s.followups, s.followups[call].trip)
    ensures TodoOf(s.followups, s.followups[call].trip)[call] == s.followups[call]
  {
    forall u ensures TodoOf(s'.followups, u) ==
                     if u == s.followups[call].trip then TodoOf(s.followups, u) - {call} else TodoOf(s.followups, u) {
      TodoAfterDrop(s.followups, call, u);
    }
  }

  lemma PayDriverKeepsSafe(s: State, call: Id, releaseAt: int)
    requires Safe(s) && call in s.followups && s.followups[call].PayDriver?
    ensures Safe(AfterFollowUp(s, call, releaseAt))
  {
    hide LedgerIntegrity.Inv, Safe, TripOk, FaresOf, TodoOf, SettleEscrow;
    var t := s.followups[call].trip;
    SafeSays(s, t);
    var s' := AfterFollowUp(s, call, releaseAt);
    Settles(s.store, t, true);
    DropsFrom(s, s', call);
    DriverPaid(ViewOf(s, t), call);
    OnlyTripKeepsSafe(s, s', t);
  }

  lemma OpenWindowKeepsSafe(s: State, call: Id, releaseAt: int)
    requires Safe(s) && call in s.followups && s.followups[call].OpenWindow?
    ensures Safe(AfterFollowUp(s, call, releaseAt))
  {
    hide LedgerIntegrity.Inv, Safe, TripOk, FaresOf, TodoOf;
    var t := s.followups[call].trip;
    SafeSays(s, t);
    var s' := AfterFollowUp(s, call, releaseAt);
    LedgerIntegrity.MarkEscrowCompletedKeepsInv(s.store, t, releaseAt);
    DropsFrom(s, s', call);
    WindowOpened(ViewOf(s, t), call, releaseAt);
    OnlyTripKeepsSafe(s, s', t);
  }

  lemma WithdrawOffersKeepsSafe(s: State, call: Id, releaseAt: int)
    requires Safe(s) && call in s.followups && s.followups[call].WithdrawOffers?
    ensures Safe(AfterFollowUp(s, call, releaseAt))
  {
    hide LedgerIntegrity.Inv, Safe, TripOk, FaresOf, TodoOf;
    var t := s.followups[call].trip;
    SafeSays(s, t);
    var dropped := s.(followups := s.followups - {call});
    DropsFrom(s, dropped, call);
    TodoDropped(ViewOf(s, t), call);
    OnlyTripKeepsSafe(s, dropped, t);
    ClosingKeepsSafe(dropped, t, None, OfferWithdrawn);
  }

  lemma FollowUpKeepsSafe(s: State, call: Id, releaseAt: int)
    requires Safe(s)
    ensures Safe(Next(s, FollowUp(call, releaseAt)))
  {
    hide Safe, AfterFollowUp;
    if call in s.followups {
      match s.followups[call]
      case RefundFare(_) => RefundFareKeepsSafe(s, call, releaseAt);
      case WithdrawOffers(_) => WithdrawOffersKeepsSafe(s, call, releaseAt);
      case OpenWindow(_) => OpenWindowKeepsSafe(s, call, releaseAt);
      case PayDriver(_, _) => PayDriverKeepsSafe(s, call, releaseAt);
    }
  }

  // ---- escrow service ----

  lemma LaterPayKeepsSafe(s: State, call: Id, trip: Id, releaser: Releaser)
    requires Safe(s) && call !in s.followups && TripIs(s, trip, Completed) && !releaser.ByAdmin?
    ensures Safe(Later(s, call, PayDriver(trip, releaser)))
  {
    hide LedgerIntegrity.Inv, Safe, TripOk, FaresOf, TodoOf;
    SafeSays(s, trip);
    var f := PayDriver(trip, releaser);
    var s' := Later(s, call, f);
    forall u ensures TodoOf(s'.followups, u) == if u == trip then TodoOf(s.followups, u)[call := f]
      else TodoOf(s.followups, u) {
      TodoAfterAdd(s.followups, call, f, u);
    }
    NotInTodo(s.followups, call, trip);
    TodoAdded(ViewOf(s, trip), call, f);
    OnlyTripKeepsSafe(s, s', trip);
  }

  lemma ConfirmTripKeepsSafe(s: State, call: Id, trip: Id)
    requires Safe(s)
    ensures Safe(Next(s, ConfirmTrip(call, trip)))
  {
    hide Safe;
    if call !in s.followups && TripIs(s, trip, Completed) {
      LaterPayKeepsSafe(s, call, trip, ByPassenger);
    }
  }

  /** A release window is only ever open on a completed trip. */
  lemma WindowMeansCompleted(s: State, trip: Id)
    requires TripsOk(s) && trip in s.store.holds && s.store.holds[trip].releaseAfter.Some?
    ensures TripIs(s, trip, Completed)
  {
    assert ReleaseOk(ViewOf(s, trip));
  }

  lemma FindDueKeepsSafe(s: State, call: Id, trip: Id, now: int)
    requires Safe(s)
    ensures Safe(Next(s, FindDue(call, trip, now)))
  {
    hide LedgerIntegrity.Inv, CallsFit, OffersOk, OnePerPassenger, TripsOk;
    if call !in s.followups && trip in s.store.holds && s.store.holds[trip].releaseAfter.Some? {
      WindowMeansCompleted(s, trip);
      LaterPayKeepsSafe(s, call, trip, ByTimer);
    }
  }

  lemma DisputeTripKeepsSafe(s: State, trip: Id)
    requires Safe(s)
    ensures Safe(Next(s, DisputeTrip(trip)))
  {
    hide LedgerIntegrity.Inv, Safe, TripOk, FaresOf, TodoOf;
    SafeSays(s, trip);
    var s' := s.(store := DisputeEscrow(s.store, trip).0);
    LedgerIntegrity.DisputeEscrowKeepsInv(s.store, trip);
    if trip in s.store.holds && s.store.holds[trip].status.Held?
      && (TripIs(s, trip, PickedUp) || TripIs(s, trip, Completed)) {
      FareDisputed(ViewOf(s, trip));
      OnlyTripKeepsSafe(s, s', trip);
    }
  }

  lemma AdminSettledKeepsSafe(s: State, trip: Id, release: bool, store: Store)
    requires Safe(s) && LedgerIntegrity.Inv(store)
    requires trip in s.store.holds && Live(s.store.holds[trip])
    requires Lookup(store.holds, trip) == Settled(Lookup(s.store.holds, trip), if release then Released else Refunded)
    requires forall u :: u != trip ==> Lookup(store.holds, u) == Lookup(s.store.holds, u)
    ensures Safe(s.(store := store, settledByAdmin := s.settledByAdmin + {trip},
                    releasedBy := if release then s.releasedBy[trip := ByAdmin] else s.releasedBy))
  {
    hide LedgerIntegrity.Inv, Safe, TripOk, FaresOf, TodoOf;
    SafeSays(s, trip);
    AdminSettled(ViewOf(s, trip), release);
    OnlyTripKeepsSafe(s, s.(store := store, settledByAdmin := s.settledByAdmin + {trip},
                            releasedBy := if release then s.releasedBy[trip := ByAdmin] else s.releasedBy), trip);
  }

  lemma AdminResolveKeepsSafe(s: State, trip: Id, release: bool)
    requires Safe(s)
    ensures Safe(Next(s, AdminResolve(trip, release)))
  {
    hide LedgerIntegrity.Inv, Safe, TripOk, FaresOf, TodoOf, SettleEscrow;
    var (store, outcome) := SettleEscrow(s.store, trip, release);
    SafeSays(s, trip);
    Settles(s.store, trip, release);
    if outcome.Applied? {
      AdminSettledKeepsSafe(s, trip, release, store);
    } else {
      SettleEscrowEffect(s.store, trip, release);
      StoreKeepsSafe(s, store);
    }
  }

  // ---- everything else ----

  lemma MoneyKeepsSafe(s: State, op: Op)
    requires Safe(s)
    ensures Safe(Next(s, Money(op)))
  {
    hide LedgerIntegrity.Inv, Safe, Perform, Legal;
    if !TouchesHolds(op) && Legal(op) {
      SafeSays(s, 0);
      LedgerIntegrity.PerformKeepsInv(s.store, op);
      OtherOpsLeaveHolds(s.store, op);
      StoreKeepsSafe(s, Perform(s.store, op).0);
    }
  }

  lemma RejectOfferKeepsSafe(s: State, o: Id)
    requires Safe(s)
    ensures Safe(Next(s, RejectOffer(o)))
  {
    hide LedgerIntegrity.Inv, TripsOk, OffersOk, OnePerPassenger;
    OffersKeepSafe(s, SwapOffer(s.offers, o, OfferPending, OfferRejected));
  }

  lemma MakeOfferKeepsSafe(s: State, offer: Id, trip: Id, driver: Id, driverUser: Id, price: int)
    requires Safe(s)
    ensures Safe(Next(s, MakeOffer(offer, trip, driver, driverUser, price)))
  {
    hide LedgerIntegrity.Inv, TripsOk, OffersOk, OnePerPassenger, CallsFit;
    if TripIs(s, trip, Requested) && price >= 1 {
      var existing := PendingOffers(s.offers, trip, driver);
      var s' := Next(s, MakeOffer(offer, trip, driver, driverUser, price));
      if existing != {} {
        var o :| o in existing && s' == s.(offers := s.offers[o := s.offers[o].(price := price)]);
        PricedOffersSame(s, s.offers[o := s.offers[o].(price := price)]);
        OffersKeepSafe(s, s.offers[o := s.offers[o].(price := price)]);
      } else if offer !in s.offers {
        PricedOffersSame(s, s.offers[offer := Offer(trip, driver, driverUser, price, OfferPending)]);
        OffersKeepSafe(s, s.offers[offer := Offer(trip, driver, driverUser, price, OfferPending)]);
      }
    }
  }

  lemma PricedOffersSame(s: State, offers': map<Id, Offer>)
    requires CallsFit(s.trips, s.offers, s.accepts)
    requires forall o :: o in s.offers ==>
      o in offers' && offers'[o].(price := s.offers[o].price) == s.offers[o]
      && (offers'[o].price >= 1 || offers'[o] == s.offers[o])
    requires forall o :: o in offers' && o !in s.offers ==> offers'[o].status.OfferPending? && offers'[o].price >= 1
    ensures SameAccepted(s.offers, offers')
  {
  }

  lemma NewTripKeepsSafe(s: State, t: Id, passenger: Id)
    requires Safe(s) && t !in s.trips && !HasActiveTrip(s.trips, passenger)
    ensures Safe(s.(trips := s.trips[t := Trip(passenger, Requested, None, None)]))
  {
    hide LedgerIntegrity.Inv, OffersOk, TripOk, FaresOf, TodoOf, OnePerPassenger;
    var s' := s.(trips := s.trips[t := Trip(passenger, Requested, None, None)]);
    NewTripIsOnlyOne(s.trips, t, passenger);
    forall u | u in s.trips ensures ViewOf(s', u) == ViewOf(s, u) {
    }
    assert TripOk(ViewOf(s', t)) by {
      NothingKnown(s, t);
      FreshTripOk(ViewOf(s', t));
    }
  }

  lemma NewTripIsOnlyOne(trips: map<Id, Trip>, t: Id, passenger: Id)
    requires OnePerPassenger(trips) && t !in trips && !HasActiveTrip(trips, passenger)
    ensures OnePerPassenger(trips[t := Trip(passenger, Requested, None, None)])
  {
  }

  lemma NothingKnown(s: State, t: Id)
    requires CallsFit(s.trips, s.offers, s.accepts) && NoOrphans(s) && t !in s.trips
    ensures FaresOf(s.accepts, t) == map[] && TodoOf(s.followups, t) == map[]
  {
  }

  lemma FreshTripOk(v: TripView)
    requires v.trip.status.Requested? && v.trip.driver.None? && v.trip.agreedPrice.None?
    requires v.hold.None? && v.fares == map[] && v.todo == map[] && v.win.None? && v.releasedBy.None?
    ensures TripOk(v)
  {
  }

  lemma CreateTripKeepsSafe(s: State, trip: Id, passenger: Id, price: int)
    requires Safe(s)
    ensures Safe(Next(s, CreateTrip(trip, passenger, price)))
  {
    hide LedgerIntegrity.Inv, Safe, HasActiveTrip;
    SafeSays(s, trip);
    LedgerIntegrity.EnsureWalletKeepsInv(s.store, passenger);
    var store := EnsureWallet(s.store, passenger);
    StoreKeepsSafe(s, store);
    if trip !in s.trips && !HasActiveTrip(s.trips, passenger) {
      NewTripKeepsSafe(s.(store := store), trip, passenger);
    }
  }

  lemma NextKeepsSafe(s: State, e: Event)
    requires Safe(s)
    ensures Safe(Next(s, e))
  {
    hide *;
    match e
    case CreateTrip(trip, passenger, price) => CreateTripKeepsSafe(s, trip, passenger, price);
    case MakeOffer(offer, trip, driver, driverUser, price) => MakeOfferKeepsSafe(s, offer, trip, driver, driverUser,
                                                                                 price);
    case RejectOffer(o) => RejectOfferKeepsSafe(s, o);
    case Money(op) => MoneyKeepsSafe(s, op);
    case ReadTrip(call, trip) => ReadTripKeepsSafe(s, call, trip);
    case ReadOffer(call, o) => ReadOfferKeepsSafe(s, call, o);
    case CheckDriver(call) => CheckDriverKeepsSafe(s, call);
    case TakeFare(call) => TakeFareKeepsSafe(s, call);
    case ClaimOffer(call) => ClaimOfferKeepsSafe(s, call);
    case GiveUp(call) => GiveUpKeepsSafe(s, call);
    case MatchTrip(call) => MatchTripKeepsSafe(s, call);
    case SupersedeOthers(call) => SupersedeOthersKeepsSafe(s, call);
    case UndoFare(call) => UndoFareKeepsSafe(s, call);
    case RollBackOffer(call) => RollBackOfferKeepsSafe(s, call);
    case CancelTrip(call, trip) => CancelTripKeepsSafe(s, call, trip);
    case ExpireTrip(call, trip) => ExpireTripKeepsSafe(s, call, trip);
    case ConfirmPickup(trip) => ConfirmPickupKeepsSafe(s, trip);
    case CompleteTrip(call, trip) => CompleteTripKeepsSafe(s, call, trip);
    case FollowUp(call, releaseAt) => FollowUpKeepsSafe(s, call, releaseAt);
    case ConfirmTrip(call, trip) => ConfirmTripKeepsSafe(s, call, trip);
    case FindDue(call, trip, now) => FindDueKeepsSafe(s, call, trip, now);
    case DisputeTrip(trip) => DisputeTripKeepsSafe(s, trip);
    case AdminResolve(trip, release) => AdminResolveKeepsSafe(s, trip, release);
  }

  lemma StartIsSafe()
    ensures Safe(START)
  {
    LedgerIntegrity.EmptyStoreInv();
  }

  lemma {:induction false} EveryRunIsSafe(events: seq<Event>)
    ensures Safe(After(events))
    decreases |events|
  {
    hide Safe, Next;
    if events == [] {
      StartIsSafe();
    } else {
      EveryRunIsSafe(events[..|events| - 1]);
      NextKeepsSafe(After(events[..|events| - 1]), events[|events| - 1]);
    }
  }
}
