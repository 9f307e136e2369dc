/**
 * Why a wallet is frozen, over whole runs of the appeal workflow: exactly when an admin's freeze is lost and an
 * appeal's freeze is lifted, and what a lifting that overlaps other calls can do, since it reads appeals and wallet
 * before it writes.
 */
module Freezes {
  import opened Wrappers
  import opened Ledger
  import opened Kin
  import KinRuns
  import KinService

  predicate Has(s: Store, user: Id, freeze: Freeze) {
    user in s.wallets && s.wallets[user].freeze == freeze
  }

  /** Freezes are where they were; new wallets are not frozen. */
  ghost predicate SameFreezes(ws: map<Id, WalletRow>, ws': map<Id, WalletRow>) {
    && (forall u :: u in ws ==> u in ws' && ws'[u].freeze == ws[u].freeze)
    && (forall u :: u in ws' && u !in ws ==> ws'[u].freeze.NotFrozen?)
  }

  // ---- ledger transactions ----

  lemma {:induction false} PostingsKeepFreezes(ws: map<Id, WalletRow>, es: seq<Entry>, key: Key, ps: seq<Posting>,
                                               locked: set<Id>)
    ensures var r := ApplyPostings(ws, es, key, ps, locked); r.Success? ==> SameFreezes(ws, r.value.0)
    decreases |ps|
  {
    if ps != [] {
      var p := ps[0];
      match p.account {
        case WalletOf(u) =>
          if u in locked && u in ws {
            var balance := ws[u].balance + p.amount;
            PostingsKeepFreezes(ws[u := ws[u].(balance := balance)],
                                es + [Entry(key, p.account, p.amount, Some(balance))],
                                key, ps[1..], locked);
          }
        case _ => PostingsKeepFreezes(ws, es + [Entry(key, p.account, p.amount, None)], key, ps[1..], locked);
      }
    }
  }

  lemma PostKeepsFreezes(s: Store)
    ensures forall key, ps, locked :: Post(s, key, ps, locked).Success? ==>
      SameFreezes(s.wallets, Post(s, key, ps, locked).value.wallets)
  {
    forall key, ps, locked ensures Post(s, key, ps, locked).Success? ==>
      SameFreezes(s.wallets, Post(s, key, ps, locked).value.wallets) {
      PostingsKeepFreezes(s.wallets, s.entries, key, ps, locked);
    }
  }

  lemma CreditKeepsFreezes(s: Store, id: Id, paid: int, credit: int)
    ensures SameFreezes(s.wallets, CreditTopup(s, id, paid, credit).0.wallets)
  {
    hide Post;
    if id in s.topups {
      PostKeepsFreezes(EnsureWallet(s, s.topups[id].user));
    }
  }

  lemma HoldKeepsFreezes(s: Store, trip: Id, payer: Id, payee: Id, driver: Id, amount: int)
    ensures SameFreezes(s.wallets, HoldEscrow(s, trip, payer, payee, driver, amount).0.wallets)
  {
    hide Post;
    PostKeepsFreezes(EnsureWallet(s, payer));
  }

  lemma SettleKeepsFreezes(s: Store, trip: Id, release: bool)
    ensures SameFreezes(s.wallets, SettleEscrow(s, trip, release).0.wallets)
  {
    hide Post;
    if trip in s.holds {
      PostKeepsFreezes(EnsureWallet(s, if release then s.holds[trip].payee else s.holds[trip].payer));
    }
  }

  lemma CreateKeepsFreezes(s: Store, id: Id, w: Withdrawal, g: Guard)
    ensures SameFreezes(s.wallets, CreateWithdrawal(s, id, w, g).0.wallets)
  {
    hide Post;
    PostKeepsFreezes(s);
  }

  lemma FinalizeKeepsFreezes(s: Store, id: Id, flwKnown: bool, final: WithdrawalStatus)
    ensures SameFreezes(s.wallets, FinalizeSuccess(s, id, flwKnown).0.wallets)
    ensures SameFreezes(s.wallets, FinalizeFailure(s, id, final).0.wallets)
  {
    hide Post;
    PostKeepsFreezes(s);
  }

  /** No ledger transaction but SetWalletFrozen changes why a wallet is frozen. */
  lemma PerformKeepsFreezes(s: Store, op: Op)
    requires !op.OpSetFrozen?
    ensures SameFreezes(s.wallets, Perform(s, op).0.wallets)
  {
    hide CreditTopup, HoldEscrow, SettleEscrow, CreateWithdrawal, FinalizeSuccess, FinalizeFailure, Post;
    match op {
      case OpCreditTopup(id, paid, credit) => CreditKeepsFreezes(s, id, paid, credit);
      case OpHoldEscrow(trip, payer, payee, driver, amount) => HoldKeepsFreezes(s, trip, payer, payee, driver, amount);
      case OpReleaseEscrow(trip) => SettleKeepsFreezes(s, trip, true);
      case OpRefundEscrow(trip) => SettleKeepsFreezes(s, trip, false);
      case OpCreateWithdrawal(id, w, guard) => CreateKeepsFreezes(s, id, w, guard);
      case OpFinalizeSuccess(id, flwKnown) => FinalizeKeepsFreezes(s, id, flwKnown, Failed);
      case OpFinalizeFailure(id, final) => FinalizeKeepsFreezes(s, id, false, final);
      case _ =>
    }
  }

  // ---- events ----

  /** The event files an appeal for this driver. */
  predicate Files(s: State, e: Event, user: Id) {
    e.SubmitAppeal? && e.driver == user && e.appeal !in s.appeals
  }

  /** The event is SetWalletFrozen of this user. */
  predicate Sets(e: Event, user: Id) {
    e.Other? && e.op.OpSetFrozen? && e.op.user == user
  }

  lemma StepKeepsFreeze(s: State, e: Event, user: Id)
    requires user in s.store.wallets && !Files(s, e, user) && !Sets(e, user)
    ensures user in Next(s, e).store.wallets && Next(s, e).store.wallets[user].freeze == s.store.wallets[user].freeze
  {
    hide Perform, CreateWithdrawal, Decide, Legal, Foreign;
    if e.Other? && !e.op.OpSetFrozen? {
      PerformKeepsFreezes(s.store, e.op);
    } else if e.Other? {
      OtherFreezeStays(s.store, e.op, user);
    } else if e.Create? && Calling(s, e.call) && s.calls[e.call].Ready? {
      var c := s.calls[e.call];
      CreateKeepsFreezes(s.store, e.withdrawal, AppealWithdrawal(s.appeals[c.appeal], c.appeal, c.amount, s.clock),
                         Guard(0, 0, s.clock, 0));
    }
  }

  lemma OtherFreezeStays(s: Store, op: Op, user: Id)
    requires op.OpSetFrozen? && op.user != user && user in s.wallets
    ensures user in Perform(s, op).0.wallets && Perform(s, op).0.wallets[user].freeze == s.wallets[user].freeze
  {
  }

  /** An admin's freeze is lost in a step exactly by filing an appeal for its user, or by setting another one. */
  lemma AdminFreezeIsLostIff(s: State, e: Event, user: Id)
    requires Has(s.store, user, FrozenByAdmin)
    ensures !Has(Next(s, e).store, user, FrozenByAdmin)
       <==> Files(s, e, user) || (Sets(e, user) && !e.op.freeze.FrozenByAdmin?)
  {
    if !Files(s, e, user) && !Sets(e, user) {
      StepKeepsFreeze(s, e, user);
    }
  }

  /** Nobody sets this user's freeze in the run. */
  predicate NotSet(events: seq<Event>, user: Id) {
    forall i :: 0 <= i < |events| ==> !Sets(events[i], user)
  }

  /** Somewhere in the run an appeal is filed for this driver. */
  ghost predicate IsFiled(s: State, events: seq<Event>, user: Id) {
    exists i :: 0 <= i < |events| && Files(Continue(s, events[..i]), events[i], user)
  }

  /** Over a whole run an admin's freeze that nobody sets anew survives exactly if no appeal is filed. */
  lemma {:induction false} AdminFreezeSurvivesIff(s: State, events: seq<Event>, user: Id)
    requires Has(s.store, user, FrozenByAdmin) && NotSet(events, user)
    ensures Has(Continue(s, events).store, user, FrozenByAdmin) <==> !IsFiled(s, events, user)
    ensures user in Continue(s, events).store.wallets
    decreases |events|
  {
    hide Next;
    if events != [] {
      var n := |events| - 1;
      var before := events[..n];
      AdminFreezeSurvivesIff(s, before, user);
      assert forall i :: 0 <= i <= n ==> before[..i] == events[..i];
      assert before[..n] == before;
      var s' := Continue(s, before);
      if Has(s'.store, user, FrozenByAdmin) {
        AdminFreezeIsLostIff(s', events[n], user);
      } else {
        NeverBack(s', events[n], user);
      }
      WalletStays(s', events[n], user);
    }
  }

  lemma WalletStays(s: State, e: Event, user: Id)
    requires user in s.store.wallets
    ensures user in Next(s, e).store.wallets
  {
    if !Files(s, e, user) && !Sets(e, user) {
      StepKeepsFreeze(s, e, user);
    }
  }

  lemma NeverBack(s: State, e: Event, user: Id)
    requires user in s.store.wallets && !Has(s.store, user, FrozenByAdmin) && !Sets(e, user)
    ensures !Has(Next(s, e).store, user, FrozenByAdmin)
  {
    if !Files(s, e, user) {
      StepKeepsFreeze(s, e, user);
    }
  }

  // ---- lifting a freeze ----

  /**
   * maybeUnfreeze on its own never touches an admin's freeze or another user's, and lifts an appeal's exactly if none
   * is open.
   */
  lemma UnfrozenIff(s: State, driver: Id, user: Id)
    ensures Has(s.store, user, FrozenByAdmin) ==> Has(KinService.Unfrozen(s, driver).store, user, FrozenByAdmin)
    ensures user in s.store.wallets && user != driver ==>
      Has(KinService.Unfrozen(s, driver).store, user, s.store.wallets[user].freeze)
    ensures Has(s.store, driver, FrozenForAppeal) ==>
      (Has(KinService.Unfrozen(s, driver).store, driver, NotFrozen) <==> OpenAppeals(s.appeals, driver) == {})
  {
    hide OpenAppeals;
  }

  /** What maybeUnfreeze makes of the open appeals and the wallet it has read. */
  predicate MayLift(open: set<Id>, row: WalletRow) {
    open == {} && row.freeze.FrozenForAppeal?
  }

  /** Its write, on whatever the state has come to since. */
  ghost function LateLift(s: State, driver: Id, open: set<Id>, row: WalletRow): State {
    if MayLift(open, row) then Next(s, Other(OpSetFrozen(driver, NotFrozen))) else s
  }

  lemma LiftInTime(s: State, driver: Id)
    requires driver in s.store.wallets
    ensures LateLift(s, driver, OpenAppeals(s.appeals, driver), s.store.wallets[driver]) ==
      KinService.Unfrozen(s, driver)
  {
    hide Next, OpenAppeals;
  }

  /** A freeze that has to stay: an admin's, or an appeal's while one is open. */
  predicate MustStay(s: State, driver: Id) {
    Has(s.store, driver, FrozenByAdmin)
    || (Has(s.store, driver, FrozenForAppeal) && OpenAppeals(s.appeals, driver) != {})
  }

  /** A freeze that has to stay is lifted exactly if the appeals and the wallet read earlier allowed it. */
  lemma LateLiftIff(s: State, driver: Id, open: set<Id>, row: WalletRow)
    requires MustStay(s, driver)
    ensures Has(LateLift(s, driver, open, row).store, driver, NotFrozen) <==> MayLift(open, row)
  {
    hide OpenAppeals;
  }

  lemma Cancels(s: State)
    requires s == KinRuns.Filed(START).(store := s.store)
    ensures var s' := Next(s, DriverCancel(1)); s' == s.(appeals := s'.appeals) && OpenAppeals(s'.appeals, 1) == {}
    ensures 2 !in Next(s, DriverCancel(1)).appeals
  {
  }

  lemma AdminFreezes(s: State)
    ensures Has(Next(s, Other(OpSetFrozen(1, FrozenByAdmin))).store, 1, FrozenByAdmin)
  {
  }

  lemma FilesAgain(s: State)
    requires 2 !in s.appeals
    ensures var s' := Next(s, SubmitAppeal(2, 1, 5));
      Has(s'.store, 1, FrozenForAppeal) && OpenAppeals(s'.appeals, 1) != {}
  {
    assert 2 in OpenAppeals(Next(s, SubmitAppeal(2, 1, 5)).appeals, 1);
  }

  /**
   * Runs from the start to such writes. After `read`, with the only appeal just cancelled, both reads allow the lift;
   * by then an admin has frozen the wallet, or a new appeal has.
   */
  lemma LateLiftIsReachable() returns (read: seq<Event>, byAdmin: seq<Event>, byAppeal: seq<Event>)
    ensures read <= byAdmin && read <= byAppeal
    ensures 1 in After(read).store.wallets
    ensures var (open, row) := (OpenAppeals(After(read).appeals, 1), After(read).store.wallets[1]);
      && Has(After(byAdmin).store, 1, FrozenByAdmin) && Has(LateLift(After(byAdmin), 1, open, row).store, 1, NotFrozen)
      && Has(After(byAppeal).store, 1, FrozenForAppeal) && OpenAppeals(After(byAppeal).appeals, 1) != {}
      && Has(LateLift(After(byAppeal), 1, open, row).store, 1, NotFrozen)
  {
    hide Next, After, OpenAppeals, LateLift;
    read := KinRuns.FiledRun();
    Cancels(After(read));
    read := KinRuns.OneMore(read, DriverCancel(1));
    AdminFreezes(After(read));
    byAdmin := KinRuns.OneMore(read, Other(OpSetFrozen(1, FrozenByAdmin)));
    FilesAgain(After(read));
    byAppeal := KinRuns.OneMore(read, SubmitAppeal(2, 1, 5));
    var (open, row) := (OpenAppeals(After(read).appeals, 1), After(read).store.wallets[1]);
    LateLiftIff(After(byAdmin), 1, open, row);
    LateLiftIff(After(byAppeal), 1, open, row);
  }
}
