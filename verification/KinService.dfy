/**
 * The appeal service as it runs without another call in between. Each method is proved to be a run of the
 * steps of module Kin, so what holds of every interleaving holds of it.
 */
module KinService {
  import opened Wrappers
  import opened Ledger
  import LedgerIntegrity
  import LedgerOutcomes
  import LedgerStore
  import MoneyRules = Money
  import Kin
  import KinSafety
  import Pin
  import Quotes
  import Repositories
  import WalletService

  datatype Refusal =
    | AppealNotFound | TokenInvalid | AlreadyOpen | NothingToAppeal | NoDocuments | SameApprover | AppealState
    | PinRefused(refusal: WalletService.Refusal) | LedgerRefused(error: Error)

  /** What the next of kin's link opens, and until when. Links are unguessable; numbers stand for their hashes. */
  datatype Token = Token(appeal: Id, expiresAt: int)

  const MAX_DOCUMENTS := 10

  /** One disbursement, from the scan that finds the appeal due to the update of its row. */
  ghost function Disbursed(s: Kin.State, id: Id, withdrawal: Id): Kin.State {
    var checked := Kin.Next(Kin.Next(s, Kin.ScanDue(0, id)), Kin.CheckReference(0));
    Kin.Next(Kin.Next(Kin.Next(checked, Kin.ReadBalance(0)), Kin.Create(0, withdrawal)), Kin.MarkAppeal(0))
  }

  /** The scanned appeals, one disbursement after the other, each with a fresh withdrawal id. */
  ghost function AllDisbursed(s: Kin.State, rows: seq<Id>, ids: seq<Id>): Kin.State
    requires |ids| >= |rows|
    decreases |rows|
  {
    if rows == [] then s else Disbursed(AllDisbursed(s, rows[..|rows| - 1], ids), rows[|rows| - 1], ids[|rows| - 1])
  }

  /** maybeUnfreeze: the freeze of an appeal goes with the driver's last open appeal. */
  ghost function Unfrozen(s: Kin.State, driver: Id): Kin.State {
    if Kin.OpenAppeals(s.appeals, driver) == {} && driver in s.store.wallets
      && s.store.wallets[driver].freeze.FrozenForAppeal?
    then Kin.Next(s, Kin.Other(OpSetFrozen(driver, NotFrozen))) else s
  }

  ghost function WithWallet(s: Kin.State, user: Id): Kin.State {
    Kin.Next(s, Kin.Other(OpEnsureWallet(user)))
  }

  /** A withdrawal has been made for the appeal. */
  ghost predicate WasPaid(s: Store, id: Id) {
    exists w :: w in s.withdrawals && s.withdrawals[w].reference == AppealRef(id)
  }

  /** The appeal is closed as paid by this withdrawal, which was made for it. */
  predicate Settles(s: Kin.State, s': Kin.State, id: Id, w: Id)
    requires id in s.appeals && w in s.store.withdrawals
  {
    s.store.withdrawals[w].reference == AppealRef(id)
    && s'.appeals == s.appeals[id := s.appeals[id].(status := Kin.Disbursed, amount := s.store.withdrawals[w].amount,
                                                    withdrawal := Some(w))]
  }

  /**
   * What a disbursement comes to. An appeal that was paid before names that payment now. One whose whole-naira balance
   * does not exceed the fee is declined. Any other takes the whole balance but for less than a naira: the one
   * withdrawal that is written goes to the account of the appeal, and the appeal names it.
   */
  ghost predicate Pays(s: Kin.State, s': Kin.State, id: Id, withdrawal: Id, e: Option<Refusal>)
    requires id in s.appeals
  {
    var a := s.appeals[id];
    var balance := Quotes.BalanceOf(s.store, a.driver);
    var whole := balance - balance % 100;
    var fee := WalletService.FeeFor(whole);
    && s' == s.(store := s'.store, appeals := s'.appeals)
    && if WasPaid(s.store, id) then
         e.None? && s'.store == s.store && exists w :: w in s.store.withdrawals && Settles(s, s', id, w)
       else if a.driver !in s.store.wallets then e == Some(LedgerRefused(NotFound)) && s' == s
       else if whole <= fee then
         e.None? && s'.store == s.store && s'.appeals == s.appeals[id := a.(status := Kin.Declined)]
       else if withdrawal in s.store.withdrawals then e == Some(LedgerRefused(DuplicateRow)) && s' == s
       else
         e.None?
         && s'.appeals == s.appeals[id := a.(status := Kin.Disbursed, amount := whole, withdrawal := Some(withdrawal))]
         && s'.store.withdrawals == s.store.withdrawals[withdrawal :=
              Withdrawal(a.driver, ByAppeal, Queued, whole, fee, whole - fee, a.destination, AppealRef(id), s.clock, 0,
                         false)]
         && s'.store.topups == s.store.topups && s'.store.holds == s.store.holds
         && s'.store.wallets.Keys == s.store.wallets.Keys
         && LedgerOutcomes.OnlyBalance(s.store, s'.store, a.driver, -whole)
         && 0 <= Quotes.BalanceOf(s'.store, a.driver) < 100
  }

  /** The decision fits the appeal as it is. */
  predicate Applies(s: Kin.State, id: Id, admin: Id, d: Kin.Decision) {
    id in s.appeals &&
    match d
    case RequestInfo => s.appeals[id].status in {Kin.Submitted, Kin.AppealStatus.Recommended}
    case Recommend => s.appeals[id].status.Submitted? && Kin.DocumentsOf(s, id) > 0
    case Approve => s.appeals[id].status.Recommended? && s.appeals[id].recommendedBy != Some(admin)
    case Reject => s.appeals[id].status in Kin.OPEN
  }

  lemma OpenUnlessEnded(status: Kin.AppealStatus)
    ensures status in Kin.OPEN <==> status !in {Kin.Disbursed, Kin.Declined, Kin.Cancelled}
  {
  }

  lemma OpenUnlessAllEnded(appeals: map<Id, Kin.Appeal>, driver: Id)
    ensures Kin.OpenAppeals(appeals, driver) != {} <==>
      exists o :: o in appeals && appeals[o].driver == driver
                  && appeals[o].status !in {Kin.Disbursed, Kin.Declined, Kin.Cancelled}
  {
    var open := Kin.OpenAppeals(appeals, driver);
    if open != {} {
      var o :| o in open;
      OpenUnlessEnded(appeals[o].status);
    }
    forall o | o in appeals && appeals[o].driver == driver ensures o in open <==> appeals[o].status in Kin.OPEN {
    }
    forall o | o in appeals ensures appeals[o].status in Kin.OPEN <==>
                                    appeals[o].status !in {Kin.Disbursed, Kin.Declined, Kin.Cancelled} {
      OpenUnlessEnded(appeals[o].status);
    }
  }

  predicate IsClosed(appeals: map<Id, Kin.Appeal>, id: Id) {
    id in appeals && appeals[id].status in {Kin.Disbursed, Kin.Declined}
  }

  /** The wallets are the same ones, and new withdrawals have these ids. */
  predicate UsesOnly(s: Store, s': Store, ids: seq<Id>) {
    s'.wallets.Keys == s.wallets.Keys && forall w :: w in s'.withdrawals ==> w in s.withdrawals || w in ids
  }

  /** Different ids, and none in use. */
  ghost predicate AreNew(ids: seq<Id>, ws: map<Id, Withdrawal>) {
    (forall i, j :: 0 <= i < j < |ids| ==> ids[i] != ids[j]) && forall i :: 0 <= i < |ids| ==> ids[i] !in ws
  }

  /** These appeals are paid or declined, if their driver has a wallet. */
  ghost predicate AllClosed(s: Kin.State, appeals: map<Id, Kin.Appeal>, rows: seq<Id>) {
    forall id :: id in rows && id in s.appeals && s.appeals[id].driver in s.store.wallets ==> IsClosed(appeals, id)
  }

  lemma ClosesNext(s: Kin.State, before: Kin.State, after: Kin.State, rows: seq<Id>, ids: seq<Id>, i: nat,
                   e: Option<Refusal>)
    requires i < |rows| <= |ids| && rows[i] in before.appeals && rows[i] in s.appeals
    requires before.appeals[rows[i]].driver == s.appeals[rows[i]].driver
    requires Pays(before, after, rows[i], ids[i], e) && UsesOnly(s.store, before.store, ids[..i])
    requires forall other :: other in before.appeals && other != rows[i] ==>
      other in after.appeals && after.appeals[other] == before.appeals[other]
    requires AreNew(ids, s.store.withdrawals) ==> AllClosed(s, before.appeals, rows[..i])
    requires forall j :: 0 <= j < i ==> rows[j] != rows[i]
    ensures UsesOnly(s.store, after.store, ids[..i + 1])
    ensures AreNew(ids, s.store.withdrawals) ==> AllClosed(s, after.appeals, rows[..i + 1])
  {
    hide Pays;
    ClosesUnless(before, after, rows[i], ids[i], e);
    assert ids[..i + 1] == ids[..i] + [ids[i]] && rows[..i + 1] == rows[..i] + [rows[i]];
  }

  lemma ClosesUnless(s: Kin.State, s': Kin.State, id: Id, withdrawal: Id, e: Option<Refusal>)
    requires id in s.appeals && Pays(s, s', id, withdrawal, e)
    ensures UsesOnly(s.store, s'.store, [withdrawal])
    ensures s.appeals[id].driver in s.store.wallets && withdrawal !in s.store.withdrawals ==> IsClosed(s'.appeals, id)
  {
  }

  class KinService {
    const ledger: LedgerStore.LedgerRepository
    const kin: Repositories.KinRepository
    const wallet: WalletService.WalletService
    var documents: map<Id, nat>
    var tokens: map<Id, Token>
    ghost const clock: int

    constructor (ledger: LedgerStore.LedgerRepository, kin: Repositories.KinRepository,
                 wallet: WalletService.WalletService, now: int)
      ensures this.ledger == ledger && this.kin == kin && this.wallet == wallet
      ensures documents == map[] && tokens == map[] && clock == now
    {
      this.ledger, this.kin, this.wallet := ledger, kin, wallet;
      documents, tokens, clock := map[], map[], now;
    }

    /** No disbursement is under way between two calls. */
    ghost function AsState(): Kin.State
      reads this, ledger, kin
    {
      Kin.State(ledger.Snapshot(), kin.appeals, documents, map[], clock)
    }

    /** The next of kin has named the driver and proved their phone number. */
    method SubmitAppeal(id: Id, driver: Id, destination: Id, token: Id, expiresAt: int) returns (e: Option<Refusal>)
      requires id !in kin.appeals && token !in tokens
      modifies this`tokens, ledger, kin
      ensures e.None? <==> Kin.OpenAppeals(old(kin.appeals), driver) == {}
                           && driver in old(ledger.wallets) && old(ledger.wallets)[driver].balance > 0
      ensures e.None? ==> AsState() == Kin.Next(old(AsState()), Kin.SubmitAppeal(id, driver, destination))
                          && tokens == old(tokens)[token := Token(id, expiresAt)]
                          && ledger.wallets[driver].freeze == FrozenForAppeal
      ensures e == Some(AlreadyOpen) <==>
        exists o :: o in old(kin.appeals) && old(kin.appeals)[o].driver == driver
                    && old(kin.appeals)[o].status !in {Kin.Disbursed, Kin.Declined, Kin.Cancelled}
      ensures kin.appeals == if e.Some? then old(kin.appeals)
        else old(kin.appeals)[id := Kin.Appeal(driver, destination, Kin.Submitted, None, None, None, 0, None)]
      ensures e.Some? ==> AsState() in {old(AsState()), WithWallet(old(AsState()), driver)} && tokens == old(tokens)
    {
      OpenUnlessAllEnded(kin.appeals, driver);
      var open := kin.ListOpenAppealsForDriver(driver);
      if open != {} {
        return Some(AlreadyOpen);
      }
      ledger.EnsureWallet(driver);
      if ledger.wallets[driver].balance <= 0 {
        return Some(NothingToAppeal);
      }
      kin.CreateAppeal(id, driver, destination);
      tokens := tokens[token := Token(id, expiresAt)];
      ledger.SetWalletFrozen(driver, FrozenForAppeal);
      return None;
    }

    method MaybeUnfreeze(driver: Id)
      modifies ledger
      ensures AsState() == Unfrozen(old(AsState()), driver)
    {
      var open := kin.ListOpenAppealsForDriver(driver);
      if open != {} {
        return;
      }
      if driver !in ledger.wallets || !ledger.wallets[driver].freeze.FrozenForAppeal? {
        return;
      }
      ledger.SetWalletFrozen(driver, NotFrozen);
    }

    /** A rejection may end the driver's last open appeal. */
    method AdminDecide(id: Id, admin: Id, d: Kin.Decision, coolOff: nat, now: int) returns (e: Option<Refusal>)
      requires now == clock
      modifies kin, ledger
      ensures e.None? <==> Applies(old(AsState()), id, admin, d)
      ensures var decided := Kin.Next(old(AsState()), Kin.AdminDecide(id, admin, d, coolOff));
        AsState() == if d.Reject? && e.None? then Unfrozen(decided, old(kin.appeals)[id].driver) else decided
      ensures e == Some(AppealNotFound) <==> id !in old(kin.appeals)
      ensures e == Some(NoDocuments) <==>
        id in old(kin.appeals) && d.Recommend? && (id in documents ==> documents[id] == 0)
      ensures e == Some(SameApprover) <==>
        id in old(kin.appeals) && d.Approve? && old(kin.appeals)[id].recommendedBy == Some(admin)
      ensures e.None? ==>
        var a := old(kin.appeals)[id];
        kin.appeals == old(kin.appeals)[id :=
          match d
          case RequestInfo => a.(status := Kin.InfoRequested)
          case Recommend => a.(status := Kin.AppealStatus.Recommended, recommendedBy := Some(admin))
          case Approve => a.(status := Kin.AppealStatus.Approved, approvedBy := Some(admin),
                             disbursableAfter := Some(now + coolOff))
          case Reject => a.(status := Kin.Declined)]
      ensures e.None? ==>
        old(kin.appeals)[id].status in
          match d
          case RequestInfo => {Kin.Submitted, Kin.AppealStatus.Recommended}
          case Recommend => {Kin.Submitted}
          case Approve => {Kin.AppealStatus.Recommended}
          case Reject => {Kin.Submitted, Kin.InfoRequested, Kin.AppealStatus.Recommended, Kin.AppealStatus.Approved}
      ensures e.Some? ==> kin.appeals == old(kin.appeals)
    {
      if id !in kin.appeals {
        return Some(AppealNotFound);
      }
      var ok := false;
      match d {
        case RequestInfo =>
          ok := kin.TransitionAppeal(id, {Kin.Submitted, Kin.AppealStatus.Recommended},
            (a: Kin.Appeal) => a.(status := Kin.InfoRequested));
        case Recommend =>
          if id !in documents || documents[id] == 0 {
            return Some(NoDocuments);
          }
          ok := kin.TransitionAppeal(id, {Kin.Submitted},
            (a: Kin.Appeal) => a.(status := Kin.AppealStatus.Recommended, recommendedBy := Some(admin)));
        case Approve =>
          if kin.appeals[id].recommendedBy == Some(admin) {
            return Some(SameApprover);
          }
          ok := kin.TransitionAppeal(id, {Kin.AppealStatus.Recommended},
            (a: Kin.Appeal) => a.(status := Kin.AppealStatus.Approved, approvedBy := Some(admin),
                                  disbursableAfter := Some(now + coolOff)));
        case Reject =>
          ok := kin.TransitionAppeal(id, Kin.OPEN, (a: Kin.Appeal) => a.(status := Kin.Declined));
      }
      if !ok {
        return Some(AppealState);
      }
      if d.Reject? {
        MaybeUnfreeze(kin.appeals[id].driver);
      }
      e := None;
    }

    /** The caller's own appeal, their own PIN. */
    method DriverCancel(user: Id, id: Id, t: Pin.Try) returns (e: Option<Refusal>)
      modifies ledger, kin, wallet`pins
      ensures var mine := id in old(kin.appeals) && old(kin.appeals)[id].driver == user;
        var s := WithWallet(old(AsState()), user);
        && (!mine ==> e == Some(AppealNotFound) && AsState() == old(AsState()) && wallet.pins == old(wallet.pins))
        && (mine && !old(wallet.PinPasses(user, t)) ==> e.Some? && e.value.PinRefused? && AsState() == s)
        && (mine && old(wallet.PinPasses(user, t)) ==>
              if old(kin.appeals)[id].status in Kin.OPEN
              then e.None? && AsState() == Unfrozen(Kin.Next(s, Kin.DriverCancel(id)), user)
              else e == Some(AppealState) && AsState() == s)
      ensures e.None? <==>
        id in old(kin.appeals) && old(kin.appeals)[id].driver == user && old(wallet.PinPasses(user, t))
        && old(kin.appeals)[id].status !in {Kin.Disbursed, Kin.Declined, Kin.Cancelled}
      ensures kin.appeals == if e.Some? then old(kin.appeals)
        else old(kin.appeals)[id := old(kin.appeals)[id].(status := Kin.Cancelled)]
      ensures wallet.pins.Keys == old(wallet.pins).Keys
      ensures forall u :: u in wallet.pins && u != user ==> wallet.pins[u] == old(wallet.pins)[u]
    {
      if id !in kin.appeals || kin.appeals[id].driver != user {
        return Some(AppealNotFound);
      }
      ledger.EnsureWallet(user);
      var refusal := wallet.CheckPin(user, t);
      if refusal.Some? {
        return Some(PinRefused(refusal.value));
      }
      var ok := kin.TransitionAppeal(id, Kin.OPEN, (a: Kin.Appeal) => a.(status := Kin.Cancelled));
      OpenUnlessEnded(old(kin.appeals)[id].status);
      if !ok {
        return Some(AppealState);
      }
      MaybeUnfreeze(user);
      return None;
    }

    /** The link opens an appeal and has not expired. */
    predicate Opens(token: Id, now: int)
      reads this
    {
      token in tokens && now <= tokens[token].expiresAt
    }

    /** A stored document puts an appeal that waits for information back in the queue. */
    method UploadDocument(token: Id, now: int) returns (e: Option<Refusal>)
      modifies this`documents, kin
      ensures e.None? <==> Opens(token, now) && tokens[token].appeal in old(kin.appeals)
                           && old(kin.appeals)[tokens[token].appeal].status in {Kin.Submitted, Kin.InfoRequested}
                           && (tokens[token].appeal in old(documents) ==>
                               old(documents)[tokens[token].appeal] < MAX_DOCUMENTS)
      ensures e.Some? ==> AsState() == old(AsState())
      ensures e == Some(TokenInvalid) <==>
        !(token in tokens && now <= tokens[token].expiresAt && tokens[token].appeal in old(kin.appeals))
      ensures e.None? ==> var id := tokens[token].appeal;
        var n := if id in old(documents) then old(documents)[id] else 0;
        && n < 10 && documents == old(documents)[id := n + 1]
        && kin.appeals == old(kin.appeals)[id := old(kin.appeals)[id].(status := Kin.Submitted)]
      ensures e.None? ==> var id := tokens[token].appeal;
        AsState() == Kin.Next(Kin.Next(old(AsState()), Kin.AddDocument(id)), Kin.Resubmit(id))
    {
      if !Opens(token, now) || tokens[token].appeal !in kin.appeals {
        return Some(TokenInvalid);
      }
      var id := tokens[token].appeal;
      var a := kin.appeals[id];
      if !a.status.Submitted? && !a.status.InfoRequested? {
        return Some(AppealState);
      }
      var n := if id in documents then documents[id] else 0;
      if n >= MAX_DOCUMENTS {
        return Some(AppealState);
      }
      documents := documents[id := n + 1];
      if a.status.InfoRequested? {
        var _ := kin.TransitionAppeal(id, {Kin.InfoRequested}, (a: Kin.Appeal) => a.(status := Kin.Submitted));
      }
      e := None;
    }

    /** Pays one due appeal, or finishes the update of one that an earlier run paid. */
    method Disburse(id: Id, withdrawal: Id, now: int) returns (e: Option<Refusal>)
      requires now == clock && LedgerIntegrity.Inv(ledger.Snapshot())
      requires id in kin.appeals && Kin.DueNow(kin.appeals[id], now)
      modifies ledger, kin
      ensures AsState() == Disbursed(old(AsState()), id, withdrawal)
      ensures Pays(old(AsState()), AsState(), id, withdrawal, e)
      ensures forall other :: other in old(kin.appeals) && other != id ==>
        other in kin.appeals && kin.appeals[other] == old(kin.appeals)[other]
    {
      hide Kin.Next, Disbursed, LedgerIntegrity.Inv, CreateWithdrawal, Pays;
      var existing := WithReference(ledger.withdrawals, AppealRef(id));
      if existing != {} {
        var w :| w in existing;
        FinishedEarlier(AsState(), id, withdrawal, w);
        PaysFromEarlier(AsState(), id, withdrawal, w);
        var amount := ledger.withdrawals[w].amount;
        var _ := kin.TransitionAppeal(id, {Kin.AppealStatus.Approved},
          (a: Kin.Appeal) => a.(status := Kin.Disbursed, amount := amount, withdrawal := Some(w)));
        return None;
      }
      var driver := kin.appeals[id].driver;
      PaysNothing(AsState(), id, withdrawal);
      if driver !in ledger.wallets {
        NothingToPay(AsState(), id, withdrawal);
        return Some(LedgerRefused(NotFound));
      }
      var amount := Kin.Disbursable(ledger.wallets[driver].balance);
      if amount <= MoneyRules.TransferFee(amount) {
        NothingToPay(AsState(), id, withdrawal);
        var _ := kin.TransitionAppeal(id, {Kin.AppealStatus.Approved}, (a: Kin.Appeal) => a.(status := Kin.Declined));
        return None;
      }
      PaidNow(AsState(), id, withdrawal, amount);
      PaysWhole(AsState(), id, withdrawal, amount);
      var o := ledger.CreateWithdrawal(withdrawal, Kin.AppealWithdrawal(kin.appeals[id], id, amount, now),
                                       Guard(0, 0, now, 0));
      if o.Refused? {
        return Some(LedgerRefused(o.error));
      }
      var _ := kin.TransitionAppeal(id, {Kin.AppealStatus.Approved},
        (a: Kin.Appeal) => a.(status := Kin.Disbursed, amount := amount, withdrawal := Some(withdrawal)));
      return None;
    }

    /** Pays every scanned appeal in turn; an error in one does not stop the others. */
    method DisburseDue(now: int, limit: nat, fresh_: seq<Id>, enabled: bool) returns (rows: seq<Id>)
      requires now == clock && KinSafety.Safe(AsState()) && |fresh_| >= limit
      modifies ledger, kin
      ensures |rows| <= limit && AsState() == AllDisbursed(old(AsState()), rows, fresh_)
      ensures KinSafety.Safe(AsState())
      ensures !enabled ==> rows == []
      ensures AreNew(fresh_, old(ledger.withdrawals)) ==> AllClosed(old(AsState()), kin.appeals, rows)
      ensures enabled && |rows| < limit ==>
        forall id :: id in old(kin.appeals) && Kin.DueNow(old(kin.appeals)[id], now) ==> id in rows
      ensures forall id :: id in old(kin.appeals) && id !in rows ==>
        id in kin.appeals && kin.appeals[id] == old(kin.appeals)[id]
    {
      hide Disbursed, LedgerIntegrity.Inv, KinSafety.AppealsOk, KinSafety.PaymentsOk;
      rows := [];
      if !enabled {
        return;
      }
      rows := kin.DueAppeals(now, limit);
      ghost var was, start := kin.appeals, AsState();
      var i := 0;
      while i < |rows|
        invariant 0 <= i <= |rows|
        invariant AsState() == AllDisbursed(old(AsState()), rows[..i], fresh_)
        invariant KinSafety.Safe(AsState())
        invariant UsesOnly(start.store, ledger.Snapshot(), fresh_[..i])
        invariant AreNew(fresh_, start.store.withdrawals) ==> AllClosed(start, kin.appeals, rows[..i])
        invariant forall id :: id in was && id !in rows[..i] ==> id in kin.appeals && kin.appeals[id] == was[id]
      {
        assert rows[..i + 1][..i] == rows[..i];
        DisbursedKeepsSafe(AsState(), rows[i], fresh_[i]);
        ghost var before := AsState();
        var e := Disburse(rows[i], fresh_[i], now);
        ClosesNext(start, before, AsState(), rows, fresh_, i, e);
        i := i + 1;
      }
      assert rows[..|rows|] == rows;
    }
  }

  /**
   * An admin's own freeze does not outlast an appeal that is filed after it: filing replaces the reason of the
   * freeze, and the driver's cancellation, or an admin's rejection, then lifts it.
   */
  method FiledAndCancelled(k: KinService, driver: Id, id: Id, destination: Id, token: Id, expiresAt: int, t: Pin.Try)
    requires k.wallet.ledger == k.ledger
    requires driver in k.ledger.wallets && k.ledger.wallets[driver].freeze.FrozenByAdmin?
    requires k.ledger.wallets[driver].balance > 0
    requires Kin.OpenAppeals(k.kin.appeals, driver) == {} && id !in k.kin.appeals && token !in k.tokens
    requires k.wallet.PinPasses(driver, t)
    modifies k`tokens, k.ledger, k.kin, k.wallet`pins
    ensures driver in k.ledger.wallets && k.ledger.wallets[driver].freeze.NotFrozen?
  {
    hide Kin.Next, Unfrozen, WithWallet;
    FilesOne(k.AsState(), id, driver, destination);
    CancelsTheOne(k.AsState(), id, driver, destination);
    var filed := k.SubmitAppeal(id, driver, destination, token, expiresAt);
    var cancelled := k.DriverCancel(driver, id, t);
  }

  method FiledAndRejected(k: KinService, driver: Id, id: Id, destination: Id, token: Id, expiresAt: int, admin: Id,
                          now: int)
    requires now == k.clock
    requires driver in k.ledger.wallets && k.ledger.wallets[driver].freeze.FrozenByAdmin?
    requires k.ledger.wallets[driver].balance > 0
    requires Kin.OpenAppeals(k.kin.appeals, driver) == {} && id !in k.kin.appeals && token !in k.tokens
    modifies k`tokens, k.ledger, k.kin
    ensures driver in k.ledger.wallets && k.ledger.wallets[driver].freeze.NotFrozen?
  {
    hide Kin.Next, Unfrozen;
    FilesOne(k.AsState(), id, driver, destination);
    RejectsTheOne(k.AsState(), id, driver, destination, admin);
    var filed := k.SubmitAppeal(id, driver, destination, token, expiresAt);
    var rejected := k.AdminDecide(id, admin, Kin.Reject, 0, now);
  }

  lemma FilesOne(s: Kin.State, id: Id, driver: Id, destination: Id)
    requires id !in s.appeals
    ensures Kin.Next(s, Kin.SubmitAppeal(id, driver, destination)).appeals ==
      s.appeals[id := Kin.Appeal(driver, destination, Kin.Submitted, None, None, None, 0, None)]
  {
    hide SetFrozen;
  }

  lemma RejectsTheOne(s: Kin.State, id: Id, driver: Id, destination: Id, admin: Id)
    requires id !in s.appeals && Kin.OpenAppeals(s.appeals, driver) == {}
    ensures var filed := Kin.Next(s, Kin.SubmitAppeal(id, driver, destination));
      var s' := Unfrozen(Kin.Next(filed, Kin.AdminDecide(id, admin, Kin.Reject, 0)), driver);
      driver in s'.store.wallets && s'.store.wallets[driver].freeze.NotFrozen?
  {
    var filed := Kin.Next(s, Kin.SubmitAppeal(id, driver, destination));
    var rejected := Kin.Next(filed, Kin.AdminDecide(id, admin, Kin.Reject, 0));
    NoneLeftOpen(s.appeals, rejected.appeals, id, driver);
  }

  lemma NoneLeftOpen(before: map<Id, Kin.Appeal>, after: map<Id, Kin.Appeal>, id: Id, driver: Id)
    requires Kin.OpenAppeals(before, driver) == {} && id in after && after[id].status !in Kin.OPEN
    requires forall o :: o in after && o != id ==> o in before && after[o] == before[o]
    ensures Kin.OpenAppeals(after, driver) == {}
  {
    forall o | o in after && after[o].driver == driver ensures after[o].status !in Kin.OPEN {
      if o != id {
        assert o !in Kin.OpenAppeals(before, driver);
      }
    }
  }

  lemma CancelsTheOne(s: Kin.State, id: Id, driver: Id, destination: Id)
    requires id !in s.appeals && Kin.OpenAppeals(s.appeals, driver) == {}
    ensures var filed := Kin.Next(s, Kin.SubmitAppeal(id, driver, destination));
      var s' := Unfrozen(Kin.Next(WithWallet(filed, driver), Kin.DriverCancel(id)), driver);
      driver in s'.store.wallets && s'.store.wallets[driver].freeze.NotFrozen?
  {
    var filed := Kin.Next(s, Kin.SubmitAppeal(id, driver, destination));
    assert WithWallet(filed, driver) == filed;
    var cancelled := Kin.Next(filed, Kin.DriverCancel(id));
    NoneLeftOpen(s.appeals, cancelled.appeals, id, driver);
  }

  lemma DisbursedKeepsSafe(s: Kin.State, id: Id, withdrawal: Id)
    requires KinSafety.Safe(s)
    ensures KinSafety.Safe(Disbursed(s, id, withdrawal))
  {
    hide Kin.Next, KinSafety.Safe;
    var s1 := Kin.Next(s, Kin.ScanDue(0, id));
    var s2 := Kin.Next(s1, Kin.CheckReference(0));
    var s3 := Kin.Next(s2, Kin.ReadBalance(0));
    KinSafety.NextKeepsSafe(s, Kin.ScanDue(0, id));
    KinSafety.NextKeepsSafe(s1, Kin.CheckReference(0));
    KinSafety.NextKeepsSafe(s2, Kin.ReadBalance(0));
    KinSafety.NextKeepsSafe(s3, Kin.Create(0, withdrawal));
    KinSafety.NextKeepsSafe(Kin.Next(s3, Kin.Create(0, withdrawal)), Kin.MarkAppeal(0));
  }

  // ---- the four ways a disbursement can go ----

  predicate CanStart(s: Kin.State, id: Id) {
    s.calls == map[] && id in s.appeals && Kin.DueNow(s.appeals[id], s.clock)
  }

  function Marked(s: Kin.State, id: Id, a: Kin.Appeal): Kin.State {
    s.(appeals := s.appeals[id := a])
  }

  lemma Started(s: Kin.State, id: Id)
    requires CanStart(s, id)
    ensures Kin.Next(s, Kin.ScanDue(0, id)) == s.(calls := map[0 := Kin.Due(id)])
  {
  }

  lemma Marks(s: Kin.State, id: Id, c: Kin.Disburse)
    requires CanStart(s, id) && c.appeal == id && (c.Created? || c.TooLittle?)
    ensures Kin.Next(s.(calls := map[0 := c]), Kin.MarkAppeal(0)) == Marked(s, id,
      if c.Created? then s.appeals[id].(status := Kin.Disbursed, amount := c.amount, withdrawal := Some(c.withdrawal))
      else s.appeals[id].(status := Kin.Declined))
  {
    assert map[0 := c] - {0} == map[];
  }

  /** Steps that wait for another stage of the call change nothing. */
  lemma Waits(s: Kin.State, withdrawal: Id)
    requires 0 !in s.calls || s.calls[0].Created? || s.calls[0].TooLittle?
    ensures Kin.Next(s, Kin.ReadBalance(0)) == s && Kin.Next(s, Kin.Create(0, withdrawal)) == s
    ensures 0 !in s.calls ==> Kin.Next(s, Kin.MarkAppeal(0)) == s
  {
  }

  lemma FinishedEarlier(s: Kin.State, id: Id, withdrawal: Id, w: Id)
    requires CanStart(s, id) && LedgerIntegrity.Inv(s.store) && w in WithReference(s.store.withdrawals, AppealRef(id))
    ensures Disbursed(s, id, withdrawal) == Marked(s, id,
      s.appeals[id].(status := Kin.Disbursed, amount := s.store.withdrawals[w].amount, withdrawal := Some(w)))
  {
    hide Kin.Next, LedgerIntegrity.Inv;
    Started(s, id);
    var c := Kin.Created(id, w, s.store.withdrawals[w].amount);
    LedgerIntegrity.ReferenceNamesOne(s.store, AppealRef(id), w);
    ChecksExisting(s, id, w);
    Waits(s.(calls := map[0 := c]), withdrawal);
    Marks(s, id, c);
  }

  lemma ChecksExisting(s: Kin.State, id: Id, w: Id)
    requires CanStart(s, id) && WithReference(s.store.withdrawals, AppealRef(id)) == {w} && w in s.store.withdrawals
    ensures Kin.Next(s.(calls := map[0 := Kin.Due(id)]), Kin.CheckReference(0)) ==
            s.(calls := map[0 := Kin.Created(id, w, s.store.withdrawals[w].amount)])
  {
    hide WithReference;
  }

  lemma ChecksNone(s: Kin.State, id: Id)
    requires CanStart(s, id) && WithReference(s.store.withdrawals, AppealRef(id)) == {}
    ensures Kin.Next(s.(calls := map[0 := Kin.Due(id)]), Kin.CheckReference(0)) == s.(calls := map[0 := Kin.Unpaid(id)])
  {
  }

  lemma ReadsBalance(s: Kin.State, id: Id)
    requires CanStart(s, id)
    ensures var driver := s.appeals[id].driver;
      Kin.Next(s.(calls := map[0 := Kin.Unpaid(id)]), Kin.ReadBalance(0)) ==
        if driver !in s.store.wallets then s
        else var amount := Kin.Disbursable(s.store.wallets[driver].balance);
          s.(calls := map[0 := if amount <= MoneyRules.TransferFee(amount) then Kin.TooLittle(id)
                          else Kin.Ready(id, amount)])
  {
    assert map[0 := Kin.Unpaid(id)] - {0} == map[];
  }

  lemma NothingToPay(s: Kin.State, id: Id, withdrawal: Id)
    requires CanStart(s, id) && WithReference(s.store.withdrawals, AppealRef(id)) == {}
    requires var driver := s.appeals[id].driver;
      driver in s.store.wallets ==>
        var amount := Kin.Disbursable(s.store.wallets[driver].balance); amount <= MoneyRules.TransferFee(amount)
    ensures Disbursed(s, id, withdrawal) ==
      if s.appeals[id].driver !in s.store.wallets then s else Marked(s, id, s.appeals[id].(status := Kin.Declined))
  {
    hide Kin.Next, MoneyRules.TransferFee;
    Started(s, id);
    ChecksNone(s, id);
    ReadsBalance(s, id);
    if s.appeals[id].driver in s.store.wallets {
      Waits(s.(calls := map[0 := Kin.TooLittle(id)]), withdrawal);
      Marks(s, id, Kin.TooLittle(id));
    } else {
      Waits(s, withdrawal);
    }
  }

  lemma PaidNow(s: Kin.State, id: Id, withdrawal: Id, amount: int)
    requires CanStart(s, id) && WithReference(s.store.withdrawals, AppealRef(id)) == {}
    requires s.appeals[id].driver in s.store.wallets
    requires amount == Kin.Disbursable(s.store.wallets[s.appeals[id].driver].balance)
    requires amount > MoneyRules.TransferFee(amount)
    ensures var w := Kin.AppealWithdrawal(s.appeals[id], id, amount, s.clock);
      var (store, o) := CreateWithdrawal(s.store, withdrawal, w, Guard(0, 0, s.clock, 0));
      Disbursed(s, id, withdrawal) ==
        if o.Refused? then s.(store := store)
        else Marked(s.(store := store), id,
                    s.appeals[id].(status := Kin.Disbursed, amount := amount, withdrawal := Some(withdrawal)))
  {
    hide Kin.Next, MoneyRules.TransferFee, CreateWithdrawal;
    var w := Kin.AppealWithdrawal(s.appeals[id], id, amount, s.clock);
    var (store, o) := CreateWithdrawal(s.store, withdrawal, w, Guard(0, 0, s.clock, 0));
    Started(s, id);
    ChecksNone(s, id);
    ReadsBalance(s, id);
    Creates(s, id, withdrawal, amount);
    if o.Refused? {
      Waits(s, withdrawal);
    } else {
      Marks(s.(store := store), id, Kin.Created(id, withdrawal, amount));
    }
  }

  lemma NotPaidYet(s: Store, id: Id)
    ensures WithReference(s.withdrawals, AppealRef(id)) == {} <==> !WasPaid(s, id)
  {
    if w :| w in s.withdrawals && s.withdrawals[w].reference == AppealRef(id) {
      assert w in WithReference(s.withdrawals, AppealRef(id));
    }
    if WithReference(s.withdrawals, AppealRef(id)) != {} {
      var w :| w in WithReference(s.withdrawals, AppealRef(id));
      assert w in s.withdrawals && s.withdrawals[w].reference == AppealRef(id);
    }
  }

  lemma PaysFromEarlier(s: Kin.State, id: Id, withdrawal: Id, w: Id)
    requires id in s.appeals && w in WithReference(s.store.withdrawals, AppealRef(id))
    ensures Pays(s, Marked(s, id, s.appeals[id].(status := Kin.Disbursed, amount := s.store.withdrawals[w].amount,
                                                 withdrawal := Some(w))), id, withdrawal, None)
  {
    NotPaidYet(s.store, id);
    assert Settles(s, Marked(s, id, s.appeals[id].(status := Kin.Disbursed, amount := s.store.withdrawals[w].amount,
                                                   withdrawal := Some(w))), id, w);
  }

  lemma PaysNothing(s: Kin.State, id: Id, withdrawal: Id)
    requires id in s.appeals && WithReference(s.store.withdrawals, AppealRef(id)) == {}
    ensures s.appeals[id].driver !in s.store.wallets ==> Pays(s, s, id, withdrawal, Some(LedgerRefused(NotFound)))
    ensures s.appeals[id].driver in s.store.wallets ==>
      var amount := Kin.Disbursable(s.store.wallets[s.appeals[id].driver].balance);
      amount <= MoneyRules.TransferFee(amount) ==>
        Pays(s, Marked(s, id, s.appeals[id].(status := Kin.Declined)), id, withdrawal, None)
  {
    NotPaidYet(s.store, id);
  }

  lemma PaysWhole(s: Kin.State, id: Id, withdrawal: Id, amount: int)
    requires LedgerIntegrity.Inv(s.store) && id in s.appeals && s.appeals[id].driver in s.store.wallets
    requires WithReference(s.store.withdrawals, AppealRef(id)) == {}
    requires amount == Kin.Disbursable(s.store.wallets[s.appeals[id].driver].balance)
    requires amount > MoneyRules.TransferFee(amount)
    ensures var w := Kin.AppealWithdrawal(s.appeals[id], id, amount, s.clock);
      var (store, o) := CreateWithdrawal(s.store, withdrawal, w, Guard(0, 0, s.clock, 0));
      if o.Refused? then store == s.store && Pays(s, s, id, withdrawal, Some(LedgerRefused(o.error)))
      else
        Pays(s, Marked(s.(store := store), id,
                       s.appeals[id].(status := Kin.Disbursed, amount := amount, withdrawal := Some(withdrawal))),
             id, withdrawal, None)
  {
    hide LedgerIntegrity.Inv, CreateWithdrawal, LedgerOutcomes.OnlyBalance;
    NotPaidYet(s.store, id);
    var w := Kin.AppealWithdrawal(s.appeals[id], id, amount, s.clock);
    OnlyIdTaken(s.store, id, withdrawal, w);
    LedgerOutcomes.FirstReasonCounts(s.store, withdrawal, w, Guard(0, 0, s.clock, 0));
    var s' := CreateWithdrawal(s.store, withdrawal, w, Guard(0, 0, s.clock, 0)).0;
    BalanceAfter(s.store, s', w.user, -w.amount);
  }

  lemma BalanceAfter(s: Store, s': Store, user: Id, change: int)
    ensures LedgerOutcomes.OnlyBalance(s, s', user, change) ==>
            Quotes.BalanceOf(s', user) == Quotes.BalanceOf(s, user) + change
  {
  }

  /** Without limits, and with the money there, only the id can be in the way. */
  lemma OnlyIdTaken(s: Store, appeal: Id, withdrawal: Id, w: Withdrawal)
    requires !WasPaid(s, appeal) && w.reference == AppealRef(appeal) && w.kind == ByAppeal
    requires w.user in s.wallets && s.wallets[w.user].balance >= w.amount
    ensures forall now, reason :: LedgerOutcomes.Forbids(s, withdrawal, w, Guard(0, 0, now, 0), reason) <==>
      reason == DuplicateRow && withdrawal in s.withdrawals
  {
    hide LedgerOutcomes.Repeated, LedgerOutcomes.Today;
  }

  lemma Creates(s: Kin.State, id: Id, withdrawal: Id, amount: int)
    requires CanStart(s, id)
    ensures var w := Kin.AppealWithdrawal(s.appeals[id], id, amount, s.clock);
      var (store, o) := CreateWithdrawal(s.store, withdrawal, w, Guard(0, 0, s.clock, 0));
      && (o.Refused? ==> store == s.store)
      && Kin.Next(s.(calls := map[0 := Kin.Ready(id, amount)]), Kin.Create(0, withdrawal)) ==
         if o.Refused? then s else s.(store := store, calls := map[0 := Kin.Created(id, withdrawal, amount)])
  {
    hide CreateWithdrawal;
    KinSafety.CreateEffect(s.store, withdrawal, Kin.AppealWithdrawal(s.appeals[id], id, amount, s.clock),
                           Guard(0, 0, s.clock, 0));
    assert map[0 := Kin.Ready(id, amount)] - {0} == map[];
  }
}
