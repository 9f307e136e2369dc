/**
 * What each ledger transaction answers and leaves behind, row by row: when it goes through, why it is refused
 * otherwise, and what has become of every row and balance.
 */
module LedgerOutcomes {
  import opened Wrappers
  import opened Totals
  import opened Ledger
  import LedgerIntegrity
  import LedgerLaws
  import Quotes

  // ---- posting ----

  /** Every wallet that is posted to is locked, and none is overdrawn on the way. */
  ghost predicate Payable(wallets: map<Id, WalletRow>, ps: seq<Posting>, locked: set<Id>) {
    forall i, u :: 0 <= i < |ps| && ps[i].account == WalletOf(u) ==>
      u in locked && u in wallets && wallets[u].balance + LedgerIntegrity.Change(ps[..i + 1], WalletOf(u)) >= 0
  }

  /** One line per posting, in order, after the lines that were there. */
  predicate Logged(before: seq<Entry>, after: seq<Entry>, key: Key, ps: seq<Posting>) {
    && |after| == |before| + |ps| && before <= after
    && forall i :: |before| <= i < |after| ==>
      after[i].key == key && Posting(after[i].account, after[i].amount) == ps[i - |before|]
  }

  /** Balances move by what was posted; nothing else about a wallet does. */
  ghost predicate Moved(before: map<Id, WalletRow>, after: map<Id, WalletRow>, ps: seq<Posting>) {
    && after.Keys == before.Keys
    && forall u :: u in before ==>
      after[u] == before[u].(balance := before[u].balance + LedgerIntegrity.Change(ps, WalletOf(u)))
  }

  /** A prefix that is not empty starts with the first posting. */
  lemma PrefixChange(p: Posting, rest: seq<Posting>, i: nat, a: Account)
    requires i <= |rest|
    ensures LedgerIntegrity.Change(([p] + rest)[..i + 1], a) == (if p.account == a then p.amount else 0)
                                                                + LedgerIntegrity.Change(rest[..i], a)
  {
    assert ([p] + rest)[..i + 1] == [p] + rest[..i] && ([p] + rest[..i])[1..] == rest[..i];
  }

  /** What the rest of the postings needs, once the first one is written. */
  lemma PayableRest(wallets: map<Id, WalletRow>, p: Posting, rest: seq<Posting>, locked: set<Id>,
                    wallets': map<Id, WalletRow>)
    requires wallets'.Keys == wallets.Keys
    requires forall u :: u in wallets ==>
      wallets'[u].balance == wallets[u].balance + (if p.account == WalletOf(u) then p.amount else 0)
    requires p.account.WalletOf? ==>
      p.account.owner in locked && p.account.owner in wallets && wallets'[p.account.owner].balance >= 0
    ensures Payable(wallets, [p] + rest, locked) <==> Payable(wallets', rest, locked)
  {
    var ps := [p] + rest;
    if Payable(wallets', rest, locked) {
      forall i, u | 0 <= i < |ps| && ps[i].account == WalletOf(u)
        ensures u in locked && u in wallets
                && wallets[u].balance + LedgerIntegrity.Change(ps[..i + 1], WalletOf(u)) >= 0
      {
        PrefixChange(p, rest, i, WalletOf(u));
        if i > 0 {
          assert rest[i - 1].account == WalletOf(u);
        }
      }
    }
    if Payable(wallets, ps, locked) {
      forall i, u | 0 <= i < |rest| && rest[i].account == WalletOf(u)
        ensures u in locked && u in wallets'
                && wallets'[u].balance + LedgerIntegrity.Change(rest[..i + 1], WalletOf(u)) >= 0
      {
        PrefixChange(p, rest, i + 1, WalletOf(u));
        assert ps[i + 1].account == WalletOf(u);
      }
    }
  }

  /** The first posting alone can already fail. */
  lemma PayableFirst(wallets: map<Id, WalletRow>, ps: seq<Posting>, locked: set<Id>)
    requires ps != [] && ps[0].account.WalletOf? && Payable(wallets, ps, locked)
    ensures var u := ps[0].account.owner;
      u in locked && u in wallets && wallets[u].balance + ps[0].amount >= 0
  {
    var u := ps[0].account.owner;
    assert ps == [ps[0]] + ps[1..] && ps[1..][..0] == [];
    PrefixChange(ps[0], ps[1..], 0, WalletOf(u));
    assert ps[0].account == WalletOf(u);
  }

  lemma LoggedFirst(es: seq<Entry>, e: Entry, es': seq<Entry>, p: Posting, rest: seq<Posting>)
    requires Logged(es + [e], es', e.key, rest) && e.account == p.account && e.amount == p.amount
    ensures Logged(es, es', e.key, [p] + rest)
  {
    var ps, more := [p] + rest, es + [e];
    assert es <= more <= es';
    assert es'[|es|] == es'[..|more|][|es|] == e;
    forall i | |es| <= i < |es'|
      ensures es'[i].key == e.key && Posting(es'[i].account, es'[i].amount) == ps[i - |es|]
    {
      if i > |es| {
        assert ps[i - |es|] == rest[i - |more|];
      }
    }
  }

  lemma MovedFirst(wallets: map<Id, WalletRow>, between: map<Id, WalletRow>, wallets': map<Id, WalletRow>, p: Posting,
                   rest: seq<Posting>)
    requires Moved(between, wallets', rest) && between.Keys == wallets.Keys
    requires forall u :: u in wallets ==>
      between[u] == wallets[u].(balance := wallets[u].balance + (if p.account == WalletOf(u) then p.amount else 0))
    ensures Moved(wallets, wallets', [p] + rest)
  {
    forall u | u in wallets
      ensures wallets'[u] ==
        wallets[u].(balance := wallets[u].balance + LedgerIntegrity.Change([p] + rest, WalletOf(u)))
    {
      assert ([p] + rest)[1..] == rest;
    }
  }

  /** The postings are written if and only if they are payable; then line by line, and balances move by them. */
  lemma {:induction false} PostingsAreWrittenIff(wallets: map<Id, WalletRow>, es: seq<Entry>, key: Key,
                                                 ps: seq<Posting>, locked: set<Id>)
    ensures ApplyPostings(wallets, es, key, ps, locked).Success? <==> Payable(wallets, ps, locked)
    ensures Payable(wallets, ps, locked) ==>
      var (wallets', es') := ApplyPostings(wallets, es, key, ps, locked).value;
      Logged(es, es', key, ps) && Moved(wallets, wallets', ps)
    decreases |ps|, 1
  {
    if ps == [] {
    } else if ps[0].account.WalletOf?
              && (ps[0].account.owner !in locked || ps[0].account.owner !in wallets
                  || wallets[ps[0].account.owner].balance + ps[0].amount < 0) {
      hide Payable;
      if Payable(wallets, ps, locked) {
        PayableFirst(wallets, ps, locked);
      }
    } else {
      hide Payable, Logged, Moved;
      var p := ps[0];
      var balance := if p.account.WalletOf? then Some(wallets[p.account.owner].balance + p.amount) else None;
      var wallets' := if balance.Some?
        then wallets[p.account.owner := wallets[p.account.owner].(balance := balance.value)] else wallets;
      FirstPosting(wallets, es, key, p, ps[1..], locked, wallets', Entry(key, p.account, p.amount, balance));
      assert ps == [p] + ps[1..];
    }
  }

  lemma {:induction false} FirstPosting(wallets: map<Id, WalletRow>, es: seq<Entry>, key: Key, p: Posting,
                                        rest: seq<Posting>, locked: set<Id>, wallets': map<Id, WalletRow>, e: Entry)
    requires p.account.WalletOf? ==>
      p.account.owner in locked && p.account.owner in wallets && wallets[p.account.owner].balance + p.amount >= 0
    requires wallets' == if p.account.WalletOf?
      then wallets[p.account.owner := wallets[p.account.owner].(balance := wallets[p.account.owner].balance + p.amount)]
      else wallets
    requires e == Entry(key, p.account, p.amount,
                        if p.account.WalletOf? then Some(wallets'[p.account.owner].balance) else None)
    ensures ApplyPostings(wallets, es, key, [p] + rest, locked).Success? <==> Payable(wallets, [p] + rest, locked)
    ensures Payable(wallets, [p] + rest, locked) ==>
      var (ws, es') := ApplyPostings(wallets, es, key, [p] + rest, locked).value;
      Logged(es, es', key, [p] + rest) && Moved(wallets, ws, [p] + rest)
    decreases |rest| + 1, 0
  {
    hide Payable, Logged, Moved;
    assert ([p] + rest)[1..] == rest;
    PayableRest(wallets, p, rest, locked, wallets');
    PostingsAreWrittenIff(wallets', es + [e], key, rest, locked);
    var written := ApplyPostings(wallets', es + [e], key, rest, locked);
    if written.Success? {
      LoggedFirst(es, e, written.value.1, p, rest);
      MovedFirst(wallets, wallets', written.value.0, p, rest);
    }
  }

  /**
   * A transaction is written if and only if it balances, its key is new and its postings are payable; otherwise the
   * first of these that fails is what is reported.
   */
  lemma PostGoesThroughIff(s: Store, key: Key, ps: seq<Posting>, locked: set<Id>)
    ensures var r := Post(s, key, ps, locked);
      && (r == Failure(Unbalanced) <==> PostingSum(ps) != 0)
      && (r == Failure(AlreadyProcessed) <==> PostingSum(ps) == 0 && key in s.keys)
      && (r.Success? <==> PostingSum(ps) == 0 && key !in s.keys && Payable(s.wallets, ps, locked))
      && (r.Success? ==>
            && r.value == s.(wallets := r.value.wallets, entries := r.value.entries, keys := s.keys + {key})
            && Logged(s.entries, r.value.entries, key, ps) && Moved(s.wallets, r.value.wallets, ps))
  {
    hide Payable, Logged, Moved;
    PostingsAreWrittenIff(s.wallets, s.entries, key, ps, locked);
  }

  // ---- the shapes of postings ----

  /** Out of the payouts in flight: written exactly if net and fee are the amount. */
  lemma OutOfPool(s: Store, key: Key, amount: int, net: int, fee: int)
    requires key !in s.keys
    ensures var ps := [Posting(PayoutPending, -amount), Posting(ExternalOut, net), Posting(Fees, fee)];
      var r := Post(s, key, ps, {});
      if amount != net + fee then r == Failure(Unbalanced)
      else r.Success? && r.value == s.(keys := s.keys + {key}, entries := r.value.entries)
  {
    var ps := [Posting(PayoutPending, -amount), Posting(ExternalOut, net), Posting(Fees, fee)];
    LedgerIntegrity.SumOfThree(ps[0], ps[1], ps[2]);
    hide PostingSum;
    var es := s.entries + [Entry(key, PayoutPending, -amount, None)];
    var fs := es + [Entry(key, ExternalOut, net, None)];
    var gs := fs + [Entry(key, Fees, fee, None)];
    assert ps[1..] == [ps[1], ps[2]] && ps[1..][1..] == [ps[2]] && [ps[2]][1..] == [];
    assert ApplyPostings(s.wallets, fs, key, [ps[2]], {}) == Success((s.wallets, gs));
    assert ApplyPostings(s.wallets, es, key, ps[1..], {}) == Success((s.wallets, gs));
    assert ApplyPostings(s.wallets, s.entries, key, ps, {}) == Success((s.wallets, gs));
  }

  /** Keys of rows that have not come that far are new. */
  lemma KeyIsNew(s: Store, key: Key)
    requires LedgerIntegrity.Inv(s)
    ensures key in s.keys <==> LedgerIntegrity.Accounted(key, s.topups, s.holds, s.withdrawals)
  {
    hide LedgerIntegrity.Books, LedgerIntegrity.Pools, LedgerIntegrity.RowsValid, LedgerIntegrity.Accounted;
    assert LedgerIntegrity.KeysAgree(s.keys, s.topups, s.holds, s.withdrawals);
  }

  /** The balance of one user changes, and no other. */
  ghost predicate OnlyBalance(s: Store, s': Store, user: Id, change: int) {
    forall u :: Quotes.BalanceOf(s', u) == Quotes.BalanceOf(s, u) + if u == user then change else 0
  }

  lemma BalanceSet(s: Store, s': Store, user: Id, change: int)
    requires var s1 := EnsureWallet(s, user);
      s'.wallets == s1.wallets[user := s1.wallets[user].(balance := s1.wallets[user].balance + change)]
    ensures OnlyBalance(s, s', user, change)
  {
  }

  lemma EnsuredWallet(s: Store, user: Id)
    ensures var s1 := EnsureWallet(s, user);
      && user in s1.wallets && s1.wallets[user].balance == Quotes.BalanceOf(s, user) && s1 == s.(wallets := s1.wallets)
      && OnlyBalance(s, s1, user, 0)
  {
  }

  // ---- holds ----

  lemma HoldKeyIsNew(s: Store, trip: Id)
    requires LedgerIntegrity.Inv(s) && (trip in s.holds ==> s.holds[trip].status.Refunded?)
    ensures HoldKey(trip, if trip in s.holds then s.holds[trip].version + 1 else 1) !in s.keys
  {
    KeyIsNew(s, HoldKey(trip, if trip in s.holds then s.holds[trip].version + 1 else 1));
  }

  lemma OpensHold(s: Store, trip: Id, payer: Id, payee: Id, driver: Id, amount: int)
    requires LedgerIntegrity.Inv(s) && (trip in s.holds ==> s.holds[trip].status.Refunded?)
    ensures var (s', o) := HoldEscrow(s, trip, payer, payee, driver, amount);
      var h := Hold(payer, payee, driver, amount, Held, if trip in s.holds then s.holds[trip].version + 1 else 1, None);
      var s1 := EnsureWallet(s, payer);
      if Quotes.BalanceOf(s, payer) < amount then s' == s && o == Refused(InsufficientFunds)
      else o.Applied? && s' == s1.(holds := s.holds[trip := h], keys := s'.keys, entries := s'.entries, wallets :=
        s1.wallets[payer := s1.wallets[payer].(balance := s1.wallets[payer].balance + -amount)])
  {
    hide LedgerIntegrity.Inv, Post, EnsureWallet, OnlyBalance, Quotes.BalanceOf;
    HoldKeyIsNew(s, trip);
    EnsuredWallet(s, payer);
    var version := if trip in s.holds then s.holds[trip].version + 1 else 1;
    LedgerLaws.PaymentPosts(EnsureWallet(s, payer), HoldKey(trip, version), amount, payer, Escrow);
  }

  /**
   * A hold is taken if and only if the trip has none, or a refunded one, and the payer has the money; a standing hold
   * on the same terms is left as it is, one on other terms refuses.
   */
  lemma HoldIsTakenIff(s: Store, trip: Id, payer: Id, payee: Id, driver: Id, amount: int)
    requires LedgerIntegrity.Inv(s)
    ensures var (s', o) := HoldEscrow(s, trip, payer, payee, driver, amount);
      var standing := trip in s.holds && !s.holds[trip].status.Refunded?;
      var same := standing && s.holds[trip].driver == driver && s.holds[trip].amount == amount
                  && s.holds[trip].payer == payer;
      && (o.NoOp? <==> same) && (o == Refused(HoldConflict) <==> standing && !same)
      && (o.Applied? <==> !standing && Quotes.BalanceOf(s, payer) >= amount)
      && (o == Refused(InsufficientFunds) <==> !standing && Quotes.BalanceOf(s, payer) < amount)
      && (o.Refused? ==> s' == s)
      && (o.NoOp? ==> s' == s.(wallets := s'.wallets) && OnlyBalance(s, s', payer, 0))
      && (o.Applied? ==>
            && s'.topups == s.topups && s'.withdrawals == s.withdrawals && OnlyBalance(s, s', payer, -amount)
            && s'.holds == s.holds[trip := Hold(payer, payee, driver, amount, Held,
                                                if trip in s.holds then s.holds[trip].version + 1 else 1, None)])
  {
    hide LedgerIntegrity.Inv, Post, OnlyBalance, Quotes.BalanceOf;
    EnsuredWallet(s, payer);
    if trip !in s.holds || s.holds[trip].status.Refunded? {
      OpensHold(s, trip, payer, payee, driver, amount);
      var s' := HoldEscrow(s, trip, payer, payee, driver, amount).0;
      hide HoldEscrow, EnsureWallet;
      if Quotes.BalanceOf(s, payer) >= amount {
        BalanceSet(s, s', payer, -amount);
      }
    }
  }

  lemma SettleKeyIsNew(s: Store, trip: Id, release: bool)
    requires LedgerIntegrity.Inv(s) && trip in s.holds && Live(s.holds[trip])
    ensures var h := s.holds[trip];
      (if release then ReleaseKey(trip, h.version) else RefundKey(trip, h.version)) !in s.keys
  {
    KeyIsNew(s, ReleaseKey(trip, s.holds[trip].version));
    KeyIsNew(s, RefundKey(trip, s.holds[trip].version));
  }

  lemma ClosesHold(s: Store, trip: Id, release: bool)
    requires LedgerIntegrity.Inv(s) && trip in s.holds && Live(s.holds[trip]) && s.holds[trip].amount >= 0
    ensures var (s', o) := SettleEscrow(s, trip, release);
      var h := s.holds[trip];
      var user := if release then h.payee else h.payer;
      var s1 := EnsureWallet(s, user);
      && o.Applied?
      && s' == s1.(holds := s.holds[trip := h.(status := if release then Released else Refunded)], keys := s'.keys,
                   entries := s'.entries, wallets :=
                   s1.wallets[user := s1.wallets[user].(balance := s1.wallets[user].balance + h.amount)])
  {
    hide LedgerIntegrity.Inv, Post, EnsureWallet, OnlyBalance, Quotes.BalanceOf;
    var h := s.holds[trip];
    var user := if release then h.payee else h.payer;
    SettleKeyIsNew(s, trip, release);
    EnsuredWallet(s, user);
    Quotes.BalanceNotNegative(s, user);
    var key := if release then ReleaseKey(trip, h.version) else RefundKey(trip, h.version);
    LedgerLaws.TransferPosts(EnsureWallet(s, user), key, h.amount, user, Escrow);
  }

  /** A hold is settled if and only if it is held or disputed, in full and to the one it is settled for. */
  lemma HoldIsSettledIff(s: Store, trip: Id, release: bool)
    requires LedgerIntegrity.Inv(s) && (trip in s.holds ==> s.holds[trip].amount >= 0)
    ensures var (s', o) := SettleEscrow(s, trip, release);
      && (o == Refused(NotFound) <==> trip !in s.holds)
      && (o.NoOp? <==> trip in s.holds && s.holds[trip].status in {Released, Refunded})
      && (o.Applied? <==> trip in s.holds && s.holds[trip].status in {Held, Disputed})
      && (!o.Applied? ==> s' == s)
      && (o.Applied? ==>
            var h := s.holds[trip];
            && s'.topups == s.topups && s'.withdrawals == s.withdrawals
            && s'.holds == s.holds[trip := h.(status := if release then Released else Refunded)]
            && OnlyBalance(s, s', if release then h.payee else h.payer, h.amount))
  {
    hide LedgerIntegrity.Inv, Post, OnlyBalance, EnsureWallet;
    if trip in s.holds && Live(s.holds[trip]) {
      var h := s.holds[trip];
      var user := if release then h.payee else h.payer;
      ClosesHold(s, trip, release);
      EnsuredWallet(s, user);
      BalanceSet(s, SettleEscrow(s, trip, release).0, user, h.amount);
      hide SettleEscrow;
    }
  }

  // ---- top-ups ----

  /** A top-up is credited if and only if it exists and has not been, expired or not; its owner gets the credit. */
  lemma TopupIsCreditedIff(s: Store, id: Id, paid: int, credit: int)
    requires LedgerIntegrity.Inv(s) && credit >= 0
    ensures var (s', o) := CreditTopup(s, id, paid, credit);
      && (o == Refused(NotFound) <==> id !in s.topups)
      && (o.NoOp? <==> id in s.topups && s.topups[id].status == Credited)
      && (o.Applied? <==> id in s.topups && s.topups[id].status in {Pending, Expired})
      && (!o.Applied? ==> s' == s)
      && (o.Applied? ==>
            && s'.topups == s.topups[id := s.topups[id].(status := Credited, paid := paid, credited := credit)]
            && s'.holds == s.holds && s'.withdrawals == s.withdrawals
            && OnlyBalance(s, s', s.topups[id].user, credit))
  {
    if id in s.topups && s.topups[id].status != Credited {
      hide LedgerIntegrity.Inv, CreditTopup;
      Quotes.CreditArrives(s, id, paid, credit);
    } else {
      hide LedgerIntegrity.Inv;
    }
  }

  /** A waiting top-up expires exactly when its time is over; a payment that arrives later is credited all the same. */
  lemma ExpiredTopupIsStillCredited(s: Store, id: Id, user: Id, expiresAt: Option<int>, before: int, paid: int,
                                    credit: int)
    requires LedgerIntegrity.Inv(s) && id !in s.topups && credit >= 0
    ensures var waiting := ExpireTopups(CreateTopup(s, id, user, expiresAt).0, before);
      && id in waiting.topups && waiting.topups[id].user == user
      && (waiting.topups[id].status == Expired <==> expiresAt.Some? && expiresAt.value < before)
      && (waiting.topups[id].status == Pending <==> expiresAt.None? || expiresAt.value >= before)
      && CreditTopup(waiting, id, paid, credit).1.Applied?
      && OnlyBalance(s, CreditTopup(waiting, id, paid, credit).0, user, credit)
  {
    hide LedgerIntegrity.Inv, CreditTopup, OnlyBalance;
    var created := CreateTopup(s, id, user, expiresAt).0;
    LedgerIntegrity.CreateTopupKeepsInv(s, id, user, expiresAt);
    LedgerIntegrity.ExpireTopupsKeepsInv(created, before);
    var waiting := ExpireTopups(created, before);
    TopupIsCreditedIff(waiting, id, paid, credit);
    SameWallets(s, waiting, CreditTopup(waiting, id, paid, credit).0, user, credit);
  }

  lemma SameWallets(s: Store, t: Store, s': Store, user: Id, change: int)
    requires t.wallets == s.wallets && OnlyBalance(t, s', user, change)
    ensures OnlyBalance(s, s', user, change)
  {
  }

  // ---- withdrawals ----

  /** A user's unreturned driver withdrawals of the 24 hours up to now. */
  function Today(ws: map<Id, Withdrawal>, user: Id, now: int): map<Id, int> {
    map id | id in ws && ws[id].user == user && ws[id].kind == ByDriver
             && now - ws[id].createdAt <= 86_400_000 && ws[id].status !in {Failed, Rejected} :: ws[id].amount
  }

  lemma TodayIs(ws: map<Id, Withdrawal>, user: Id, now: int)
    ensures Total(UsedSince(ws, user, now - DAY)) == Total(Today(ws, user, now))
  {
    TotalSkipsZeros(UsedSince(ws, user, now - DAY), Today(ws, user, now));
  }

  /** The user has an unreturned withdrawal of this amount to this bank account from the last while. */
  ghost predicate Repeated(ws: map<Id, Withdrawal>, user: Id, amount: int, bank: Id, now: int, while_: int) {
    exists id :: id in ws && ws[id].user == user && ws[id].amount == amount && ws[id].bankAccount == bank
                 && now - ws[id].createdAt <= while_ && ws[id].status !in {Failed, Rejected}
  }

  lemma RepeatedIs(ws: map<Id, Withdrawal>, w: Withdrawal, now: int, while_: int)
    ensures Repeats(ws, w, now - while_) != {} <==> Repeated(ws, w.user, w.amount, w.bankAccount, now, while_)
  {
    var repeats := Repeats(ws, w, now - while_);
    if repeats != {} {
      var id :| id in repeats;
      assert ws[id].user == w.user && ws[id].amount == w.amount && ws[id].bankAccount == w.bankAccount
             && now - ws[id].createdAt <= while_ && ws[id].status !in {Failed, Rejected};
    }
    if id :| id in ws && ws[id].user == w.user && ws[id].amount == w.amount && ws[id].bankAccount == w.bankAccount
             && now - ws[id].createdAt <= while_ && ws[id].status !in {Failed, Rejected} {
      assert id in repeats;
    }
  }

  /** The id or the reference is in use. */
  ghost predicate Taken(ws: map<Id, Withdrawal>, id: Id, r: Reference) {
    id in ws || exists i :: i in ws && ws[i].reference == r
  }

  lemma TakenIs(ws: map<Id, Withdrawal>, id: Id, r: Reference)
    ensures (id in ws || WithReference(ws, r) != {}) <==> Taken(ws, id, r)
  {
    var named := WithReference(ws, r);
    if named != {} {
      var i :| i in named;
      assert i in ws && ws[i].reference == r;
    }
    if i :| i in ws && ws[i].reference == r {
      assert i in named;
    }
  }

  /** The reasons to refuse a withdrawal, in the order in which they are looked at. */
  const REASONS := [NotFound, WalletFrozen, OverCooldownCap, DuplicateWithdrawal, DailyLimitExceeded, DuplicateRow,
                    InsufficientFunds]

  ghost predicate Forbids(s: Store, id: Id, w: Withdrawal, g: Guard, reason: Error) {
    match reason
    case NotFound => w.user !in s.wallets
    case WalletFrozen => Quotes.FreezeOf(s, w.user) != NotFrozen && w.kind != ByAppeal
    case OverCooldownCap => 0 < g.cooldownCap < w.amount
    case DuplicateWithdrawal =>
      g.duplicateWindow > 0
      && Repeated(s.withdrawals, w.user, w.amount, w.bankAccount, g.now, g.duplicateWindow)
    case DailyLimitExceeded =>
      w.kind == ByDriver && 0 < g.dailyLimit < Total(Today(s.withdrawals, w.user, g.now)) + w.amount
    case DuplicateRow => Taken(s.withdrawals, id, w.reference)
    case InsufficientFunds => Quotes.BalanceOf(s, w.user) < w.amount
    case _ => false
  }

  /**
   * A withdrawal is created if and only if nothing forbids it, and is refused for the first reason that does. Created,
   * it is exactly the row asked for, and its money has left the wallet.
   */
  lemma WithdrawalIsCreatedIff(s: Store, id: Id, w: Withdrawal, g: Guard)
    requires LedgerIntegrity.Inv(s)
    ensures var (s', o) := CreateWithdrawal(s, id, w, g);
      && (o.Applied? <==> forall i :: 0 <= i < |REASONS| ==> !Forbids(s, id, w, g, REASONS[i]))
      && (forall i :: 0 <= i < |REASONS| ==>
            (o == Refused(REASONS[i]) <==>
             Forbids(s, id, w, g, REASONS[i]) && forall j :: 0 <= j < i ==> !Forbids(s, id, w, g, REASONS[j])))
      && (!o.Applied? ==> s' == s)
      && (o.Applied? ==>
            && id !in s.withdrawals && s'.withdrawals == s.withdrawals[id := w]
            && s'.topups == s.topups && s'.holds == s.holds && OnlyBalance(s, s', w.user, -w.amount))
  {
    hide LedgerIntegrity.Inv, CreateWithdrawal, OnlyBalance, Forbids;
    assert REASONS[0] == NotFound && REASONS[1] == WalletFrozen && REASONS[2] == OverCooldownCap
           && REASONS[3] == DuplicateWithdrawal && REASONS[4] == DailyLimitExceeded && REASONS[5] == DuplicateRow
           && REASONS[6] == InsufficientFunds;
    FirstReasonCounts(s, id, w, g);
  }

  lemma FirstReasonCounts(s: Store, id: Id, w: Withdrawal, g: Guard)
    requires LedgerIntegrity.Inv(s)
    ensures var (s', o) := CreateWithdrawal(s, id, w, g);
      if Forbids(s, id, w, g, NotFound) then s' == s && o == Refused(NotFound)
      else if Forbids(s, id, w, g, WalletFrozen) then s' == s && o == Refused(WalletFrozen)
      else if Forbids(s, id, w, g, OverCooldownCap) then s' == s && o == Refused(OverCooldownCap)
      else if Forbids(s, id, w, g, DuplicateWithdrawal) then s' == s && o == Refused(DuplicateWithdrawal)
      else if Forbids(s, id, w, g, DailyLimitExceeded) then s' == s && o == Refused(DailyLimitExceeded)
      else if Forbids(s, id, w, g, DuplicateRow) then s' == s && o == Refused(DuplicateRow)
      else if Forbids(s, id, w, g, InsufficientFunds) then s' == s && o == Refused(InsufficientFunds)
      else
        && o.Applied? && id !in s.withdrawals && s'.withdrawals == s.withdrawals[id := w]
        && s'.topups == s.topups && s'.holds == s.holds && s'.wallets.Keys == s.wallets.Keys
        && OnlyBalance(s, s', w.user, -w.amount)
  {
    TodayIs(s.withdrawals, w.user, g.now);
    RepeatedIs(s.withdrawals, w, g.now, g.duplicateWindow);
    TakenIs(s.withdrawals, id, w.reference);
    hide LedgerIntegrity.Inv, Post, OnlyBalance, UsedSince, Today, Repeats, Repeated, WithReference, Taken;
    if w.user in s.wallets && id !in s.withdrawals {
      LockKeyIsNew(s, id);
      LedgerLaws.PaymentPosts(s, LockKey(id), w.amount, w.user, PayoutPending);
      if CreateWithdrawal(s, id, w, g).1.Applied? {
        BalanceSet(s, CreateWithdrawal(s, id, w, g).0, w.user, -w.amount);
      }
    }
  }

  lemma LockKeyIsNew(s: Store, id: Id)
    requires LedgerIntegrity.Inv(s) && id !in s.withdrawals
    ensures LockKey(id) !in s.keys
  {
    KeyIsNew(s, LockKey(id));
  }

  /** Where a withdrawal stands when its row says so: paid from an unfinished and reviewed row only. */
  lemma PayoutIsBookedIff(s: Store, id: Id, flwKnown: bool)
    requires LedgerIntegrity.Inv(s)
    ensures var (s', o) := FinalizeSuccess(s, id, flwKnown);
      && (o == Refused(NotFound) <==> id !in s.withdrawals)
      && (o.NoOp? <==> id in s.withdrawals && s.withdrawals[id].status == Successful)
      && (o == Refused(InvalidTransition) <==>
          id in s.withdrawals && s.withdrawals[id].status in {Failed, Rejected, PendingReview})
      && (o.Applied? <==> id in s.withdrawals && s.withdrawals[id].status in {Queued, Processing, NeedsAttention}
                          && s.withdrawals[id].amount == s.withdrawals[id].net + s.withdrawals[id].fee)
      && (o == Refused(Unbalanced) <==>
          id in s.withdrawals && s.withdrawals[id].status in {Queued, Processing, NeedsAttention}
          && s.withdrawals[id].amount != s.withdrawals[id].net + s.withdrawals[id].fee)
      && (!o.Applied? ==> s' == s)
      && (o.Applied? ==>
            var w := s.withdrawals[id];
            && s' == s.(entries := s'.entries, keys := s'.keys, withdrawals := s'.withdrawals)
            && s'.withdrawals ==
               s.withdrawals[id := w.(status := Successful, flwKnown := w.flwKnown || flwKnown)])
  {
    hide LedgerIntegrity.Inv, Post;
    if id in s.withdrawals && s.withdrawals[id].status in {Queued, Processing, NeedsAttention} {
      var w := s.withdrawals[id];
      PayoutKeysAreNew(s, id);
      OutOfPool(s, PaidKey(id), w.amount, w.net, w.fee);
    }
  }

  lemma PayoutKeysAreNew(s: Store, id: Id)
    requires LedgerIntegrity.Inv(s) && id in s.withdrawals && !Terminal(s.withdrawals[id].status)
    ensures PaidKey(id) !in s.keys && ReturnKey(id) !in s.keys && s.withdrawals[id].user in s.wallets
  {
    KeyIsNew(s, PaidKey(id));
    KeyIsNew(s, ReturnKey(id));
    assert LedgerIntegrity.RowsValid(s.wallets.Keys, s.withdrawals);
  }

  /** Returned, in full and to the wallet it came from, from any unfinished row. */
  lemma PayoutIsReturnedIff(s: Store, id: Id, final: WithdrawalStatus)
    requires LedgerIntegrity.Inv(s) && (id in s.withdrawals ==> s.withdrawals[id].amount >= 0)
    ensures var (s', o) := FinalizeFailure(s, id, final);
      && (o == Refused(BadFinalStatus) <==> final !in {Failed, Rejected})
      && (o == Refused(NotFound) <==> final in {Failed, Rejected} && id !in s.withdrawals)
      && (o.NoOp? <==> final in {Failed, Rejected} && id in s.withdrawals
                       && s.withdrawals[id].status in {Failed, Rejected})
      && (o == Refused(InvalidTransition) <==>
          final in {Failed, Rejected} && id in s.withdrawals && s.withdrawals[id].status == Successful)
      && (o.Applied? <==> final in {Failed, Rejected} && id in s.withdrawals
                          && s.withdrawals[id].status in {PendingReview, Queued, Processing, NeedsAttention})
      && (!o.Applied? ==> s' == s)
      && (o.Applied? ==>
            var w := s.withdrawals[id];
            && s'.topups == s.topups && s'.holds == s.holds && OnlyBalance(s, s', w.user, w.amount)
            && s'.withdrawals == s.withdrawals[id := w.(status := final)])
  {
    hide LedgerIntegrity.Inv, Post, OnlyBalance;
    if id in s.withdrawals && !Terminal(s.withdrawals[id].status) && final in {Failed, Rejected} {
      var w := s.withdrawals[id];
      PayoutKeysAreNew(s, id);
      Quotes.BalanceNotNegative(s, w.user);
      LedgerLaws.TransferPosts(s, ReturnKey(id), w.amount, w.user, PayoutPending);
      BalanceSet(s, FinalizeFailure(s, id, final).0, w.user, w.amount);
    }
  }
}
