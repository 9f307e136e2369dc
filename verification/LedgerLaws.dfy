/** What the ledger invariant means for a user's money, over whole runs of transactions. */
module LedgerLaws {
  import opened Wrappers
  import opened Totals
  import opened Ledger
  import opened LedgerIntegrity

  ghost predicate AllLegal(ops: seq<Op>) {
    forall i :: 0 <= i < |ops| ==> Legal(ops[i])
  }

  // ---- conservation ----

  lemma {:induction false} AccountsPartitionTheLog(es: seq<Entry>)
    ensures AllEntries(es) == OnWallets(es) + OnAccount(es, Escrow) + OnAccount(es, PayoutPending)
                              + OnAccount(es, ExternalIn) + OnAccount(es, ExternalOut) + OnAccount(es, Fees)
  {
    if es != [] {
      AccountsPartitionTheLog(es[..|es| - 1]);
    }
  }

  /**
   * Every kobo received for a credited top-up is in a wallet, held for a trip, locked for a payout in flight,
   * paid out to a bank, or a gateway fee.
   */
  lemma MoneyIsConserved(ops: seq<Op>)
    requires AllLegal(ops)
    ensures var s := Run(EMPTY, ops);
      Total(ReceivedAmounts(s.topups)) == Total(Balances(s.wallets)) + Total(HeldAmounts(s.holds))
        + Total(InFlightAmounts(s.withdrawals)) + Total(PaidNets(s.withdrawals)) + OnAccount(s.entries, Fees)
  {
    RunKeepsInv(ops);
    AccountsPartitionTheLog(Run(EMPTY, ops).entries);
  }

  // ---- settlement of a hold ----

  /** No version of a hold is ever both released and refunded, and only the last version can have been released. */
  lemma VersionSettledOnce(ops: seq<Op>, trip: Id, version: int)
    requires AllLegal(ops)
    ensures var s := Run(EMPTY, ops);
      && !(ReleaseKey(trip, version) in s.keys && RefundKey(trip, version) in s.keys)
      && (HoldKey(trip, version) in s.keys <==> trip in s.holds && 1 <= version <= s.holds[trip].version)
      && (HoldKey(trip, version) in s.keys && version < s.holds[trip].version ==> RefundKey(trip, version) in s.keys)
  {
    var s := Run(EMPTY, ops);
    RunKeepsInv(ops);
    assert ReleaseKey(trip, version) in s.keys <==>
      Accounted(ReleaseKey(trip, version), s.topups, s.holds, s.withdrawals);
    assert RefundKey(trip, version) in s.keys <==>
      Accounted(RefundKey(trip, version), s.topups, s.holds, s.withdrawals);
    assert HoldKey(trip, version) in s.keys <==> Accounted(HoldKey(trip, version), s.topups, s.holds, s.withdrawals);
  }

  // ---- withdrawals ----

  predicate WritesRows(op: Op) {
    op.OpCreateWithdrawal? || op.OpTransition? || op.OpFinalizeSuccess? || op.OpFinalizeFailure?
  }

  lemma CreditLeavesRows(s: Store, id: Id, paid: int, credit: int)
    ensures CreditTopup(s, id, paid, credit).0.withdrawals == s.withdrawals
  {
    hide ApplyPostings, PostingSum;
  }

  lemma HoldLeavesRows(s: Store, trip: Id, payer: Id, payee: Id, driver: Id, amount: int)
    ensures HoldEscrow(s, trip, payer, payee, driver, amount).0.withdrawals == s.withdrawals
  {
    hide ApplyPostings, PostingSum;
  }

  lemma SettleLeavesRows(s: Store, trip: Id, release: bool)
    ensures SettleEscrow(s, trip, release).0.withdrawals == s.withdrawals
  {
    hide ApplyPostings, PostingSum;
  }

  /** Only four transactions write withdrawals. */
  lemma OthersLeaveRows(s: Store, op: Op)
    requires !WritesRows(op)
    ensures Perform(s, op).0.withdrawals == s.withdrawals
  {
    hide CreditTopup, HoldEscrow, SettleEscrow;
    match op {
      case OpCreditTopup(id, paid, credit) => CreditLeavesRows(s, id, paid, credit);
      case OpHoldEscrow(trip, payer, payee, driver, amount) => HoldLeavesRows(s, trip, payer, payee, driver, amount);
      case OpReleaseEscrow(trip) => SettleLeavesRows(s, trip, true);
      case OpRefundEscrow(trip) => SettleLeavesRows(s, trip, false);
      case _ =>
    }
  }

  /** Everything about a withdrawal but its progress stays, and nothing at all once it is final. */
  predicate SameRow(w: Withdrawal, w': Withdrawal) {
    && w' == w.(status := w'.status, attempts := w'.attempts, flwKnown := w'.flwKnown)
    && (Terminal(w.status) ==> w' == w)
  }

  ghost predicate SameRows(ws: map<Id, Withdrawal>, ws': map<Id, Withdrawal>) {
    forall id :: id in ws ==> id in ws' && SameRow(ws[id], ws'[id])
  }

  lemma TransitionKeepsRows(s: Store, id: Id, from: set<WithdrawalStatus>, to: WithdrawalStatus, flwKnown: bool)
    requires Successful !in from && Failed !in from && Rejected !in from
    ensures var ws := TransitionWithdrawal(s, id, from, to, flwKnown).0.withdrawals;
      SameRows(s.withdrawals, ws) && ws.Keys == s.withdrawals.Keys
  {
  }

  lemma SuccessKeepsRows(s: Store, id: Id, flwKnown: bool)
    ensures var ws := FinalizeSuccess(s, id, flwKnown).0.withdrawals;
      SameRows(s.withdrawals, ws) && ws.Keys == s.withdrawals.Keys
  {
    hide ApplyPostings, PostingSum;
  }

  lemma FailureKeepsRows(s: Store, id: Id, final: WithdrawalStatus)
    ensures var ws := FinalizeFailure(s, id, final).0.withdrawals;
      SameRows(s.withdrawals, ws) && ws.Keys == s.withdrawals.Keys
  {
    hide ApplyPostings, PostingSum;
  }

  lemma CreateKeepsRows(s: Store, id: Id, w: Withdrawal, g: Guard)
    ensures var (s', o) := CreateWithdrawal(s, id, w, g);
      if o.Applied? then id !in s.withdrawals && s'.withdrawals == s.withdrawals[id := w]
        else s'.withdrawals == s.withdrawals
  {
    hide ApplyPostings, PostingSum;
  }

  /** Rows are only added, one at a time, and keep all their terms. */
  lemma PerformKeepsRows(s: Store, op: Op)
    requires Legal(op)
    ensures SameRows(s.withdrawals, Perform(s, op).0.withdrawals)
    ensures !(op.OpCreateWithdrawal? && Perform(s, op).1.Applied?) ==>
      Perform(s, op).0.withdrawals.Keys == s.withdrawals.Keys
  {
    hide CreateWithdrawal, TransitionWithdrawal, FinalizeSuccess, FinalizeFailure;
    match op {
      case OpCreateWithdrawal(id, w, guard) => CreateKeepsRows(s, id, w, guard);
      case OpTransition(id, from, to, flwKnown) => TransitionKeepsRows(s, id, from, to, flwKnown);
      case OpFinalizeSuccess(id, flwKnown) => SuccessKeepsRows(s, id, flwKnown);
      case OpFinalizeFailure(id, final) => FailureKeepsRows(s, id, final);
      case _ => hide Perform; OthersLeaveRows(s, op);
    }
  }

  /** A final status stays, whatever transaction comes next; the row's money and reference never change. */
  lemma TerminalIsFinal(s: Store, op: Op, id: Id)
    requires Legal(op) && id in s.withdrawals
    ensures var s' := Perform(s, op).0;
      && id in s'.withdrawals
      && (Terminal(s.withdrawals[id].status) ==> s'.withdrawals[id] == s.withdrawals[id])
      && s'.withdrawals[id].amount == s.withdrawals[id].amount
      && s'.withdrawals[id].reference == s.withdrawals[id].reference
      && s'.withdrawals[id].user == s.withdrawals[id].user
      && s'.withdrawals[id].createdAt == s.withdrawals[id].createdAt
      && s'.withdrawals[id].kind == s.withdrawals[id].kind
  {
    hide Perform;
    PerformKeepsRows(s, op);
  }

  // ---- the rolling daily limit ----

  /** Counts towards the 24 hours that end at t. */
  predicate InWindow(w: Withdrawal, user: Id, t: int) {
    w.user == user && w.kind.ByDriver? && t - DAY <= w.createdAt <= t && Counts(w)
  }

  function Window(ws: map<Id, Withdrawal>, user: Id, t: int): map<Id, int> {
    map id | id in ws :: if InWindow(ws[id], user, t) then ws[id].amount else 0
  }

  /** No 24-hour window of any user holds more than the limit. */
  ghost predicate WithinLimit(ws: map<Id, Withdrawal>, limit: int) {
    && (forall id :: id in ws ==> ws[id].amount >= 0)
    && (forall user, t :: Total(Window(ws, user, t)) <= limit)
  }

  /**
   * What the wallet service passes: a positive amount, the configured limit, and a guard taken before the row was
   * created.
   */
  predicate Guarded(op: Op, limit: int) {
    op.OpCreateWithdrawal? ==>
      && op.w.amount >= 0
      && (op.w.kind.ByDriver? ==> op.guard.dailyLimit == limit && op.guard.now <= op.w.createdAt)
  }

  /** Rows that stay as they were, or stop counting, never push a window over the limit. */
  lemma FewerRowsStayWithinLimit(ws: map<Id, Withdrawal>, ws': map<Id, Withdrawal>, limit: int)
    requires WithinLimit(ws, limit) && ws'.Keys == ws.Keys
    requires forall id :: id in ws ==>
      && ws'[id].amount == ws[id].amount && ws'[id].user == ws[id].user && ws'[id].kind == ws[id].kind
      && ws'[id].createdAt == ws[id].createdAt && (Counts(ws'[id]) ==> Counts(ws[id]))
    ensures WithinLimit(ws', limit)
  {
    forall user, t ensures Total(Window(ws', user, t)) <= limit {
      TotalMonotone(Window(ws', user, t), Window(ws, user, t));
    }
  }

  /** The check at creation time is enough for every window the new row falls into, past or future. */
  lemma NewRowStaysWithinLimit(ws: map<Id, Withdrawal>, id: Id, w: Withdrawal, g: Guard, limit: int)
    requires WithinLimit(ws, limit) && id !in ws && w.amount >= 0
    requires w.kind.ByDriver? ==> g.now <= w.createdAt && Total(UsedSince(ws, w.user, g.now - DAY)) + w.amount <= limit
    ensures WithinLimit(ws[id := w], limit)
  {
    var ws' := ws[id := w];
    forall user, t ensures Total(Window(ws', user, t)) <= limit {
      var part := if InWindow(w, user, t) then w.amount else 0;
      assert Window(ws', user, t) == Window(ws, user, t)[id := part];
      TotalUpdate(Window(ws, user, t), id, part);
      if InWindow(w, user, t) {
        TotalMonotone(Window(ws, user, t), UsedSince(ws, user, g.now - DAY));
      }
    }
  }

  lemma PerformKeepsLimit(s: Store, op: Op, limit: int)
    requires limit > 0 && WithinLimit(s.withdrawals, limit) && Legal(op) && Guarded(op, limit)
    ensures WithinLimit(Perform(s, op).0.withdrawals, limit)
  {
    hide WithinLimit, Perform;
    PerformKeepsRows(s, op);
    if op.OpCreateWithdrawal? && Perform(s, op).1.Applied? {
      CreationWasWithinLimit(s, op);
      NewRowStaysWithinLimit(s.withdrawals, op.id, op.w, op.guard, limit);
    } else {
      FewerRowsStayWithinLimit(s.withdrawals, Perform(s, op).0.withdrawals, limit);
    }
  }

  lemma CreationWasWithinLimit(s: Store, op: Op)
    requires op.OpCreateWithdrawal? && Perform(s, op).1.Applied?
    ensures op.id !in s.withdrawals && Perform(s, op).0.withdrawals == s.withdrawals[op.id := op.w]
    ensures op.guard.dailyLimit > 0 && op.w.kind.ByDriver? ==>
      Total(UsedSince(s.withdrawals, op.w.user, op.guard.now - DAY)) + op.w.amount <= op.guard.dailyLimit
  {
    hide ApplyPostings, PostingSum;
  }

  /** Over any run, no user's live driver withdrawals of any 24 hours exceed the daily limit. */
  lemma DailyLimitHolds(ops: seq<Op>, limit: int, user: Id, t: int)
    requires limit > 0 && AllLegal(ops)
    requires forall i :: 0 <= i < |ops| ==> Guarded(ops[i], limit)
    ensures Total(Window(Run(EMPTY, ops).withdrawals, user, t)) <= limit
  {
    RunStaysWithinLimit(ops, limit);
  }

  lemma {:induction false} RunStaysWithinLimit(ops: seq<Op>, limit: int)
    requires limit > 0 && AllLegal(ops)
    requires forall i :: 0 <= i < |ops| ==> Guarded(ops[i], limit)
    ensures WithinLimit(Run(EMPTY, ops).withdrawals, limit)
  {
    if ops == [] {
      assert forall user, t :: Window(map[], user, t) == map[];
    } else {
      RunStaysWithinLimit(ops[..|ops| - 1], limit);
      PerformKeepsLimit(Run(EMPTY, ops[..|ops| - 1]), ops[|ops| - 1], limit);
    }
  }

  // ---- transactions between a wallet and a pool go through ----

  /** Out of a wallet: all it takes is the money. */
  lemma PaymentPosts(s: Store, key: Key, amount: int, user: Id, pool: Account)
    requires key !in s.keys && user in s.wallets && !pool.WalletOf?
    ensures var r := Post(s, key, [Posting(WalletOf(user), -amount), Posting(pool, amount)], {user});
      if s.wallets[user].balance < amount then r == Failure(InsufficientFunds)
      else r.Success? && r.value == s.(keys := s.keys + {key}, entries := r.value.entries, wallets :=
                                       s.wallets[user := s.wallets[user].(balance := s.wallets[user].balance - amount)])
  {
    var ps := [Posting(WalletOf(user), -amount), Posting(pool, amount)];
    var deposit := ps[1..];
    SumOfTwo(ps[0], ps[1]);
    hide PostingSum;
    assert deposit == [ps[1]] && deposit[1..] == [];
    var balance := s.wallets[user].balance - amount;
    if balance >= 0 {
      var ws := s.wallets[user := s.wallets[user].(balance := balance)];
      var es := s.entries + [Entry(key, WalletOf(user), -amount, Some(balance))];
      assert ApplyPostings(ws, es, key, deposit, {user}) == Success((ws, es + [Entry(key, pool, amount, None)]));
      assert ApplyPostings(s.wallets, s.entries, key, ps, {user}) == ApplyPostings(ws, es, key, deposit, {user});
    }
  }

  /** Into a wallet. */
  lemma TransferPosts(s: Store, key: Key, amount: int, user: Id, pool: Account)
    requires key !in s.keys && user in s.wallets && s.wallets[user].balance + amount >= 0 && !pool.WalletOf?
    ensures var r := Post(s, key, [Posting(pool, -amount), Posting(WalletOf(user), amount)], {user});
      r.Success? && r.value == s.(keys := s.keys + {key}, entries := r.value.entries, wallets :=
                                  s.wallets[user := s.wallets[user].(balance := s.wallets[user].balance + amount)])
  {
    var ps := [Posting(pool, -amount), Posting(WalletOf(user), amount)];
    var credit := ps[1..];
    SumOfTwo(ps[0], ps[1]);
    hide PostingSum;
    assert credit == [ps[1]] && credit[1..] == [];
    var balance := s.wallets[user].balance + amount;
    var ws := s.wallets[user := s.wallets[user].(balance := balance)];
    var es := s.entries + [Entry(key, pool, -amount, None)];
    assert ApplyPostings(s.wallets, es, key, credit, {user}) ==
      Success((ws, es + [Entry(key, WalletOf(user), amount, Some(balance))]));
    assert ApplyPostings(s.wallets, s.entries, key, ps, {user}) == ApplyPostings(s.wallets, es, key, credit, {user});
  }

  /** A withdrawal without limits succeeds if the wallet has the money and is not frozen against it. */
  lemma UnguardedCreateSucceeds(s: Store, id: Id, w: Withdrawal, now: int)
    requires Inv(s) && id !in s.withdrawals && WithReference(s.withdrawals, w.reference) == {}
    requires w.user in s.wallets && s.wallets[w.user].balance >= w.amount
    requires w.kind.ByAppeal? || s.wallets[w.user].freeze.NotFrozen?
    ensures var (s', o) := CreateWithdrawal(s, id, w, Guard(0, 0, now, 0));
      o.Applied? && s'.withdrawals == s.withdrawals[id := w]
  {
    hide ApplyPostings, PostingSum, Post, Books, Pools, RowsValid;
    assert KeysAgree(s.keys, s.topups, s.holds, s.withdrawals);
    assert LockKey(id) !in s.keys;
    PaymentPosts(s, LockKey(id), w.amount, w.user, PayoutPending);
    PostLeavesRows(s, LockKey(id), [Posting(WalletOf(w.user), -w.amount), Posting(PayoutPending, w.amount)], {w.user});
  }

  lemma PostLeavesRows(s: Store, key: Key, ps: seq<Posting>, locked: set<Id>)
    ensures Post(s, key, ps, locked).Success? ==> Post(s, key, ps, locked).value.withdrawals == s.withdrawals
  {
  }
}
