/** Which accounts each ledger transaction moves money between; every other account keeps its balance. */
module LedgerMoves {
  import opened Wrappers
  import opened Ledger
  import opened LedgerIntegrity

  /** Amount goes from one account to another and no other account changes. */
  ghost predicate Moves(s: Store, s': Store, source: Account, target: Account, amount: int) {
    forall a :: OnAccount(s'.entries, a) ==
      OnAccount(s.entries, a) + (if a == target then amount else 0) - (if a == source then amount else 0)
  }

  /** A movement over three accounts. */
  ghost predicate Splits(s: Store, s': Store, source: Account, x: Account, toX: int, y: Account, toY: int) {
    forall a :: OnAccount(s'.entries, a) ==
      OnAccount(s.entries, a) + (if a == x then toX else 0) + (if a == y then toY else 0)
        - (if a == source then toX + toY else 0)
  }

  lemma PostMoves(s: Store, key: Key, ps: seq<Posting>, locked: set<Id>, a: Account)
    requires Post(s, key, ps, locked).Success?
    ensures OnAccount(Post(s, key, ps, locked).value.entries, a) == OnAccount(s.entries, a) + Change(ps, a)
  {
    PostingsMoveAccounts(s.wallets, s.entries, key, ps, locked, a);
  }

  lemma ChangeOfOne(p: Posting, a: Account)
    ensures Change([p], a) == Part(p, a)
  {
    assert [p][1..] == [];
  }

  lemma ChangeOf(p: Posting, q: Posting, r: Posting, a: Account)
    ensures Change([p, q], a) == Part(p, a) + Part(q, a)
    ensures Change([p, q, r], a) == Part(p, a) + Part(q, a) + Part(r, a)
  {
    var (one, last) := ([q], [r]);
    var (two, tail) := ([p, q], [q, r]);
    ChangeOfOne(q, a);
    ChangeOfOne(r, a);
    assert two[1..] == one && tail[1..] == last && [p, q, r][1..] == tail;
    assert Change(tail, a) == Part(q, a) + Part(r, a);
  }

  lemma TwoPostingsMove(s: Store, key: Key, p: Posting, q: Posting, locked: set<Id>)
    requires Post(s, key, [p, q], locked).Success? && p.amount == -q.amount
    ensures Moves(s, Post(s, key, [p, q], locked).value, p.account, q.account, q.amount)
  {
    hide Post;
    forall a ensures OnAccount(Post(s, key, [p, q], locked).value.entries, a) ==
                     OnAccount(s.entries, a) + Part(p, a) + Part(q, a) {
      PostMoves(s, key, [p, q], locked, a);
      ChangeOf(p, q, q, a);
    }
  }

  lemma ThreePostingsMove(s: Store, key: Key, p: Posting, q: Posting, r: Posting, locked: set<Id>)
    requires Post(s, key, [p, q, r], locked).Success? && p.amount == -q.amount - r.amount
    ensures Splits(s, Post(s, key, [p, q, r], locked).value, p.account, q.account, q.amount, r.account, r.amount)
  {
    hide Post;
    forall a ensures OnAccount(Post(s, key, [p, q, r], locked).value.entries, a) ==
                     OnAccount(s.entries, a) + Part(p, a) + Part(q, a) + Part(r, a) {
      PostMoves(s, key, [p, q, r], locked, a);
      ChangeOf(p, q, r, a);
    }
  }

  lemma BalancedThree(s: Store, key: Key, p: Posting, q: Posting, r: Posting, locked: set<Id>)
    requires Post(s, key, [p, q, r], locked).Success?
    ensures p.amount == -q.amount - r.amount
  {
    hide PostingSum, ApplyPostings;
    SumOfThree(p, q, r);
  }

  // ---- who pays whom ----

  /** A hold is taken from the passenger's wallet into escrow. */
  lemma HoldMoves(s: Store, trip: Id, payer: Id, payee: Id, driver: Id, amount: int)
    ensures var (s', o) := HoldEscrow(s, trip, payer, payee, driver, amount);
      if o.Applied? then Moves(s, s', WalletOf(payer), Escrow, amount) else s'.entries == s.entries
  {
    hide Moves, ApplyPostings, PostingSum;
    var (s', o) := HoldEscrow(s, trip, payer, payee, driver, amount);
    if o.Applied? {
      var h := Reopened(s, trip, payer, payee, driver, amount);
      var (p, q) := (Posting(WalletOf(payer), -amount), Posting(Escrow, amount));
      TwoPostingsMove(EnsureWallet(s, payer), HoldKey(trip, h.version), p, q, {payer});
      SameLogMoves(EnsureWallet(s, payer), s,
                   Post(EnsureWallet(s, payer), HoldKey(trip, h.version), [p, q], {payer}).value, s',
                   WalletOf(payer), Escrow, amount);
    }
  }

  lemma SameLogMoves(t: Store, s: Store, t': Store, s': Store, source: Account, target: Account, amount: int)
    requires Moves(t, t', source, target, amount) && t.entries == s.entries && t'.entries == s'.entries
    ensures Moves(s, s', source, target, amount)
  {
  }

  lemma SameLogSplits(t: Store, s: Store, t': Store, s': Store, source: Account, x: Account, toX: int, y: Account,
                      toY: int)
    requires Splits(t, t', source, x, toX, y, toY) && t.entries == s.entries && t'.entries == s'.entries
    ensures Splits(s, s', source, x, toX, y, toY)
  {
  }

  /**
   * A release goes from escrow to the driver's wallet, a refund back to the passenger's: the whole fare, and to
   * nobody else.
   */
  lemma SettlementMoves(s: Store, trip: Id, release: bool)
    ensures var (s', o) := SettleEscrow(s, trip, release);
      if o.Applied? then
        && trip in s.holds
        && Moves(s, s', Escrow, WalletOf(if release then s.holds[trip].payee else s.holds[trip].payer),
                 s.holds[trip].amount)
      else s'.entries == s.entries
  {
    hide Moves, ApplyPostings, PostingSum;
    var (s', o) := SettleEscrow(s, trip, release);
    if o.Applied? {
      var h := s.holds[trip];
      var user := if release then h.payee else h.payer;
      var key := if release then ReleaseKey(trip, h.version) else RefundKey(trip, h.version);
      var (p, q) := (Posting(Escrow, -h.amount), Posting(WalletOf(user), h.amount));
      var s1 := EnsureWallet(s, user);
      TwoPostingsMove(s1, key, p, q, {user});
      SameLogMoves(s1, s, Post(s1, key, [p, q], {user}).value, s', Escrow, WalletOf(user), h.amount);
    }
  }

  /** A new withdrawal locks its amount: from the wallet into payouts in flight. */
  lemma CreationMoves(s: Store, id: Id, w: Withdrawal, g: Guard)
    ensures var (s', o) := CreateWithdrawal(s, id, w, g);
      if o.Applied? then Moves(s, s', WalletOf(w.user), PayoutPending, w.amount) else s'.entries == s.entries
  {
    hide Moves, ApplyPostings, PostingSum;
    var (s', o) := CreateWithdrawal(s, id, w, g);
    if o.Applied? {
      var (p, q) := (Posting(WalletOf(w.user), -w.amount), Posting(PayoutPending, w.amount));
      TwoPostingsMove(s, LockKey(id), p, q, {w.user});
      SameLogMoves(s, s, Post(s, LockKey(id), [p, q], {w.user}).value, s', WalletOf(w.user), PayoutPending, w.amount);
    }
  }

  /** A failed or rejected withdrawal goes back, in full, to the wallet it came from. */
  lemma ReturnMoves(s: Store, id: Id, final: WithdrawalStatus)
    ensures var (s', o) := FinalizeFailure(s, id, final);
      if o.Applied? then
        && id in s.withdrawals
        && Moves(s, s', PayoutPending, WalletOf(s.withdrawals[id].user), s.withdrawals[id].amount)
      else s'.entries == s.entries
  {
    hide Moves, ApplyPostings, PostingSum;
    var (s', o) := FinalizeFailure(s, id, final);
    if o.Applied? {
      var w := s.withdrawals[id];
      var (p, q) := (Posting(PayoutPending, -w.amount), Posting(WalletOf(w.user), w.amount));
      TwoPostingsMove(s, ReturnKey(id), p, q, {w.user});
      SameLogMoves(s, s, Post(s, ReturnKey(id), [p, q], {w.user}).value, s', PayoutPending, WalletOf(w.user), w.amount);
    }
  }

  /** A paid withdrawal leaves the platform as what the bank got and the fee; no wallet is touched. */
  lemma PayoutMoves(s: Store, id: Id, flwKnown: bool)
    ensures var (s', o) := FinalizeSuccess(s, id, flwKnown);
      if o.Applied? then
        && id in s.withdrawals && s'.wallets == s.wallets
        && s.withdrawals[id].amount == s.withdrawals[id].net + s.withdrawals[id].fee
        && Splits(s, s', PayoutPending, ExternalOut, s.withdrawals[id].net, Fees, s.withdrawals[id].fee)
      else s'.entries == s.entries
  {
    hide Splits, ApplyPostings, PostingSum;
    var (s', o) := FinalizeSuccess(s, id, flwKnown);
    if o.Applied? {
      var w := s.withdrawals[id];
      var (p, q, r) := (Posting(PayoutPending, -w.amount), Posting(ExternalOut, w.net), Posting(Fees, w.fee));
      BalancedThree(s, PaidKey(id), p, q, r, {});
      ThreePostingsMove(s, PaidKey(id), p, q, r, {});
      SameLogSplits(s, s, Post(s, PaidKey(id), [p, q, r], {}).value, s', PayoutPending, ExternalOut, w.net, Fees,
                    w.fee);
      NoWalletPosting(s, PaidKey(id), p, q, r);
    }
  }

  lemma NoWalletPosting(s: Store, key: Key, p: Posting, q: Posting, r: Posting)
    requires Post(s, key, [p, q, r], {}).Success? && !p.account.WalletOf? && !q.account.WalletOf?
    requires !r.account.WalletOf?
    ensures Post(s, key, [p, q, r], {}).value.wallets == s.wallets
  {
    var es := s.entries + [Entry(key, p.account, p.amount, None)];
    var fs := es + [Entry(key, q.account, q.amount, None)];
    var gs := fs + [Entry(key, r.account, r.amount, None)];
    assert [p, q, r][1..] == [q, r] && [q, r][1..] == [r] && [r][1..] == [];
    assert ApplyPostings(s.wallets, fs, key, [r], {}) == Success((s.wallets, gs));
    assert ApplyPostings(s.wallets, es, key, [q, r], {}) == Success((s.wallets, gs));
  }

  /** A credited top-up comes in as what the payer paid and splits into the credit and the gateway's fee. */
  lemma CreditMoves(s: Store, id: Id, paid: int, credit: int)
    ensures var (s', o) := CreditTopup(s, id, paid, credit);
      if o.Applied? then
        && id in s.topups
        && Splits(s, s', ExternalIn, WalletOf(s.topups[id].user), credit, Fees, paid - credit)
      else s'.entries == s.entries
  {
    hide Splits, ApplyPostings, PostingSum;
    var (s', o) := CreditTopup(s, id, paid, credit);
    if o.Applied? {
      var user := s.topups[id].user;
      var s1 := EnsureWallet(s, user);
      var (p, q, r) := (Posting(ExternalIn, -paid), Posting(WalletOf(user), credit), Posting(Fees, paid - credit));
      ThreePostingsMove(s1, TopupKey(id), p, q, r, {user});
      SameLogSplits(s1, s, Post(s1, TopupKey(id), [p, q, r], {user}).value, s', ExternalIn, WalletOf(user), credit,
                    Fees, paid - credit);
    }
  }
}
