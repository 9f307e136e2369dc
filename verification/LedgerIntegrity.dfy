/**
 * The run-time self-check of the ledger, turned into an invariant: no run of ledger
 * transactions, committed or rolled back, can make it report a problem.
 */
module LedgerIntegrity {
  import opened Wrappers
  import opened Totals
  import opened Ledger

  // ---- sums over the entry log ----

  /** The sum of all entries on one account. */
  function OnAccount(es: seq<Entry>, a: Account): int {
    if es == [] then 0
    else OnAccount(es[..|es| - 1], a) + (if es[|es| - 1].account == a then es[|es| - 1].amount else 0)
  }

  /** The sum of all entries on wallet accounts, whoever owns them. */
  function OnWallets(es: seq<Entry>): int {
    if es == [] then 0
    else OnWallets(es[..|es| - 1]) + (if es[|es| - 1].account.WalletOf? then es[|es| - 1].amount else 0)
  }

  /** The sum of the entries of one ledger transaction. */
  function OfTransaction(es: seq<Entry>, k: Key): int {
    if es == [] then 0
    else OfTransaction(es[..|es| - 1], k) + (if es[|es| - 1].key == k then es[|es| - 1].amount else 0)
  }

  function AllEntries(es: seq<Entry>): int {
    if es == [] then 0 else AllEntries(es[..|es| - 1]) + es[|es| - 1].amount
  }

  /** The same sum over a list of postings still to be written. */
  function Change(ps: seq<Posting>, a: Account): int {
    if ps == [] then 0 else (if ps[0].account == a then ps[0].amount else 0) + Change(ps[1..], a)
  }

  // ---- row-by-row views that the self-check sums ----

  function Balances(ws: map<Id, WalletRow>): map<Id, int> {
    map u | u in ws :: ws[u].balance
  }

  function HeldAmount(h: Hold): int {
    if Live(h) then h.amount else 0
  }

  function HeldAmounts(hs: map<Id, Hold>): map<Id, int> {
    map t | t in hs :: HeldAmount(hs[t])
  }

  function InFlightAmount(w: Withdrawal): int {
    if Terminal(w.status) then 0 else w.amount
  }

  function InFlightAmounts(ws: map<Id, Withdrawal>): map<Id, int> {
    map id | id in ws :: InFlightAmount(ws[id])
  }

  function PaidNet(w: Withdrawal): int {
    if w.status.Successful? then w.net else 0
  }

  function PaidNets(ws: map<Id, Withdrawal>): map<Id, int> {
    map id | id in ws :: PaidNet(ws[id])
  }

  function Received(t: Topup): int {
    if t.status.Credited? then t.paid else 0
  }

  function ReceivedAmounts(ts: map<Id, Topup>): map<Id, int> {
    map id | id in ts :: Received(ts[id])
  }

  /** What Integrity() reports: the totals it compares and the wallets that drifted. */
  datatype Report = Report(entriesSum: int, walletBalances: int, walletEntries: int, escrowPool: int, escrowHeld: int,
                           payoutPending: int, inFlight: int, mismatched: set<Id>)
  {
    predicate Ok() {
      entriesSum == 0 && walletBalances == walletEntries && escrowPool == escrowHeld
      && payoutPending == inFlight && mismatched == {}
    }
  }

  ghost function Integrity(s: Store): Report {
    Report(AllEntries(s.entries), Total(Balances(s.wallets)), OnWallets(s.entries),
           OnAccount(s.entries, Escrow), Total(HeldAmounts(s.holds)),
           OnAccount(s.entries, PayoutPending), Total(InFlightAmounts(s.withdrawals)),
           set u | u in s.wallets && s.wallets[u].balance != OnAccount(s.entries, WalletOf(u)))
  }

  // ---- the invariant ----

  /** Each wallet line records the running balance of its wallet; other lines record none. */
  ghost predicate RunningBalances(es: seq<Entry>) {
    forall i :: 0 <= i < |es| ==>
      es[i].balanceAfter == if es[i].account.WalletOf? then Some(OnAccount(es[..i + 1], es[i].account)) else None
  }

  /** Wallet rows and entry log agree, and every transaction in the log balances. */
  ghost predicate Books(wallets: map<Id, WalletRow>, es: seq<Entry>, keys: set<Key>) {
    && (forall u :: u in wallets ==> 0 <= wallets[u].balance == OnAccount(es, WalletOf(u)))
    && (forall u :: u !in wallets ==> OnAccount(es, WalletOf(u)) == 0)
    && Total(Balances(wallets)) == OnWallets(es)
    && AllEntries(es) == 0
    && (forall k :: OfTransaction(es, k) == 0)
    && (forall i :: 0 <= i < |es| ==> es[i].key in keys)
    && RunningBalances(es)
  }

  /** The pool accounts hold exactly what the rows say they hold. */
  ghost predicate Pools(es: seq<Entry>, topups: map<Id, Topup>, holds: map<Id, Hold>,
                        withdrawals: map<Id, Withdrawal>) {
    && OnAccount(es, Escrow) == Total(HeldAmounts(holds))
    && OnAccount(es, PayoutPending) == Total(InFlightAmounts(withdrawals))
    && OnAccount(es, ExternalOut) == Total(PaidNets(withdrawals))
    && OnAccount(es, ExternalIn) == -Total(ReceivedAmounts(topups))
  }

  /** Which status of which row accounts for an idempotency key having been used. */
  predicate Accounted(k: Key, topups: map<Id, Topup>, holds: map<Id, Hold>, withdrawals: map<Id, Withdrawal>) {
    match k
    case TopupKey(id) => id in topups && topups[id].status.Credited?
    case HoldKey(t, v) => t in holds && 1 <= v <= holds[t].version
    case ReleaseKey(t, v) => t in holds && v == holds[t].version && holds[t].status.Released?
    case RefundKey(t, v) => t in holds && 1 <= v <= holds[t].version
      && (v == holds[t].version ==> holds[t].status.Refunded?)
    case LockKey(id) => id in withdrawals
    case PaidKey(id) => id in withdrawals && withdrawals[id].status.Successful?
    case ReturnKey(id) => id in withdrawals && (withdrawals[id].status.Failed? || withdrawals[id].status.Rejected?)
  }

  ghost predicate KeysAgree(keys: set<Key>, topups: map<Id, Topup>, holds: map<Id, Hold>,
                            withdrawals: map<Id, Withdrawal>) {
    && (forall k :: k in keys <==> Accounted(k, topups, holds, withdrawals))
    && (forall t :: t in holds ==> holds[t].version >= 1)
  }

  /** References are unique, and a withdrawal's wallet exists. */
  ghost predicate RowsValid(users: set<Id>, withdrawals: map<Id, Withdrawal>) {
    && (forall i, j :: i in withdrawals && j in withdrawals && withdrawals[i].reference == withdrawals[j].reference ==>
        i == j)
    && (forall i :: i in withdrawals ==> withdrawals[i].user in users)
  }

  ghost predicate Inv(s: Store) {
    match s
    case Store(wallets, entries, keys, topups, holds, withdrawals) =>
      && Books(wallets, entries, keys)
      && Pools(entries, topups, holds, withdrawals)
      && KeysAgree(keys, topups, holds, withdrawals)
      && RowsValid(wallets.Keys, withdrawals)
  }

  // ---- one entry, one transaction ----

  lemma {:induction false} NoEntriesOfFreshKey(es: seq<Entry>, keys: set<Key>, k: Key)
    requires forall i :: 0 <= i < |es| ==> es[i].key in keys
    requires k !in keys
    ensures OfTransaction(es, k) == 0
  {
    if es != [] {
      NoEntriesOfFreshKey(es[..|es| - 1], keys, k);
    }
  }

  /** What one more entry does to every sum over the log. */
  lemma AppendEntry(es: seq<Entry>, e: Entry)
    ensures forall a :: OnAccount(es + [e], a) == OnAccount(es, a) + if e.account == a then e.amount else 0
    ensures OnWallets(es + [e]) == OnWallets(es) + if e.account.WalletOf? then e.amount else 0
    ensures forall k :: OfTransaction(es + [e], k) == OfTransaction(es, k) + if e.key == k then e.amount else 0
    ensures AllEntries(es + [e]) == AllEntries(es) + e.amount
  {
    assert (es + [e])[..|es|] == es;
  }

  lemma RunningBalancesAppend(es: seq<Entry>, e: Entry)
    requires RunningBalances(es)
    requires e.balanceAfter == if e.account.WalletOf? then Some(OnAccount(es, e.account) + e.amount) else None
    ensures RunningBalances(es + [e])
  {
    AppendEntry(es, e);
    var fs := es + [e];
    forall i | 0 <= i < |fs|
      ensures fs[i].balanceAfter == if fs[i].account.WalletOf? then Some(OnAccount(fs[..i + 1], fs[i].account))
        else None
    {
      if i < |es| {
        assert fs[..i + 1] == es[..i + 1];
      } else {
        assert fs[..i + 1] == fs;
      }
    }
  }

  /** Books kept while a transaction is half written: only its own key may be out of balance, by `open`. */
  ghost predicate OpenBooks(wallets: map<Id, WalletRow>, es: seq<Entry>, keys: set<Key>, key: Key, open: int) {
    && (forall u :: u in wallets ==> 0 <= wallets[u].balance == OnAccount(es, WalletOf(u)))
    && (forall u :: u !in wallets ==> OnAccount(es, WalletOf(u)) == 0)
    && Total(Balances(wallets)) == OnWallets(es)
    && AllEntries(es) == open
    && (forall k :: OfTransaction(es, k) == if k == key then open else 0)
    && (forall i :: 0 <= i < |es| ==> es[i].key in keys + {key})
    && RunningBalances(es)
  }

  /** The entry fits the wallets: a wallet line leads to a balance that is not negative, other lines to none. */
  predicate Fits(wallets: map<Id, WalletRow>, e: Entry) {
    if e.account.WalletOf? then
      && e.account.owner in wallets && e.balanceAfter == Some(wallets[e.account.owner].balance + e.amount)
      && e.balanceAfter.value >= 0
    else e.balanceAfter.None?
  }

  /** Every wallet has the balance of its entries. */
  ghost predicate BalancesAgree(wallets: map<Id, WalletRow>, es: seq<Entry>) {
    && (forall u :: u in wallets ==> 0 <= wallets[u].balance == OnAccount(es, WalletOf(u)))
    && (forall u :: u !in wallets ==> OnAccount(es, WalletOf(u)) == 0)
  }

  lemma OneEntryKeepsBalances(wallets: map<Id, WalletRow>, es: seq<Entry>, e: Entry)
    requires BalancesAgree(wallets, es) && Fits(wallets, e)
    ensures BalancesAgree(AfterEntry(wallets, e), es + [e])
  {
    hide OnAccount, OnWallets, OfTransaction, AllEntries;
    AppendEntry(es, e);
  }

  lemma OneEntryKeepsTotal(wallets: map<Id, WalletRow>, es: seq<Entry>, e: Entry)
    requires Total(Balances(wallets)) == OnWallets(es) && Fits(wallets, e)
    ensures Total(Balances(AfterEntry(wallets, e))) == OnWallets(es + [e])
  {
    hide OnAccount, OnWallets, OfTransaction, AllEntries;
    AppendEntry(es, e);
    if e.account.WalletOf? {
      var u := e.account.owner;
      TotalUpdate(Balances(wallets), u, e.balanceAfter.value);
      assert Balances(AfterEntry(wallets, e)) == Balances(wallets)[u := e.balanceAfter.value];
    }
  }

  lemma OneEntryKeepsBooks(wallets: map<Id, WalletRow>, es: seq<Entry>, keys: set<Key>, open: int, e: Entry)
    requires OpenBooks(wallets, es, keys, e.key, open) && Fits(wallets, e)
    ensures OpenBooks(AfterEntry(wallets, e), es + [e], keys, e.key, open + e.amount)
  {
    OneEntryKeepsBalances(wallets, es, e);
    OneEntryKeepsTotal(wallets, es, e);
    FitsRuns(wallets, es, e);
    hide OnAccount, OnWallets, OfTransaction, AllEntries, RunningBalances, Balances, AfterEntry, Fits;
    AppendEntry(es, e);
  }

  lemma FitsRuns(wallets: map<Id, WalletRow>, es: seq<Entry>, e: Entry)
    requires BalancesAgree(wallets, es) && RunningBalances(es) && Fits(wallets, e)
    ensures RunningBalances(es + [e])
  {
    hide OnAccount, RunningBalances;
    RunningBalancesAppend(es, e);
  }

  function AfterEntry(wallets: map<Id, WalletRow>, e: Entry): map<Id, WalletRow> {
    if e.account.WalletOf? && e.balanceAfter.Some? && e.account.owner in wallets
    then wallets[e.account.owner := wallets[e.account.owner].(balance := e.balanceAfter.value)]
    else wallets
  }

  lemma {:induction false} PostingsKeepBooks(wallets: map<Id, WalletRow>, es: seq<Entry>, keys: set<Key>, key: Key,
                                             open: int,
                                             ps: seq<Posting>, locked: set<Id>)
    requires OpenBooks(wallets, es, keys, key, open)
    requires ApplyPostings(wallets, es, key, ps, locked).Success?
    ensures var (wallets', es') := ApplyPostings(wallets, es, key, ps, locked).value;
      && OpenBooks(wallets', es', keys, key, open + PostingSum(ps))
      && wallets'.Keys == wallets.Keys
    decreases |ps|
  {
    if ps != [] {
      var p := ps[0];
      var e := Entry(key, p.account, p.amount,
                     if p.account.WalletOf? then Some(wallets[p.account.owner].balance + p.amount) else None);
      OneEntryKeepsBooks(wallets, es, keys, open, e);
      PostingsKeepBooks(AfterEntry(wallets, e), es + [e], keys, key, open + e.amount, ps[1..], locked);
    }
  }

  lemma {:induction false} PostingsMoveAccounts(wallets: map<Id, WalletRow>, es: seq<Entry>, key: Key, ps: seq<Posting>,
                                                locked: set<Id>, a: Account)
    requires ApplyPostings(wallets, es, key, ps, locked).Success?
    ensures OnAccount(ApplyPostings(wallets, es, key, ps, locked).value.1, a) == OnAccount(es, a) + Change(ps, a)
    decreases |ps|
  {
    if ps != [] {
      var p := ps[0];
      var e := Entry(key, p.account, p.amount,
                     if p.account.WalletOf? then Some(wallets[p.account.owner].balance + p.amount) else None);
      assert (es + [e])[..|es|] == es;
      PostingsMoveAccounts(AfterEntry(wallets, e), es + [e], key, ps[1..], locked, a);
    }
  }

  /** A committed post keeps the books, moves each account by its postings and uses up its key. */
  lemma PostKeepsBooks(s: Store, key: Key, ps: seq<Posting>, locked: set<Id>)
    requires Books(s.wallets, s.entries, s.keys)
    requires Post(s, key, ps, locked).Success?
    ensures var s' := Post(s, key, ps, locked).value;
      && Books(s'.wallets, s'.entries, s'.keys)
      && (forall a :: OnAccount(s'.entries, a) == OnAccount(s.entries, a) + Change(ps, a))
      && s'.wallets.Keys == s.wallets.Keys && s'.keys == s.keys + {key}
  {
    var s' := Post(s, key, ps, locked).value;
    NoEntriesOfFreshKey(s.entries, s.keys, key);
    assert OpenBooks(s.wallets, s.entries, s.keys, key, 0);
    PostingsKeepBooks(s.wallets, s.entries, s.keys, key, 0, ps, locked);
    forall a ensures OnAccount(s'.entries, a) == OnAccount(s.entries, a) + Change(ps, a) {
      PostingsMoveAccounts(s.wallets, s.entries, key, ps, locked, a);
    }
  }

  /** Posting writes nothing but wallets, entries and keys. */
  lemma PostFrame(s: Store, key: Key, ps: seq<Posting>, locked: set<Id>)
    requires Post(s, key, ps, locked).Success?
    ensures var s' := Post(s, key, ps, locked).value;
      s'.topups == s.topups && s'.holds == s.holds && s'.withdrawals == s.withdrawals
  {
  }

  /** An empty wallet changes no sum over the log. */
  lemma EmptyWalletKeepsBooks(wallets: map<Id, WalletRow>, es: seq<Entry>, keys: set<Key>, user: Id)
    requires Books(wallets, es, keys) && user !in wallets
    ensures Books(wallets[user := WalletRow(0, NotFrozen)], es, keys)
  {
    hide OnAccount, OnWallets, RunningBalances, OfTransaction, AllEntries;
    TotalUpdate(Balances(wallets), user, 0);
    assert Balances(wallets[user := WalletRow(0, NotFrozen)]) == Balances(wallets)[user := 0];
  }

  lemma EnsureWalletKeepsInv(s: Store, user: Id)
    requires Inv(s)
    ensures Inv(EnsureWallet(s, user))
    ensures user in EnsureWallet(s, user).wallets
  {
    hide Books, Pools, KeysAgree;
    if user !in s.wallets {
      EmptyWalletKeepsBooks(s.wallets, s.entries, s.keys, user);
    }
  }

  lemma SetFrozenKeepsInv(s: Store, user: Id, freeze: Freeze)
    requires Inv(s)
    ensures Inv(SetFrozen(s, user, freeze))
  {
    EnsureWalletKeepsInv(s, user);
    FreezeKeepsInv(EnsureWallet(s, user), user, freeze);
  }

  lemma FreezeKeepsInv(s: Store, user: Id, freeze: Freeze)
    requires Inv(s) && user in s.wallets
    ensures Inv(s.(wallets := s.wallets[user := s.wallets[user].(freeze := freeze)]))
  {
    var wallets := s.wallets[user := s.wallets[user].(freeze := freeze)];
    assert Balances(wallets) == Balances(s.wallets);
    assert wallets.Keys == s.wallets.Keys;
  }

  /**
   * A committed transaction keeps the invariant once the rows it wrote beside the entries account for
   * the money its postings moved and for the key it used.
   */
  lemma CommitKeepsInv(s: Store, key: Key, ps: seq<Posting>, locked: set<Id>, s': Store,
                       topups: map<Id, Topup>, holds: map<Id, Hold>, withdrawals: map<Id, Withdrawal>)
    requires Inv(s)
    requires Post(s, key, ps, locked).Success?
    requires Total(HeldAmounts(holds)) == Total(HeldAmounts(s.holds)) + Change(ps, Escrow)
    requires Total(InFlightAmounts(withdrawals)) == Total(InFlightAmounts(s.withdrawals)) + Change(ps, PayoutPending)
    requires Total(PaidNets(withdrawals)) == Total(PaidNets(s.withdrawals)) + Change(ps, ExternalOut)
    requires Total(ReceivedAmounts(topups)) == Total(ReceivedAmounts(s.topups)) - Change(ps, ExternalIn)
    requires KeysAgree(s.keys + {key}, topups, holds, withdrawals)
    requires RowsValid(s.wallets.Keys, withdrawals)
    requires s' == Post(s, key, ps, locked).value.(topups := topups, holds := holds, withdrawals := withdrawals)
    ensures Inv(s')
  {
    hide Books, KeysAgree, RowsValid, Post, Change, HeldAmounts, InFlightAmounts, PaidNets, ReceivedAmounts;
    PostKeepsBooks(s, key, ps, locked);
  }

  lemma SumCons(p: Posting, ps: seq<Posting>)
    ensures PostingSum([p] + ps) == p.amount + PostingSum(ps)
  {
    assert ([p] + ps)[1..] == ps;
  }

  lemma SumOfTwo(p: Posting, q: Posting)
    ensures PostingSum([p, q]) == p.amount + q.amount
  {
    assert [p] + [q] == [p, q] && [q] + [] == [q];
    SumCons(p, [q]);
    SumCons(q, []);
  }

  lemma SumOfThree(p: Posting, q: Posting, r: Posting)
    ensures PostingSum([p, q, r]) == p.amount + q.amount + r.amount
  {
    hide PostingSum;
    SumCons(p, [q, r]);
    SumOfTwo(q, r);
    assert [p] + [q, r] == [p, q, r];
  }

  function Part(p: Posting, a: Account): int {
    if p.account == a then p.amount else 0
  }

  lemma ChangeOfTwo(p: Posting, q: Posting)
    ensures Change([p, q], Escrow) == Part(p, Escrow) + Part(q, Escrow)
    ensures Change([p, q], PayoutPending) == Part(p, PayoutPending) + Part(q, PayoutPending)
    ensures Change([p, q], ExternalOut) == Part(p, ExternalOut) + Part(q, ExternalOut)
    ensures Change([p, q], ExternalIn) == Part(p, ExternalIn) + Part(q, ExternalIn)
  {
    assert [p, q][1..] == [q];
    assert forall a :: Change([q], a) == Part(q, a);
  }

  lemma ChangeOfThree(p: Posting, q: Posting, r: Posting)
    ensures Change([p, q, r], Escrow) == Part(p, Escrow) + Part(q, Escrow) + Part(r, Escrow)
    ensures Change([p, q, r], PayoutPending) == Part(p, PayoutPending) + Part(q, PayoutPending) + Part(r, PayoutPending)
    ensures Change([p, q, r], ExternalOut) == Part(p, ExternalOut) + Part(q, ExternalOut) + Part(r, ExternalOut)
    ensures Change([p, q, r], ExternalIn) == Part(p, ExternalIn) + Part(q, ExternalIn) + Part(r, ExternalIn)
  {
    assert [p, q, r][1..] == [q, r];
    ChangeOfTwo(q, r);
  }

  /** CommitKeepsInv for the two postings of a transfer between a wallet and a pool. */
  lemma CommitTwoKeepsInv(s: Store, key: Key, p: Posting, q: Posting, locked: set<Id>, s': Store,
                          topups: map<Id, Topup>, holds: map<Id, Hold>, withdrawals: map<Id, Withdrawal>)
    requires Inv(s)
    requires Post(s, key, [p, q], locked).Success?
    requires Total(HeldAmounts(holds)) == Total(HeldAmounts(s.holds)) + Part(p, Escrow) + Part(q, Escrow)
    requires Total(InFlightAmounts(withdrawals))
          == Total(InFlightAmounts(s.withdrawals)) + Part(p, PayoutPending) + Part(q, PayoutPending)
    requires Total(PaidNets(withdrawals)) == Total(PaidNets(s.withdrawals))
    requires topups == s.topups && !p.account.ExternalIn? && !q.account.ExternalIn? && !p.account.ExternalOut?
    requires !q.account.ExternalOut?
    requires KeysAgree(s.keys + {key}, topups, holds, withdrawals)
    requires RowsValid(s.wallets.Keys, withdrawals)
    requires s' == Post(s, key, [p, q], locked).value.(topups := topups, holds := holds, withdrawals := withdrawals)
    ensures Inv(s')
  {
    hide Books, Pools, RowsValid, KeysAgree, Inv, ApplyPostings, PostingSum, Change, Post;
    ChangeOfTwo(p, q);
    CommitKeepsInv(s, key, [p, q], locked, s', topups, holds, withdrawals);
  }

  /** The transaction did not run into an idempotency key that was used before. */
  predicate KeyWasFresh(outcome: Outcome) {
    !outcome.Replayed? && outcome != Refused(AlreadyProcessed)
  }

  // ---- top-ups ----

  /** One top-up row changes: how the amount received from outside follows. */
  lemma TopupRowChanges(ts: map<Id, Topup>, id: Id, t: Topup)
    ensures Total(ReceivedAmounts(ts[id := t])) ==
      Total(ReceivedAmounts(ts)) - (if id in ts then Received(ts[id]) else 0) + Received(t)
  {
    TotalUpdate(ReceivedAmounts(ts), id, Received(t));
    assert ReceivedAmounts(ts[id := t]) == ReceivedAmounts(ts)[id := Received(t)];
  }

  lemma TopupKeyUsed(keys: set<Key>, topups: map<Id, Topup>, holds: map<Id, Hold>, withdrawals: map<Id, Withdrawal>,
                     id: Id, t: Topup)
    requires KeysAgree(keys, topups, holds, withdrawals)
    requires id in topups && !topups[id].status.Credited? && t.status.Credited?
    ensures TopupKey(id) !in keys
    ensures KeysAgree(keys + {TopupKey(id)}, topups[id := t], holds, withdrawals)
  {
    assert !Accounted(TopupKey(id), topups, holds, withdrawals);
    forall k ensures k in keys + {TopupKey(id)} <==> Accounted(k, topups[id := t], holds, withdrawals) {
      assert k in keys <==> Accounted(k, topups, holds, withdrawals);
    }
  }

  lemma CreateTopupKeepsInv(s: Store, id: Id, user: Id, expiresAt: Option<int>)
    requires Inv(s)
    ensures Inv(CreateTopup(s, id, user, expiresAt).0)
  {
    TopupRowChanges(s.topups, id, Topup(user, Pending, expiresAt, 0, 0));
  }

  lemma ExpireTopupsKeepsInv(s: Store, before: int)
    requires Inv(s)
    ensures Inv(ExpireTopups(s, before))
  {
    assert ReceivedAmounts(ExpireTopups(s, before).topups) == ReceivedAmounts(s.topups);
  }

  lemma CreditCommits(s: Store, id: Id, paid: int, credit: int)
    requires Inv(s) && id in s.topups && !s.topups[id].status.Credited?
    requires CreditTopup(s, id, paid, credit).1.Applied?
    ensures Inv(CreditTopup(s, id, paid, credit).0)
  {
    hide Books, Pools, RowsValid, KeysAgree, ApplyPostings, PostingSum, Change;
    var t := s.topups[id];
    var t' := t.(status := Credited, paid := paid, credited := credit);
    var p, q, r := Posting(ExternalIn, -paid), Posting(WalletOf(t.user), credit), Posting(Fees, paid - credit);
    var s1 := EnsureWallet(s, t.user);
    var s' := CreditTopup(s, id, paid, credit).0;
    assert Post(s1, TopupKey(id), [p, q, r], {t.user}).Success?
           && s' == Post(s1, TopupKey(id), [p, q, r], {t.user}).value.(
                topups := s.topups[id := t'], holds := s.holds, withdrawals := s.withdrawals) by {
      PostFrame(s1, TopupKey(id), [p, q, r], {t.user});
    }
    assert s1 == s.(wallets := s1.wallets);
    hide Post, CreditTopup, EnsureWallet;
    EnsureWalletKeepsInv(s, t.user);
    TopupKeyUsed(s.keys, s.topups, s.holds, s.withdrawals, id, t');
    TopupRowChanges(s.topups, id, t');
    ChangeOfThree(p, q, r);
    CommitKeepsInv(s1, TopupKey(id), [p, q, r], {t.user}, s', s.topups[id := t'], s.holds, s.withdrawals);
  }

  lemma CreditTopupKeepsInv(s: Store, id: Id, paid: int, credit: int)
    requires Inv(s)
    ensures Inv(CreditTopup(s, id, paid, credit).0)
    ensures KeyWasFresh(CreditTopup(s, id, paid, credit).1)
  {
    hide Books, Pools, RowsValid, ApplyPostings, PostingSum;
    if id in s.topups && !s.topups[id].status.Credited? {
      var t := s.topups[id];
      EnsureWalletKeepsInv(s, t.user);
      TopupKeyUsed(s.keys, s.topups, s.holds, s.withdrawals, id,
                   t.(status := Credited, paid := paid, credited := credit));
      if CreditTopup(s, id, paid, credit).1.Applied? {
        CreditCommits(s, id, paid, credit);
      } else {
        assert CreditTopup(s, id, paid, credit).0 == s;
      }
    } else {
      assert CreditTopup(s, id, paid, credit).0 == s;
    }
  }

  // ---- escrow ----

  lemma HoldRowChanges(hs: map<Id, Hold>, trip: Id, h: Hold)
    ensures Total(HeldAmounts(hs[trip := h])) ==
      Total(HeldAmounts(hs)) - (if trip in hs then HeldAmount(hs[trip]) else 0) + HeldAmount(h)
  {
    TotalUpdate(HeldAmounts(hs), trip, HeldAmount(h));
    assert HeldAmounts(hs[trip := h]) == HeldAmounts(hs)[trip := HeldAmount(h)];
  }

  /** A hold that is opened or re-opened never meets its own key: the version was raised past every used one. */
  lemma HoldKeyUsed(keys: set<Key>, topups: map<Id, Topup>, holds: map<Id, Hold>, withdrawals: map<Id, Withdrawal>,
                    trip: Id, h: Hold)
    requires KeysAgree(keys, topups, holds, withdrawals)
    requires trip in holds ==> holds[trip].status.Refunded?
    requires h.status.Held? && h.version == if trip in holds then holds[trip].version + 1 else 1
    ensures HoldKey(trip, h.version) !in keys
    ensures KeysAgree(keys + {HoldKey(trip, h.version)}, topups, holds[trip := h], withdrawals)
  {
    assert !Accounted(HoldKey(trip, h.version), topups, holds, withdrawals);
    forall k ensures k in keys + {HoldKey(trip, h.version)} <==> Accounted(k, topups, holds[trip := h], withdrawals) {
      assert k in keys <==> Accounted(k, topups, holds, withdrawals);
    }
  }

  /** Settling a live version uses the one settlement key of that version which matches the way it is settled. */
  lemma SettleKeyUsed(keys: set<Key>, topups: map<Id, Topup>, holds: map<Id, Hold>, withdrawals: map<Id, Withdrawal>,
                      trip: Id, release: bool, key: Key, h: Hold)
    requires KeysAgree(keys, topups, holds, withdrawals)
    requires trip in holds && Live(holds[trip])
    requires key == if release then ReleaseKey(trip, holds[trip].version) else RefundKey(trip, holds[trip].version)
    requires h.version == holds[trip].version && h.status == if release then Released else Refunded
    ensures key !in keys
    ensures KeysAgree(keys + {key}, topups, holds[trip := h], withdrawals)
  {
    assert !Accounted(key, topups, holds, withdrawals);
    forall k ensures k in keys + {key} <==> Accounted(k, topups, holds[trip := h], withdrawals) {
      assert k in keys <==> Accounted(k, topups, holds, withdrawals);
    }
  }

  lemma HoldEscrowKeepsInv(s: Store, trip: Id, payer: Id, payee: Id, driver: Id, amount: int)
    requires Inv(s)
    ensures Inv(HoldEscrow(s, trip, payer, payee, driver, amount).0)
    ensures KeyWasFresh(HoldEscrow(s, trip, payer, payee, driver, amount).1)
  {
    hide Books, Pools, RowsValid, ApplyPostings, PostingSum, Change;
    EnsureWalletKeepsInv(s, payer);
    if trip !in s.holds || s.holds[trip].status.Refunded? {
      var h := Reopened(s, trip, payer, payee, driver, amount);
      var p, q := Posting(WalletOf(payer), -amount), Posting(Escrow, amount);
      HoldKeyUsed(s.keys, s.topups, s.holds, s.withdrawals, trip, h);
      if HoldEscrow(s, trip, payer, payee, driver, amount).1.Applied? {
        HoldRowChanges(s.holds, trip, h);
        CommitTwoKeepsInv(EnsureWallet(s, payer), HoldKey(trip, h.version), p, q, {payer},
                          HoldEscrow(s, trip, payer, payee, driver, amount).0,
                       s.topups, s.holds[trip := h], s.withdrawals);
      } else {
        assert HoldEscrow(s, trip, payer, payee, driver, amount).0 == s;
      }
    } else if HoldEscrow(s, trip, payer, payee, driver, amount).1.NoOp? {
      assert HoldEscrow(s, trip, payer, payee, driver, amount).0 == EnsureWallet(s, payer);
    } else {
      assert HoldEscrow(s, trip, payer, payee, driver, amount).0 == s;
    }
  }

  /** A change to a hold that leaves it live, at the same version and amount, touches no key and no total. */
  lemma LiveHoldChangeKeepsInv(s: Store, trip: Id, h: Hold)
    requires Inv(s)
    requires trip in s.holds && Live(s.holds[trip]) && Live(h)
    requires h.version == s.holds[trip].version && h.amount == s.holds[trip].amount
    ensures Inv(s.(holds := s.holds[trip := h]))
  {
    HoldRowChanges(s.holds, trip, h);
    forall k ensures k in s.keys <==> Accounted(k, s.topups, s.holds[trip := h], s.withdrawals) {
      assert k in s.keys <==> Accounted(k, s.topups, s.holds, s.withdrawals);
    }
  }

  lemma MarkEscrowCompletedKeepsInv(s: Store, trip: Id, releaseAfter: int)
    requires Inv(s)
    ensures Inv(MarkEscrowCompleted(s, trip, releaseAfter))
  {
    if trip in s.holds && s.holds[trip].status.Held? {
      LiveHoldChangeKeepsInv(s, trip, s.holds[trip].(releaseAfter := Some(releaseAfter)));
    }
  }

  lemma DisputeEscrowKeepsInv(s: Store, trip: Id)
    requires Inv(s)
    ensures Inv(DisputeEscrow(s, trip).0)
  {
    if trip in s.holds && s.holds[trip].status.Held? {
      LiveHoldChangeKeepsInv(s, trip, s.holds[trip].(status := Disputed, releaseAfter := None));
    }
  }

  /** The rows written by a settlement that posted, together with its postings, keep the invariant. */
  lemma SettlementKeepsInv(s: Store, trip: Id, release: bool, key: Key, user: Id, s': Store)
    requires Inv(s) && trip in s.holds && Live(s.holds[trip])
    requires key == if release then ReleaseKey(trip, s.holds[trip].version) else RefundKey(trip, s.holds[trip].version)
    requires var ps := [Posting(Escrow, -s.holds[trip].amount), Posting(WalletOf(user), s.holds[trip].amount)];
      && Post(s, key, ps, {user}).Success?
      && s' == Post(s, key, ps,
                    {user}).value.(holds := s.holds[trip := s.holds[trip].(status := if release then Released
                                                                           else Refunded)])
    ensures Inv(s')
  {
    hide Books, Pools, RowsValid, Post;
    var h := s.holds[trip];
    var h' := h.(status := if release then Released else Refunded);
    HoldRowChanges(s.holds, trip, h');
    SettleKeyUsed(s.keys, s.topups, s.holds, s.withdrawals, trip, release, key, h');
    PostFrame(s, key, [Posting(Escrow, -h.amount), Posting(WalletOf(user), h.amount)], {user});
    CommitTwoKeepsInv(s, key, Posting(Escrow, -h.amount), Posting(WalletOf(user), h.amount), {user}, s',
                      s.topups, s.holds[trip := h'], s.withdrawals);
  }

  lemma SettleEscrowKeepsInv(s: Store, trip: Id, release: bool)
    requires Inv(s)
    ensures Inv(SettleEscrow(s, trip, release).0)
    ensures KeyWasFresh(SettleEscrow(s, trip, release).1)
  {
    hide Books, Pools, RowsValid, ApplyPostings, PostingSum, Change;
    var (s', outcome) := SettleEscrow(s, trip, release);
    if trip in s.holds && Live(s.holds[trip]) {
      var h := s.holds[trip];
      var user := if release then h.payee else h.payer;
      var key := if release then ReleaseKey(trip, h.version) else RefundKey(trip, h.version);
      EnsureWalletKeepsInv(s, user);
      SettleKeyUsed(s.keys, s.topups, s.holds, s.withdrawals, trip, release, key,
                    h.(status := if release then Released else Refunded));
      if outcome.Applied? {
        SettlementKeepsInv(EnsureWallet(s, user), trip, release, key, user, s');
      } else {
        assert s' == s;
      }
    } else {
      assert s' == s;
    }
  }

  // ---- withdrawals ----

  lemma WithdrawalRowChanges(ws: map<Id, Withdrawal>, id: Id, w: Withdrawal)
    ensures Total(InFlightAmounts(ws[id := w]))
         == Total(InFlightAmounts(ws)) - (if id in ws then InFlightAmount(ws[id]) else 0) + InFlightAmount(w)
    ensures Total(PaidNets(ws[id := w])) == Total(PaidNets(ws)) - (if id in ws then PaidNet(ws[id]) else 0) + PaidNet(w)
  {
    TotalUpdate(InFlightAmounts(ws), id, InFlightAmount(w));
    assert InFlightAmounts(ws[id := w]) == InFlightAmounts(ws)[id := InFlightAmount(w)];
    TotalUpdate(PaidNets(ws), id, PaidNet(w));
    assert PaidNets(ws[id := w]) == PaidNets(ws)[id := PaidNet(w)];
  }

  lemma LockKeyUsed(keys: set<Key>, topups: map<Id, Topup>, holds: map<Id, Hold>, withdrawals: map<Id, Withdrawal>,
                    id: Id, w: Withdrawal)
    requires KeysAgree(keys, topups, holds, withdrawals)
    requires id !in withdrawals && !Terminal(w.status)
    ensures LockKey(id) !in keys
    ensures KeysAgree(keys + {LockKey(id)}, topups, holds, withdrawals[id := w])
  {
    assert !Accounted(LockKey(id), topups, holds, withdrawals);
    forall k ensures k in keys + {LockKey(id)} <==> Accounted(k, topups, holds, withdrawals[id := w]) {
      assert k in keys <==> Accounted(k, topups, holds, withdrawals);
    }
  }

  /** Finalising uses the one key that matches the final status; until then neither final key was used. */
  lemma FinalKeyUsed(keys: set<Key>, topups: map<Id, Topup>, holds: map<Id, Hold>, withdrawals: map<Id, Withdrawal>,
                     id: Id, w: Withdrawal, key: Key)
    requires KeysAgree(keys, topups, holds, withdrawals)
    requires id in withdrawals && !Terminal(withdrawals[id].status) && Terminal(w.status)
    requires key == if w.status.Successful? then PaidKey(id) else ReturnKey(id)
    ensures key !in keys
    ensures KeysAgree(keys + {key}, topups, holds, withdrawals[id := w])
  {
    assert !Accounted(key, topups, holds, withdrawals);
    forall k ensures k in keys + {key} <==> Accounted(k, topups, holds, withdrawals[id := w]) {
      assert k in keys <==> Accounted(k, topups, holds, withdrawals);
    }
  }

  /** A row keeps its reference and user for life, and a new one brings its own reference. */
  lemma RowsStayValid(users: set<Id>, ws: map<Id, Withdrawal>, id: Id, w: Withdrawal)
    requires RowsValid(users, ws)
    requires w.user in users
    requires forall o :: o in ws && o != id ==> ws[o].reference != w.reference
    ensures RowsValid(users, ws[id := w])
  {
  }

  lemma RowOverwritten(users: set<Id>, ws: map<Id, Withdrawal>, id: Id, w: Withdrawal)
    requires RowsValid(users, ws)
    requires id in ws && w.user == ws[id].user && w.reference == ws[id].reference
    ensures RowsValid(users, ws[id := w])
  {
    RowsStayValid(users, ws, id, w);
  }

  lemma CreateWithdrawalKeepsInv(s: Store, id: Id, w: Withdrawal, g: Guard)
    requires Inv(s)
    requires w.status.Queued? || w.status.PendingReview?
    ensures Inv(CreateWithdrawal(s, id, w, g).0)
    ensures KeyWasFresh(CreateWithdrawal(s, id, w, g).1)
  {
    hide Books, Pools, RowsValid, ApplyPostings, PostingSum, Change;
    if id !in s.withdrawals {
      LockKeyUsed(s.keys, s.topups, s.holds, s.withdrawals, id, w);
    }
    if CreateWithdrawal(s, id, w, g).1.Applied? {
      var p, q := Posting(WalletOf(w.user), -w.amount), Posting(PayoutPending, w.amount);
      WithdrawalRowChanges(s.withdrawals, id, w);
      assert forall o :: o in s.withdrawals && s.withdrawals[o].reference == w.reference ==>
        o in WithReference(s.withdrawals, w.reference);
      RowsStayValid(s.wallets.Keys, s.withdrawals, id, w);
      CommitTwoKeepsInv(s, LockKey(id), p, q, {w.user}, CreateWithdrawal(s, id, w, g).0,
                     s.topups, s.holds, s.withdrawals[id := w]);
    } else {
      assert CreateWithdrawal(s, id, w, g).0 == s;
    }
  }

  lemma TransitionKeepsInv(s: Store, id: Id, from: set<WithdrawalStatus>, to: WithdrawalStatus, flwKnown: bool)
    requires Inv(s)
    requires !Terminal(to) && Successful !in from && Failed !in from && Rejected !in from
    ensures Inv(TransitionWithdrawal(s, id, from, to, flwKnown).0)
  {
    hide Books, KeysAgree, RowsValid, OnAccount;
    var (s', outcome) := TransitionWithdrawal(s, id, from, to, flwKnown);
    if outcome.Applied? {
      var w' := s'.withdrawals[id];
      WithdrawalRowChanges(s.withdrawals, id, w');
      RowOverwritten(s.wallets.Keys, s.withdrawals, id, w');
      OpenRowKeepsKeys(s.keys, s.topups, s.holds, s.withdrawals, id, w');
    }
  }

  /** An unfinished withdrawal accounts for the same keys in every unfinished status. */
  lemma OpenRowKeepsKeys(keys: set<Key>, topups: map<Id, Topup>, holds: map<Id, Hold>, withdrawals: map<Id, Withdrawal>,
                         id: Id, w: Withdrawal)
    requires KeysAgree(keys, topups, holds, withdrawals)
    requires id in withdrawals && !Terminal(withdrawals[id].status) && !Terminal(w.status)
    ensures KeysAgree(keys, topups, holds, withdrawals[id := w])
  {
    forall k ensures k in keys <==> Accounted(k, topups, holds, withdrawals[id := w]) {
      assert k in keys <==> Accounted(k, topups, holds, withdrawals);
    }
  }

  lemma PayoutCommits(s: Store, id: Id, flwKnown: bool)
    requires Inv(s) && id in s.withdrawals && !Terminal(s.withdrawals[id].status)
    requires FinalizeSuccess(s, id, flwKnown).1.Applied?
    ensures Inv(FinalizeSuccess(s, id, flwKnown).0)
  {
    hide Books, Pools, RowsValid, KeysAgree, ApplyPostings, PostingSum, Change;
    var w := s.withdrawals[id];
    var w' := w.(status := Successful, flwKnown := w.flwKnown || flwKnown);
    var p, q, r := Posting(PayoutPending, -w.amount), Posting(ExternalOut, w.net), Posting(Fees, w.fee);
    var s' := FinalizeSuccess(s, id, flwKnown).0;
    assert Post(s, PaidKey(id), [p, q, r], {}).Success? && s' == Post(s, PaidKey(id), [p, q, r], {}).value.(
      topups := s.topups, holds := s.holds, withdrawals := s.withdrawals[id := w']) by {
      PostFrame(s, PaidKey(id), [p, q, r], {});
    }
    hide Post, FinalizeSuccess;
    FinalKeyUsed(s.keys, s.topups, s.holds, s.withdrawals, id, w', PaidKey(id));
    WithdrawalRowChanges(s.withdrawals, id, w');
    RowOverwritten(s.wallets.Keys, s.withdrawals, id, w');
    ChangeOfThree(p, q, r);
    CommitKeepsInv(s, PaidKey(id), [p, q, r], {}, s', s.topups, s.holds, s.withdrawals[id := w']);
  }

  lemma FinalizeSuccessKeepsInv(s: Store, id: Id, flwKnown: bool)
    requires Inv(s)
    ensures Inv(FinalizeSuccess(s, id, flwKnown).0)
    ensures KeyWasFresh(FinalizeSuccess(s, id, flwKnown).1)
  {
    hide Books, Pools, RowsValid, ApplyPostings, PostingSum;
    if FinalizeSuccess(s, id, flwKnown).1.Applied? {
      assert id in s.withdrawals && !Terminal(s.withdrawals[id].status);
      PayoutCommits(s, id, flwKnown);
    } else {
      assert FinalizeSuccess(s, id, flwKnown).0 == s;
      if id in s.withdrawals && !Terminal(s.withdrawals[id].status) {
        var w := s.withdrawals[id];
        FinalKeyUsed(s.keys, s.topups, s.holds, s.withdrawals, id,
                     w.(status := Successful, flwKnown := w.flwKnown || flwKnown), PaidKey(id));
      }
    }
  }

  lemma ReturnCommits(s: Store, id: Id, final: WithdrawalStatus)
    requires Inv(s) && id in s.withdrawals && !Terminal(s.withdrawals[id].status)
    requires FinalizeFailure(s, id, final).1.Applied?
    ensures Inv(FinalizeFailure(s, id, final).0)
  {
    hide Books, Pools, RowsValid, KeysAgree, ApplyPostings, PostingSum, Change;
    var w := s.withdrawals[id];
    var w' := w.(status := final);
    var p, q := Posting(PayoutPending, -w.amount), Posting(WalletOf(w.user), w.amount);
    var s' := FinalizeFailure(s, id, final).0;
    assert Post(s, ReturnKey(id), [p, q], {w.user}).Success? && s' == Post(s, ReturnKey(id), [p, q], {w.user}).value.(
      topups := s.topups, holds := s.holds, withdrawals := s.withdrawals[id := w']) by {
      PostFrame(s, ReturnKey(id), [p, q], {w.user});
    }
    hide Post, FinalizeFailure;
    FinalKeyUsed(s.keys, s.topups, s.holds, s.withdrawals, id, w', ReturnKey(id));
    WithdrawalRowChanges(s.withdrawals, id, w');
    RowOverwritten(s.wallets.Keys, s.withdrawals, id, w');
    CommitTwoKeepsInv(s, ReturnKey(id), p, q, {w.user}, s', s.topups, s.holds, s.withdrawals[id := w']);
  }

  lemma FinalizeFailureKeepsInv(s: Store, id: Id, final: WithdrawalStatus)
    requires Inv(s)
    ensures Inv(FinalizeFailure(s, id, final).0)
    ensures KeyWasFresh(FinalizeFailure(s, id, final).1)
  {
    hide Books, Pools, RowsValid, ApplyPostings, PostingSum;
    if FinalizeFailure(s, id, final).1.Applied? {
      assert id in s.withdrawals && !Terminal(s.withdrawals[id].status);
      ReturnCommits(s, id, final);
    } else {
      assert FinalizeFailure(s, id, final).0 == s;
      if id in s.withdrawals && !Terminal(s.withdrawals[id].status) && (final.Failed? || final.Rejected?) {
        FinalKeyUsed(s.keys, s.topups, s.holds, s.withdrawals, id, s.withdrawals[id].(status := final), ReturnKey(id));
      }
    }
  }

  // ---- the theorems ----

  /** One transaction, whatever its outcome, keeps the invariant and never finds its idempotency key already used. */
  lemma PerformKeepsInv(s: Store, op: Op)
    requires Inv(s) && Legal(op)
    ensures Inv(Perform(s, op).0)
    ensures KeyWasFresh(Perform(s, op).1)
  {
    hide Inv, CreditTopup, HoldEscrow, SettleEscrow, CreateWithdrawal, FinalizeSuccess, FinalizeFailure;
    match op {
      case OpEnsureWallet(user) => EnsureWalletKeepsInv(s, user);
      case OpSetFrozen(user, freeze) => SetFrozenKeepsInv(s, user, freeze);
      case OpCreateTopup(id, user, expiresAt) => CreateTopupKeepsInv(s, id, user, expiresAt);
      case OpExpireTopups(before) => ExpireTopupsKeepsInv(s, before);
      case OpCreditTopup(id, paid, credit) => CreditTopupKeepsInv(s, id, paid, credit);
      case OpHoldEscrow(trip, payer, payee, driver, amount) => HoldEscrowKeepsInv(s, trip, payer, payee, driver,
                                                                                  amount);
      case OpMarkEscrowCompleted(trip, releaseAfter) => MarkEscrowCompletedKeepsInv(s, trip, releaseAfter);
      case OpDisputeEscrow(trip) => DisputeEscrowKeepsInv(s, trip);
      case OpReleaseEscrow(trip) => SettleEscrowKeepsInv(s, trip, true);
      case OpRefundEscrow(trip) => SettleEscrowKeepsInv(s, trip, false);
      case OpCreateWithdrawal(id, w, guard) => CreateWithdrawalKeepsInv(s, id, w, guard);
      case OpTransition(id, from, to, flwKnown) => TransitionKeepsInv(s, id, from, to, flwKnown);
      case OpFinalizeSuccess(id, flwKnown) => FinalizeSuccessKeepsInv(s, id, flwKnown);
      case OpFinalizeFailure(id, final) => FinalizeFailureKeepsInv(s, id, final);
    }
  }

  lemma EmptyStoreInv()
    ensures Inv(EMPTY)
  {
  }

  lemma {:induction false} RunKeepsInv(ops: seq<Op>)
    requires forall i :: 0 <= i < |ops| ==> Legal(ops[i])
    ensures Inv(Run(EMPTY, ops))
  {
    if ops == [] {
      EmptyStoreInv();
    } else {
      RunKeepsInv(ops[..|ops| - 1]);
      PerformKeepsInv(Run(EMPTY, ops[..|ops| - 1]), ops[|ops| - 1]);
    }
  }

  lemma ReferenceNamesOne(s: Store, r: Reference, w: Id)
    requires Inv(s) && w in WithReference(s.withdrawals, r)
    ensures WithReference(s.withdrawals, r) == {w}
  {
    hide Books, Pools, KeysAgree;
  }

  /** The invariant is what the self-check looks for. */
  lemma InvPassesIntegrity(s: Store)
    requires Inv(s)
    ensures Integrity(s).Ok()
  {
  }

  /** The self-check never reports a problem, whatever transactions ran. */
  lemma EveryRunPassesIntegrity(ops: seq<Op>)
    requires forall i :: 0 <= i < |ops| ==> Legal(ops[i])
    ensures Integrity(Run(EMPTY, ops)).Ok()
  {
    RunKeepsInv(ops);
    InvPassesIntegrity(Run(EMPTY, ops));
  }
}
