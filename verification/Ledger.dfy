/**
 * The double-entry ledger as values: the tables LedgerRepository owns, and what each
 * of its transactions does to them. A transaction that fails leaves every table as it
 * was; the class in LedgerStore.dfy is proved against these functions, and
 * LedgerIntegrity.dfy proves what every run of them keeps.
 */
module Ledger {
  import opened Wrappers
  import opened Totals

  /** Row identifiers (UUID strings in the database) are opaque; numbers stand for them. */
  type Id = nat

  // ---- rows ----

  datatype Account = WalletOf(owner: Id) | Escrow | ExternalIn | ExternalOut | PayoutPending | Fees

  /** What makes a ledger transaction unique; the database keeps these as formatted strings. */
  datatype Key =
    | TopupKey(id: Id)
    | HoldKey(trip: Id, version: int)
    | ReleaseKey(trip: Id, version: int)
    | RefundKey(trip: Id, version: int)
    | LockKey(id: Id)
    | PaidKey(id: Id)
    | ReturnKey(id: Id)

  /** One signed, append-only line. Only wallet lines carry the balance they led to. */
  datatype Entry = Entry(key: Key, account: Account, amount: int, balanceAfter: Option<int>)

  datatype Posting = Posting(account: Account, amount: int)

  /** A wallet is named by its owner: user_id is uniquely indexed. */
  datatype WalletRow = WalletRow(balance: int, freeze: Freeze)

  /** Why withdrawals are frozen; each freeze replaces the reason before it. */
  datatype Freeze = NotFrozen | FrozenByAdmin | FrozenForAppeal

  datatype TopupStatus = Pending | Credited | Expired

  datatype Topup = Topup(user: Id, status: TopupStatus, expiresAt: Option<int>, paid: int, credited: int)

  datatype EscrowStatus = Held | Released | Refunded | Disputed

  datatype Hold = Hold(payer: Id, payee: Id, driver: Id, amount: int,
                       status: EscrowStatus, version: int, releaseAfter: Option<int>)

  datatype WithdrawalStatus =
    PendingReview | Queued | Processing | Successful | Failed | Rejected | NeedsAttention

  datatype WithdrawalKind = ByDriver | ByAppeal

  /** "wd_" + a fresh id, or "appeal_" + the appeal's id; uniquely indexed. */
  datatype Reference = DriverRef(n: Id) | AppealRef(appeal: Id)

  datatype Withdrawal = Withdrawal(user: Id, kind: WithdrawalKind, status: WithdrawalStatus,
                                   amount: int, fee: int, net: int, bankAccount: Id, reference: Reference,
                                   createdAt: int, attempts: nat, flwKnown: bool)

  datatype Store = Store(wallets: map<Id, WalletRow>, entries: seq<Entry>, keys: set<Key>,
                         topups: map<Id, Topup>, holds: map<Id, Hold>, withdrawals: map<Id, Withdrawal>)

  const EMPTY := Store(map[], [], {}, map[], map[], map[])

  /** The limits checked under the wallet's row lock; 0 switches a limit off. Times are in milliseconds. */
  datatype Guard = Guard(dailyLimit: int, cooldownCap: int, now: int, duplicateWindow: int)

  const DAY := 86_400_000

  datatype Error =
    | NotFound | AlreadyProcessed | InsufficientFunds | DailyLimitExceeded | WalletFrozen | InvalidTransition
    | OverCooldownCap | DuplicateWithdrawal | HoldConflict | Unbalanced | WalletNotLocked | DuplicateRow
    | BadFinalStatus

  /** NoOp: a status guard found nothing to do. Replayed: the idempotency key was already used. */
  datatype Outcome = Applied | NoOp | Replayed | Refused(error: Error)

  predicate Terminal(st: WithdrawalStatus) {
    st.Successful? || st.Failed? || st.Rejected?
  }

  predicate Live(h: Hold) {
    h.status.Held? || h.status.Disputed?
  }

  // ---- posting ----

  function PostingSum(ps: seq<Posting>): int {
    if ps == [] then 0 else ps[0].amount + PostingSum(ps[1..])
  }

  /** Writes the postings in order, or stops at the first one that cannot be written. */
  function ApplyPostings(wallets: map<Id, WalletRow>, entries: seq<Entry>, key: Key, ps: seq<Posting>, locked: set<Id>)
    : (r: Result<(map<Id, WalletRow>, seq<Entry>), Error>)
    ensures r.Failure? ==> r.error.WalletNotLocked? || r.error.InsufficientFunds?
    decreases |ps|
  {
    if ps == [] then Success((wallets, entries))
    else
      var p := ps[0];
      match p.account
      case WalletOf(u) =>
        if u !in locked || u !in wallets then Failure(WalletNotLocked)
        else
          var balance := wallets[u].balance + p.amount;
          if balance < 0 then Failure(InsufficientFunds)
          else ApplyPostings(wallets[u := wallets[u].(balance := balance)],
                             entries + [Entry(key, p.account, p.amount, Some(balance))], key, ps[1..], locked)
      case _ =>
        ApplyPostings(wallets, entries + [Entry(key, p.account, p.amount, None)], key, ps[1..], locked)
  }

  function Post(s: Store, key: Key, ps: seq<Posting>, locked: set<Id>): Result<Store, Error> {
    if PostingSum(ps) != 0 then Failure(Unbalanced)
    else if key in s.keys then Failure(AlreadyProcessed)
    else
      match ApplyPostings(s.wallets, s.entries, key, ps, locked)
      case Failure(e) => Failure(e)
      case Success((wallets, entries)) => Success(s.(wallets := wallets, entries := entries, keys := s.keys + {key}))
  }

  // ---- wallets and top-ups ----

  function EnsureWallet(s: Store, user: Id): Store {
    if user in s.wallets then s else s.(wallets := s.wallets[user := WalletRow(0, NotFrozen)])
  }

  function SetFrozen(s: Store, user: Id, freeze: Freeze): Store {
    var s1 := EnsureWallet(s, user);
    s1.(wallets := s1.wallets[user := s1.wallets[user].(freeze := freeze)])
  }

  function CreateTopup(s: Store, id: Id, user: Id, expiresAt: Option<int>): (Store, Outcome) {
    if id in s.topups then (s, Refused(DuplicateRow))
    else (s.(topups := s.topups[id := Topup(user, Pending, expiresAt, 0, 0)]), Applied)
  }

  function ExpireTopup(t: Topup, before: int): Topup {
    if t.status.Pending? && t.expiresAt.Some? && t.expiresAt.value < before then t.(status := Expired) else t
  }

  function ExpireTopups(s: Store, before: int): Store {
    s.(topups := map id | id in s.topups :: ExpireTopup(s.topups[id], before))
  }

  function CreditTopup(s: Store, id: Id, paid: int, credit: int): (Store, Outcome) {
    if id !in s.topups then (s, Refused(NotFound))
    else
      var t := s.topups[id];
      if t.status.Credited? then (s, NoOp)
      else
        var s1 := EnsureWallet(s, t.user);
        var ps := [Posting(ExternalIn, -paid), Posting(WalletOf(t.user), credit), Posting(Fees, paid - credit)];
        match Post(s1, TopupKey(id), ps, {t.user})
        case Failure(AlreadyProcessed) => (s1, Replayed)
        case Failure(e) => (s, Refused(e))
        case Success(s2) =>
          (s2.(topups := s2.topups[id := t.(status := Credited, paid := paid, credited := credit)]), Applied)
  }

  // ---- escrow ----

  /** The hold a HoldEscrow call wants to see in place: a new one, or the refunded one re-opened. */
  function Reopened(s: Store, trip: Id, payer: Id, payee: Id, driver: Id, amount: int): Hold {
    Hold(payer, payee, driver, amount, Held, if trip in s.holds then s.holds[trip].version + 1 else 1, None)
  }

  function HoldEscrow(s: Store, trip: Id, payer: Id, payee: Id, driver: Id, amount: int): (Store, Outcome) {
    var s1 := EnsureWallet(s, payer);
    if trip in s.holds && !s.holds[trip].status.Refunded? then
      var h := s.holds[trip];
      if h.driver == driver && h.amount == amount && h.payer == payer then (s1, NoOp)
      else (s, Refused(HoldConflict))
    else
      var h := Reopened(s, trip, payer, payee, driver, amount);
      match Post(s1, HoldKey(trip, h.version), [Posting(WalletOf(payer), -amount), Posting(Escrow, amount)], {payer})
      case Failure(e) => (s, Refused(e))
      case Success(s2) => (s2.(holds := s2.holds[trip := h]), Applied)
  }

  function MarkEscrowCompleted(s: Store, trip: Id, releaseAfter: int): Store {
    if trip in s.holds && s.holds[trip].status.Held?
    then s.(holds := s.holds[trip := s.holds[trip].(releaseAfter := Some(releaseAfter))])
    else s
  }

  function DisputeEscrow(s: Store, trip: Id): (Store, Outcome) {
    if trip in s.holds && s.holds[trip].status.Held?
    then (s.(holds := s.holds[trip := s.holds[trip].(status := Disputed, releaseAfter := None)]), Applied)
    else (s, Refused(InvalidTransition))
  }

  /** ReleaseEscrow and RefundEscrow differ in who is paid, the key and the final status. */
  function SettleEscrow(s: Store, trip: Id, release: bool): (Store, Outcome) {
    if trip !in s.holds then (s, Refused(NotFound))
    else
      var h := s.holds[trip];
      if !Live(h) then (s, NoOp)
      else
        var user := if release then h.payee else h.payer;
        var key := if release then ReleaseKey(trip, h.version) else RefundKey(trip, h.version);
        var s1 := EnsureWallet(s, user);
        match Post(s1, key, [Posting(Escrow, -h.amount), Posting(WalletOf(user), h.amount)], {user})
        case Failure(AlreadyProcessed) => (s1, Replayed)
        case Failure(e) => (s, Refused(e))
        case Success(s2) =>
          (s2.(holds := s2.holds[trip := h.(status := if release then Released else Refunded)]), Applied)
  }

  function ReleaseEscrow(s: Store, trip: Id): (Store, Outcome) {
    SettleEscrow(s, trip, true)
  }

  function RefundEscrow(s: Store, trip: Id): (Store, Outcome) {
    SettleEscrow(s, trip, false)
  }

  // ---- withdrawals ----

  /** Neither failed nor rejected: still counts against the limits. */
  predicate Counts(w: Withdrawal) {
    !w.status.Failed? && !w.status.Rejected?
  }

  predicate CountsToday(w: Withdrawal, user: Id, since: int) {
    w.user == user && w.kind.ByDriver? && w.createdAt >= since && Counts(w)
  }

  /** What a user's driver withdrawals since `since` add to the daily total, row by row. */
  function UsedSince(ws: map<Id, Withdrawal>, user: Id, since: int): map<Id, int> {
    map id | id in ws :: if CountsToday(ws[id], user, since) then ws[id].amount else 0
  }

  predicate SameRequest(prior: Withdrawal, w: Withdrawal, since: int) {
    && prior.user == w.user && prior.amount == w.amount && prior.bankAccount == w.bankAccount
    && prior.createdAt >= since && Counts(prior)
  }

  /** The rows a double-tapped button would repeat. */
  function Repeats(ws: map<Id, Withdrawal>, w: Withdrawal, since: int): set<Id> {
    set id | id in ws && SameRequest(ws[id], w, since)
  }

  function WithReference(ws: map<Id, Withdrawal>, r: Reference): set<Id> {
    set id | id in ws && ws[id].reference == r
  }

  ghost function CreateWithdrawal(s: Store, id: Id, w: Withdrawal, g: Guard): (Store, Outcome) {
    if w.user !in s.wallets then (s, Refused(NotFound))
    else if !s.wallets[w.user].freeze.NotFrozen? && !w.kind.ByAppeal? then (s, Refused(WalletFrozen))
    else if g.cooldownCap > 0 && w.amount > g.cooldownCap then (s, Refused(OverCooldownCap))
    else if g.duplicateWindow > 0 && Repeats(s.withdrawals, w, g.now - g.duplicateWindow) != {}
      then (s, Refused(DuplicateWithdrawal))
    else if g.dailyLimit > 0 && w.kind.ByDriver?
      && Total(UsedSince(s.withdrawals, w.user, g.now - DAY)) + w.amount > g.dailyLimit
      then (s, Refused(DailyLimitExceeded))
    else if id in s.withdrawals || WithReference(s.withdrawals, w.reference) != {}
      then (s, Refused(DuplicateRow))
    else
      match Post(s, LockKey(id), [Posting(WalletOf(w.user), -w.amount), Posting(PayoutPending, w.amount)], {w.user})
      case Failure(e) => (s, Refused(e))
      case Success(s1) => (s1.(withdrawals := s1.withdrawals[id := w]), Applied)
  }

  /** The conditional UPDATE; moving to processing also counts an attempt. */
  function TransitionWithdrawal(s: Store, id: Id, from: set<WithdrawalStatus>, to: WithdrawalStatus, flwKnown: bool)
    : (Store, Outcome) {
    if id in s.withdrawals && s.withdrawals[id].status in from then
      var w := s.withdrawals[id];
      var attempts := if to.Processing? then w.attempts + 1 else w.attempts;
      (s.(withdrawals := s.withdrawals[id := w.(status := to, attempts := attempts, flwKnown := w.flwKnown
                                                || flwKnown)]), Applied)
    else (s, NoOp)
  }

  function FinalizeSuccess(s: Store, id: Id, flwKnown: bool): (Store, Outcome) {
    if id !in s.withdrawals then (s, Refused(NotFound))
    else
      var w := s.withdrawals[id];
      if w.status.Successful? then (s, NoOp)
      else if w.status.Failed? || w.status.Rejected? || w.status.PendingReview? then (s, Refused(InvalidTransition))
      else
        var ps := [Posting(PayoutPending, -w.amount), Posting(ExternalOut, w.net), Posting(Fees, w.fee)];
        match Post(s, PaidKey(id), ps, {})
        case Failure(AlreadyProcessed) => (s, Replayed)
        case Failure(e) => (s, Refused(e))
        case Success(s1) =>
          (s1.(withdrawals := s1.withdrawals[id := w.(status := Successful, flwKnown := w.flwKnown || flwKnown)]),
           Applied)
  }

  function FinalizeFailure(s: Store, id: Id, final: WithdrawalStatus): (Store, Outcome) {
    if !final.Failed? && !final.Rejected? then (s, Refused(BadFinalStatus))
    else if id !in s.withdrawals then (s, Refused(NotFound))
    else
      var w := s.withdrawals[id];
      if w.status.Failed? || w.status.Rejected? then (s, NoOp)
      else if w.status.Successful? then (s, Refused(InvalidTransition))
      else if w.user !in s.wallets then (s, Refused(NotFound))
      else
        match Post(s, ReturnKey(id), [Posting(PayoutPending, -w.amount), Posting(WalletOf(w.user), w.amount)], {w.user})
        case Failure(AlreadyProcessed) => (s, Replayed)
        case Failure(e) => (s, Refused(e))
        case Success(s1) => (s1.(withdrawals := s1.withdrawals[id := w.(status := final)]), Applied)
  }

  // ---- runs ----

  datatype Op =
    | OpEnsureWallet(user: Id)
    | OpSetFrozen(user: Id, freeze: Freeze)
    | OpCreateTopup(id: Id, user: Id, expiresAt: Option<int>)
    | OpExpireTopups(before: int)
    | OpCreditTopup(id: Id, paid: int, credit: int)
    | OpHoldEscrow(trip: Id, payer: Id, payee: Id, driver: Id, amount: int)
    | OpMarkEscrowCompleted(trip: Id, releaseAfter: int)
    | OpDisputeEscrow(trip: Id)
    | OpReleaseEscrow(trip: Id)
    | OpRefundEscrow(trip: Id)
    | OpCreateWithdrawal(id: Id, w: Withdrawal, guard: Guard)
    | OpTransition(id: Id, from: set<WithdrawalStatus>, to: WithdrawalStatus, flwKnown: bool)
    | OpFinalizeSuccess(id: Id, flwKnown: bool)
    | OpFinalizeFailure(id: Id, final: WithdrawalStatus)

  /**
   * What the repository documents its callers keep to: a withdrawal is created untried and in one of the two
   * opening states, and TransitionWithdrawal only moves between non-final states.
   */
  predicate Legal(op: Op) {
    match op
    case OpCreateWithdrawal(_, w, _) => (w.status.Queued? || w.status.PendingReview?) && w.attempts == 0 && !w.flwKnown
    case OpTransition(_, from, to, _) => !Terminal(to) && Successful !in from && Failed !in from && Rejected !in from
    case _ => true
  }

  ghost function Perform(s: Store, op: Op): (Store, Outcome) {
    match op
    case OpEnsureWallet(user) => (EnsureWallet(s, user), Applied)
    case OpSetFrozen(user, freeze) => (SetFrozen(s, user, freeze), Applied)
    case OpCreateTopup(id, user, expiresAt) => CreateTopup(s, id, user, expiresAt)
    case OpExpireTopups(before) => (ExpireTopups(s, before), Applied)
    case OpCreditTopup(id, paid, credit) => CreditTopup(s, id, paid, credit)
    case OpHoldEscrow(trip, payer, payee, driver, amount) => HoldEscrow(s, trip, payer, payee, driver, amount)
    case OpMarkEscrowCompleted(trip, releaseAfter) => (MarkEscrowCompleted(s, trip, releaseAfter), Applied)
    case OpDisputeEscrow(trip) => DisputeEscrow(s, trip)
    case OpReleaseEscrow(trip) => ReleaseEscrow(s, trip)
    case OpRefundEscrow(trip) => RefundEscrow(s, trip)
    case OpCreateWithdrawal(id, w, guard) => CreateWithdrawal(s, id, w, guard)
    case OpTransition(id, from, to, flwKnown) => TransitionWithdrawal(s, id, from, to, flwKnown)
    case OpFinalizeSuccess(id, flwKnown) => FinalizeSuccess(s, id, flwKnown)
    case OpFinalizeFailure(id, final) => FinalizeFailure(s, id, final)
  }

  ghost function Run(s: Store, ops: seq<Op>): Store
    decreases |ops|
  {
    if ops == [] then s else Perform(Run(s, ops[..|ops| - 1]), ops[|ops| - 1]).0
  }
}
