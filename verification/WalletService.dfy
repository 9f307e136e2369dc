/**
 * A driver's withdrawal request: every guard of Withdraw in order, then the ledger transaction that locks the money.
 */
module WalletService {
  import opened Wrappers
  import opened Ledger
  import opened Totals
  import LedgerIntegrity
  import LedgerLaws
  import LedgerMoves
  import LedgerOutcomes
  import LedgerStore
  import Pin
  import Quotes

  datatype AccountStatus = InReview | Active | Removed

  /** bank stands for account number and bank code. */
  datatype PayoutAccount = PayoutAccount(user: Id, bank: Id, status: AccountStatus)

  datatype Config = Config(quotes: Quotes.Config, dailyLimit: int, cooldownCap: int, reviewFrom: int, pinMax: int,
                           pinLock: int)

  const DUPLICATE_WINDOW := 45_000

  /**
   * What the app sends, and what the service looks up on the way: the clock, the PIN comparison, a fresh row and
   * reference.
   */
  datatype Request = Request(user: Id, amount: int, account: Id, eligible: bool, pin: Pin.Try,
                             now: int, createdAt: int, row: Id, reference: Id)

  datatype Refusal =
    | NotEligible | PayoutsDisabled | BadAmount(quote: Quotes.QuoteError) | Frozen
    | PinNotSet | PinRefused(verdict: Pin.Verdict)
    | AccountNotFound | AccountNotApproved | InsufficientBalance | ByLedger(error: Error)

  /** The row that Withdraw asks the ledger for, and the limits it asks it to check. */
  function NewRow(cfg: Config, r: Request, quote: Quotes.PayoutQuote, bank: Id): Withdrawal {
    Withdrawal(r.user, ByDriver, if r.amount >= cfg.reviewFrom then PendingReview else Queued,
               quote.amount, quote.fee, quote.net, bank, DriverRef(r.reference), r.createdAt, 0, false)
  }

  function Limits(cfg: Config, r: Request, coolingDown: bool): Guard {
    Guard(cfg.dailyLimit, if coolingDown then cfg.cooldownCap else 0, r.now, DUPLICATE_WINDOW)
  }

  /** What a bank transfer costs. */
  function FeeFor(amount: int): int {
    if amount > 5_000_000 then 5000 else if amount > 500_000 then 2500 else 1000
  }

  /** The order in which a request's obstacles are met. */
  function Place(e: Refusal): nat {
    match e
    case NotEligible => 0
    case PayoutsDisabled => 1
    case BadAmount(BelowMinimum) => 2
    case BadAmount(NotWholeNaira) => 3
    case BadAmount(_) => 4
    case Frozen => 5
    case PinNotSet => 6
    case PinRefused(Locked) => 6
    case PinRefused(_) => 7
    case AccountNotFound => 8
    case AccountNotApproved => 9
    case InsufficientBalance => 10
    case ByLedger(OverCooldownCap) => 11
    case ByLedger(DuplicateWithdrawal) => 12
    case ByLedger(DailyLimitExceeded) => 13
    case ByLedger(_) => 14
  }

  /** What a request is held against. */
  datatype Desk = Desk(cfg: Config, open: bool, store: Store, pins: map<Id, Pin.Lock>, cooldowns: map<Id, int>,
                       accounts: map<Id, PayoutAccount>)

  /** What stands in the way of a request. */
  ghost predicate Stops(d: Desk, r: Request, e: Refusal) {
    match e
    case NotEligible => !r.eligible
    case PayoutsDisabled => !d.open
    case BadAmount(BelowMinimum) => r.amount < d.cfg.quotes.payoutMin
    case BadAmount(NotWholeNaira) => r.amount % 100 != 0
    case BadAmount(FeeExceedsAmount) => r.amount <= FeeFor(r.amount)
    case Frozen => Quotes.FreezeOf(d.store, r.user) != NotFrozen
    case PinNotSet => r.user !in d.pins
    case PinRefused(verdict) => r.user in d.pins && PinFails(d.pins[r.user], d.cfg.pinMax, r.pin, verdict)
    case AccountNotFound =>
      r.account in d.accounts ==> d.accounts[r.account].user != r.user || d.accounts[r.account].status == Removed
    case AccountNotApproved => r.account in d.accounts && d.accounts[r.account].status == InReview
    case InsufficientBalance => Quotes.BalanceOf(d.store, r.user) < r.amount
    case ByLedger(OverCooldownCap) =>
      r.user in d.cooldowns && d.cooldowns[r.user] > r.now && 0 < d.cfg.cooldownCap < r.amount
    case ByLedger(DuplicateWithdrawal) =>
      r.account in d.accounts
      && LedgerOutcomes.Repeated(d.store.withdrawals, r.user, r.amount, d.accounts[r.account].bank, r.now, 45_000)
    case ByLedger(DailyLimitExceeded) =>
      0 < d.cfg.dailyLimit < Total(LedgerOutcomes.Today(d.store.withdrawals, r.user, r.now)) + r.amount
    case ByLedger(DuplicateRow) => LedgerOutcomes.Taken(d.store.withdrawals, r.row, DriverRef(r.reference))
    case _ => false
  }

  /** A locked PIN, a wrong one that locks it, or another wrong one. */
  predicate PinFails(p: Pin.Lock, max: int, t: Pin.Try, verdict: Pin.Verdict) {
    match verdict
    case Locked => p.lockedUntil.Some? && t.now < p.lockedUntil.value
    case NewlyLocked => !t.correct && 0 < max <= p.attempts + 1
    case Wrong(left) => !t.correct && left == max - (p.attempts + 1) && (max <= 0 || left > 0)
    case Accepted => false
  }

  /**
   * What becomes of the PINs: the failure that reaches the limit locks until pinLock later, any other wrong PIN is
   * counted, a right one clears the count, and everything else, nobody's PIN but this one included, stays.
   */
  predicate PinsFollow(pins: map<Id, Pin.Lock>, pins': map<Id, Pin.Lock>, cfg: Config, user: Id, t: Pin.Try,
                       e: Option<Refusal>) {
    match e
    case None => user in pins && pins' == pins[user := pins[user].(attempts := if pins[user].attempts > 0 then 0
                                                                   else pins[user].attempts)]
    case Some(PinRefused(NewlyLocked)) => pins' == pins[user := Pin.Lock(0, Some(t.later + cfg.pinLock))]
    case Some(PinRefused(Wrong(_))) =>
      user in pins && pins' == pins[user := pins[user].(attempts := pins[user].attempts + 1)]
    case Some(_) => pins' == pins
  }

  /** The first thing in the way of a request, if there is one. */
  ghost predicate FirstStop(d: Desk, r: Request, e: Refusal) {
    Stops(d, r, e) && forall f :: Stops(d, r, f) ==> Place(e) <= Place(f)
  }

  /** The row of a granted request is written, and its money has left the driver's wallet. */
  ghost predicate IsWritten(d: Desk, r: Request, s': Store, w: Withdrawal) {
    && w.user == r.user && w.kind == ByDriver && w.amount == r.amount == w.fee + w.net
    && w.fee == FeeFor(r.amount) && w.net > 0
    && (w.status == PendingReview <==> r.amount >= d.cfg.reviewFrom)
    && (w.status == Queued <==> r.amount < d.cfg.reviewFrom)
    && r.account in d.accounts && w.bankAccount == d.accounts[r.account].bank
    && w.reference == DriverRef(r.reference) && w.createdAt == r.createdAt && w.attempts == 0 && !w.flwKnown
    && r.row !in d.store.withdrawals && s'.withdrawals == d.store.withdrawals[r.row := w]
    && s'.topups == d.store.topups && s'.holds == d.store.holds
    && LedgerOutcomes.OnlyBalance(d.store, s', r.user, -r.amount)
  }

  ghost predicate NothingMoved(s: Store, s': Store) {
    s'.withdrawals == s.withdrawals && s'.topups == s.topups && s'.holds == s.holds
    && forall u :: Quotes.BalanceOf(s', u) == Quotes.BalanceOf(s, u)
  }

  /** Such a request meets everything the ledger's invariant and the daily limit ask of a caller. */
  lemma RequestsAreGuarded(cfg: Config, r: Request, bank: Id, coolingDown: bool)
    requires Quotes.QuoteWithdrawal(cfg.quotes, r.amount).Success? && r.now <= r.createdAt
    ensures var row := NewRow(cfg, r, Quotes.QuoteWithdrawal(cfg.quotes, r.amount).value, bank);
      var op := OpCreateWithdrawal(r.row, row, Limits(cfg, r, coolingDown));
      Legal(op) && LedgerLaws.Guarded(op, cfg.dailyLimit)
  {
  }

  // ---- the guards, one after the other ----

  function AmountGuard(d: Desk, r: Request): Option<Refusal> {
    if !r.eligible then Some(NotEligible)
    else if !d.open then Some(PayoutsDisabled)
    else
      var quote := Quotes.QuoteWithdrawal(d.cfg.quotes, r.amount);
      if quote.Failure? then Some(BadAmount(quote.error))
      else if !Quotes.FreezeOf(d.store, r.user).NotFrozen? then Some(Frozen) else None
  }

  function PinGuard(pins: map<Id, Pin.Lock>, cfg: Config, user: Id, t: Pin.Try): Option<Refusal> {
    if user !in pins then Some(PinNotSet)
    else
      var verdict := Pin.Check(pins[user], cfg.pinMax, cfg.pinLock, t).1;
      if verdict.Accepted? then None else Some(PinRefused(verdict))
  }

  function AccountGuard(d: Desk, r: Request): Option<Refusal> {
    if r.account !in d.accounts || d.accounts[r.account].user != r.user || d.accounts[r.account].status.Removed?
    then Some(AccountNotFound)
    else if !d.accounts[r.account].status.Active? then Some(AccountNotApproved)
    else if Quotes.BalanceOf(d.store, r.user) < r.amount then Some(InsufficientBalance) else None
  }

  /** Nothing that is looked at before this place is in the way. */
  ghost predicate ClearUpTo(d: Desk, r: Request, place: nat) {
    forall e :: Stops(d, r, e) ==> Place(e) >= place
  }

  lemma AmountGuardLaw(d: Desk, r: Request)
    ensures match AmountGuard(d, r)
      case Some(e) => FirstStop(d, r, e) && Place(e) < Place(AccountNotFound)
                      && PinsFollow(d.pins, d.pins, d.cfg, r.user, r.pin, Some(e))
      case None => ClearUpTo(d, r, Place(PinNotSet))
  {
  }

  /** At most the wallet is made before the ledger is asked. */
  lemma WalletMovesNothing(s: Store, user: Id)
    ensures NothingMoved(s, s) && NothingMoved(s, EnsureWallet(s, user))
  {
  }

  lemma LedgerIsLast()
    ensures forall e :: Place(ByLedger(e)) >= Place(AccountNotFound)
  {
  }

  lemma PinGuardLaw(d: Desk, r: Request)
    requires ClearUpTo(d, r, Place(PinNotSet))
    ensures match PinGuard(d.pins, d.cfg, r.user, r.pin)
      case Some(e) => FirstStop(d, r, e) && Place(e) < Place(AccountNotFound)
      case None => ClearUpTo(d, r, Place(AccountNotFound))
  {
  }

  lemma AccountGuardLaw(d: Desk, r: Request)
    requires ClearUpTo(d, r, Place(AccountNotFound))
    ensures match AccountGuard(d, r)
      case Some(e) => FirstStop(d, r, e) && Place(e) >= Place(AccountNotFound)
      case None => ClearUpTo(d, r, Place(ByLedger(OverCooldownCap)))
  {
  }

  /** The row that the request asks for. */
  function RowFor(d: Desk, r: Request): Withdrawal
    requires Quotes.QuoteWithdrawal(d.cfg.quotes, r.amount).Success? && r.account in d.accounts
  {
    NewRow(d.cfg, r, Quotes.QuoteWithdrawal(d.cfg.quotes, r.amount).value, d.accounts[r.account].bank)
  }

  function LimitsFor(d: Desk, r: Request): Guard {
    Limits(d.cfg, r, r.user in d.cooldowns && d.cooldowns[r.user] > r.now)
  }

  /** The ledger looks for the same things. */
  lemma ReasonsAgree(d: Desk, r: Request, reason: Error)
    requires Quotes.QuoteWithdrawal(d.cfg.quotes, r.amount).Success? && r.account in d.accounts
    requires reason in {OverCooldownCap, DuplicateWithdrawal, DailyLimitExceeded, DuplicateRow}
    ensures LedgerOutcomes.Forbids(d.store, r.row, RowFor(d, r), LimitsFor(d, r), reason) <==>
            Stops(d, r, ByLedger(reason))
  {
    hide LedgerOutcomes.Repeated, LedgerOutcomes.Taken, LedgerOutcomes.Today;
  }

  lemma NoOtherReason(d: Desk, r: Request)
    requires r.user in d.store.wallets && ClearUpTo(d, r, Place(ByLedger(OverCooldownCap)))
    requires Quotes.QuoteWithdrawal(d.cfg.quotes, r.amount).Success? && r.account in d.accounts
    ensures forall reason :: reason in {NotFound, WalletFrozen, InsufficientFunds} ==>
      !LedgerOutcomes.Forbids(d.store, r.row, RowFor(d, r), LimitsFor(d, r), reason)
  {
    hide LedgerOutcomes.Repeated, LedgerOutcomes.Taken, LedgerOutcomes.Today;
    assert !Stops(d, r, InsufficientBalance) && !Stops(d, r, Frozen);
  }

  lemma Written(d: Desk, r: Request, s': Store)
    requires Quotes.QuoteWithdrawal(d.cfg.quotes, r.amount).Success? && r.account in d.accounts
    requires s'.withdrawals == d.store.withdrawals[r.row := RowFor(d, r)] && r.row !in d.store.withdrawals
    requires s'.topups == d.store.topups && s'.holds == d.store.holds
    requires LedgerOutcomes.OnlyBalance(d.store, s', r.user, -r.amount)
    ensures IsWritten(d, r, s', RowFor(d, r))
  {
    hide LedgerOutcomes.OnlyBalance;
  }

  lemma LedgerDecides(d: Desk, r: Request)
    requires LedgerIntegrity.Inv(d.store) && r.user in d.store.wallets
    requires ClearUpTo(d, r, Place(ByLedger(OverCooldownCap)))
    requires Quotes.QuoteWithdrawal(d.cfg.quotes, r.amount).Success? && r.account in d.accounts
    ensures var (s', o) := CreateWithdrawal(d.store, r.row, RowFor(d, r), LimitsFor(d, r));
      if o.Refused? then FirstStop(d, r, ByLedger(o.error)) && s' == d.store
      else (forall e :: !Stops(d, r, e)) && IsWritten(d, r, s', RowFor(d, r))
  {
    hide LedgerIntegrity.Inv, CreateWithdrawal, LedgerOutcomes.Forbids, Stops, IsWritten, LimitsFor;
    forall reason | reason in {OverCooldownCap, DuplicateWithdrawal, DailyLimitExceeded, DuplicateRow}
      ensures LedgerOutcomes.Forbids(d.store, r.row, RowFor(d, r), LimitsFor(d, r), reason) <==>
              Stops(d, r, ByLedger(reason))
    {
      ReasonsAgree(d, r, reason);
    }
    NoOtherReason(d, r);
    LedgerOutcomes.FirstReasonCounts(d.store, r.row, RowFor(d, r), LimitsFor(d, r));
    var (s', o) := CreateWithdrawal(d.store, r.row, RowFor(d, r), LimitsFor(d, r));
    if !o.Refused? {
      NothingStops(d, r);
      Written(d, r, s');
    }
  }

  lemma NothingStops(d: Desk, r: Request)
    requires ClearUpTo(d, r, Place(ByLedger(OverCooldownCap)))
    requires forall reason :: reason in {OverCooldownCap, DuplicateWithdrawal, DailyLimitExceeded, DuplicateRow} ==>
      !Stops(d, r, ByLedger(reason))
    ensures forall e :: !Stops(d, r, e)
  {
  }

  class WalletService {
    const ledger: LedgerStore.LedgerRepository
    const cfg: Config
    var payoutsEnabled: bool
    var pins: map<Id, Pin.Lock>
    var cooldowns: map<Id, int>
    var accounts: map<Id, PayoutAccount>

    constructor (ledger: LedgerStore.LedgerRepository, cfg: Config)
      ensures this.ledger == ledger && this.cfg == cfg && payoutsEnabled && pins == map[] && cooldowns == map[]
      ensures accounts == map[]
    {
      this.ledger, this.cfg, payoutsEnabled, pins, cooldowns, accounts := ledger, cfg, true, map[], map[], map[];
    }

    ghost function AsDesk(): Desk
      reads this, ledger
    {
      Desk(cfg, payoutsEnabled, ledger.Snapshot(), pins, cooldowns, accounts)
    }

    /** The PIN lets the request through. */
    predicate PinPasses(user: Id, t: Pin.Try)
      reads this
    {
      user in pins && !Pin.LockedAt(pins[user], t.now) && t.correct
    }

    /**
     * Lets through exactly a right PIN that is set and not locked. A locked PIN is left alone, a wrong one is counted
     * or locks the PIN until pinLock after the failure, a right one clears the count; nobody else's PIN is touched.
     */
    method CheckPin(user: Id, t: Pin.Try) returns (e: Option<Refusal>)
      modifies this`pins
      ensures e.None? <==> old(PinPasses(user, t))
      ensures user !in old(pins) <==> e == Some(PinNotSet)
      ensures forall v: Pin.Verdict :: e == Some(PinRefused(v)) <==>
        user in old(pins) && PinFails(old(pins)[user], cfg.pinMax, t, v)
        && (Pin.LockedAt(old(pins)[user], t.now) ==> v.Locked?)
      ensures e == PinGuard(old(pins), cfg, user, t)
      ensures PinsFollow(old(pins), pins, cfg, user, t, e)
    {
      if user !in pins {
        return Some(PinNotSet);
      }
      var (lock, verdict) := Pin.Check(pins[user], cfg.pinMax, cfg.pinLock, t);
      pins := pins[user := lock];
      return if verdict.Accepted? then None else Some(PinRefused(verdict));
    }

    predicate CoolingDown(r: Request)
      reads this
    {
      r.user in cooldowns && cooldowns[r.user] > r.now
    }

    /**
     * A request is refused for the first thing that stands in its way, and granted if nothing does. Granted, this one
     * row is written, under review exactly from the configured amount on, and its money leaves the wallet; refused,
     * nothing moves. The PIN is only looked at once everything before it is in order.
     */
    method Withdraw(r: Request) returns (result: Result<Withdrawal, Refusal>)
      modifies this`pins, ledger
      ensures old(LedgerIntegrity.Inv(ledger.Snapshot())) ==>
        match result
        case Success(w) =>
          (forall e :: !Stops(old(AsDesk()), r, e)) && IsWritten(old(AsDesk()), r, ledger.Snapshot(), w)
        case Failure(e) =>
          FirstStop(old(AsDesk()), r, e) && NothingMoved(old(ledger.Snapshot()), ledger.Snapshot())
      ensures PinsFollow(old(pins), pins, cfg, r.user, r.pin,
                         if result.Failure? && Place(result.error) < Place(AccountNotFound) then Some(result.error)
                         else None)
    {
      hide LedgerIntegrity.Inv, CreateWithdrawal, Stops, FirstStop, ClearUpTo, IsWritten, NewRow, Limits, NothingMoved,
           PinsFollow, PinGuard, Quotes.QuoteWithdrawal, Place;
      ghost var d := AsDesk();
      WalletMovesNothing(d.store, r.user);
      LedgerIsLast();
      AmountGuardLaw(d, r);
      if !r.eligible {
        return Failure(NotEligible);
      }
      if !payoutsEnabled {
        return Failure(PayoutsDisabled);
      }
      var quote := Quotes.QuoteWithdrawal(cfg.quotes, r.amount);
      if quote.Failure? {
        return Failure(BadAmount(quote.error));
      }
      ledger.EnsureWallet(r.user);
      if !ledger.wallets[r.user].freeze.NotFrozen? {
        return Failure(Frozen);
      }
      PinGuardLaw(d, r);
      var refusal := CheckPin(r.user, r.pin);
      if refusal.Some? {
        return Failure(refusal.value);
      }
      AccountGuardLaw(d, r);
      if r.account !in accounts || accounts[r.account].user != r.user || accounts[r.account].status.Removed? {
        return Failure(AccountNotFound);
      }
      if !accounts[r.account].status.Active? {
        return Failure(AccountNotApproved);
      }
      if ledger.wallets[r.user].balance < r.amount {
        return Failure(InsufficientBalance);
      }
      var row := NewRow(cfg, r, quote.value, accounts[r.account].bank);
      if LedgerIntegrity.Inv(d.store) {
        LedgerDecides(d, r);
      }
      var o := ledger.CreateWithdrawal(r.row, row, Limits(cfg, r, CoolingDown(r)));
      result := if o.Refused? then Failure(ByLedger(o.error)) else Success(row);
    }
  }

  /**
   * What an accepted request means for the ledger: the money moved from the wallet to the payout account, and the
   * request was within the daily limit, the cooldown cap and not a repetition.
   */
  lemma AcceptedRequest(s: Store, cfg: Config, r: Request, bank: Id, coolingDown: bool)
    requires Quotes.QuoteWithdrawal(cfg.quotes, r.amount).Success?
    requires var row := NewRow(cfg, r, Quotes.QuoteWithdrawal(cfg.quotes, r.amount).value, bank);
      CreateWithdrawal(s, r.row, row, Limits(cfg, r, coolingDown)).1.Applied?
    ensures var row := NewRow(cfg, r, Quotes.QuoteWithdrawal(cfg.quotes, r.amount).value, bank);
      var s' := CreateWithdrawal(s, r.row, row, Limits(cfg, r, coolingDown)).0;
      && s'.withdrawals == s.withdrawals[r.row := row] && r.row !in s.withdrawals
      && row.amount == r.amount == row.fee + row.net && row.net > 0
      && LedgerMoves.Moves(s, s', WalletOf(r.user), PayoutPending, r.amount)
      && (coolingDown && cfg.cooldownCap > 0 ==> r.amount <= cfg.cooldownCap)
      && (forall id :: id in s.withdrawals && Counts(s.withdrawals[id]) && s.withdrawals[id].user == r.user ==>
            s.withdrawals[id].createdAt < r.now - DUPLICATE_WINDOW || s.withdrawals[id].amount != r.amount
            || s.withdrawals[id].bankAccount != bank)
  {
    hide ApplyPostings, PostingSum;
    var row := NewRow(cfg, r, Quotes.QuoteWithdrawal(cfg.quotes, r.amount).value, bank);
    assert Repeats(s.withdrawals, row, r.now - DUPLICATE_WINDOW) == {};
    assert forall id :: id in s.withdrawals && SameRequest(s.withdrawals[id], row, r.now - DUPLICATE_WINDOW) ==>
      id in Repeats(s.withdrawals, row, r.now - DUPLICATE_WINDOW);
    LedgerMoves.CreationMoves(s, r.row, row, Limits(cfg, r, coolingDown));
  }
}
