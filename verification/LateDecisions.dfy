/**
 * AdminDecideWithdrawal taken apart: it reads the row, and for a rejection or a failure first writes the status it read
 * back, over any unfinished status, and then returns the money. This says exactly when these writes, come late, lose
 * money.
 */
module LateDecisions {
  import opened Wrappers
  import opened Ledger
  import opened Sets
  import LedgerIntegrity
  import LedgerLaws
  import LedgerOutcomes
  import Quotes
  import opened Payout
  import opened PayoutSafety
  import opened PayoutLimits
  import PayoutProgress

  const UNFINISHED := {PendingReview, NeedsAttention, Processing, Queued}

  /** The first write. */
  function WriteBack(sys: System, id: Id, read: WithdrawalStatus): System {
    Update(sys, id, UNFINISHED, read, false)
  }

  /** Both writes. */
  function LateDecision(sys: System, id: Id, read: WithdrawalStatus, final: WithdrawalStatus): System {
    Return(WriteBack(sys, id, read), id, final)
  }

  /** The statuses on which a rejection or a failure can be decided. */
  predicate Decidable(read: WithdrawalStatus) {
    read.PendingReview? || read.NeedsAttention?
  }

  /** A safe system with an unfinished withdrawal. */
  ghost predicate Unfinished(sys: System, id: Id) {
    Safe(sys) && id in sys.store.withdrawals && !Terminal(sys.store.withdrawals[id].status)
    && sys.store.withdrawals[id].amount >= 0
  }

  function WithRow(s: Store, id: Id, w: Withdrawal): Store {
    s.(withdrawals := s.withdrawals[id := w])
  }

  lemma WriteBackIs(sys: System, id: Id, read: WithdrawalStatus)
    requires id in sys.store.withdrawals && !Terminal(sys.store.withdrawals[id].status) && Decidable(read)
    ensures WriteBack(sys, id, read) ==
      sys.(store := WithRow(sys.store, id, sys.store.withdrawals[id].(status := read)))
  {
  }

  // ---- both writes together are a return ----

  lemma PostIgnoresRows(s: Store, id: Id, w: Withdrawal, key: Key, ps: seq<Posting>, locked: set<Id>)
    requires Post(s, key, ps, locked).Success?
    ensures Post(WithRow(s, id, w), key, ps, locked) == Success(WithRow(Post(s, key, ps, locked).value, id, w))
  {
    hide ApplyPostings, PostingSum;
    LedgerLaws.PostLeavesRows(s, key, ps, locked);
  }

  lemma ReturnIgnoresStatus(s: Store, id: Id, read: WithdrawalStatus, final: WithdrawalStatus)
    requires LedgerIntegrity.Inv(s) && id in s.withdrawals && !Terminal(s.withdrawals[id].status)
    requires s.withdrawals[id].amount >= 0
    requires (final.Failed? || final.Rejected?) && Decidable(read)
    ensures FinalizeFailure(WithRow(s, id, s.withdrawals[id].(status := read)), id, final).0 ==
      FinalizeFailure(s, id, final).0
  {
    hide Post, LedgerIntegrity.Inv;
    var w := s.withdrawals[id];
    var ps := [Posting(PayoutPending, -w.amount), Posting(WalletOf(w.user), w.amount)];
    LedgerOutcomes.PayoutKeysAreNew(s, id);
    Quotes.BalanceNotNegative(s, w.user);
    LedgerLaws.TransferPosts(s, ReturnKey(id), w.amount, w.user, PayoutPending);
    PostIgnoresRows(s, id, w.(status := read), ReturnKey(id), ps, {w.user});
    LedgerLaws.PostLeavesRows(s, ReturnKey(id), ps, {w.user});
  }

  lemma LateDecisionIsReturn(sys: System, id: Id, read: WithdrawalStatus, final: WithdrawalStatus)
    requires Unfinished(sys, id) && Decidable(read) && (final.Failed? || final.Rejected?)
    ensures LateDecision(sys, id, read, final) == Return(sys, id, final)
  {
    hide ViewsOk, Exclusive, NoOrphans, LedgerIntegrity.Inv, FinalizeFailure;
    WriteBackIs(sys, id, read);
    ReturnIgnoresStatus(sys.store, id, read, final);
  }

  /** A decision that nothing interrupts loses money exactly if a payment is under way when it is written. */
  lemma LateDecisionLosesMoneyIff(sys: System, id: Id, read: WithdrawalStatus, final: WithdrawalStatus)
    requires Unfinished(sys, id) && Decidable(read) && (final.Failed? || final.Rejected?)
    ensures LosesMoney(LateDecision(sys, id, read, final), id) <==> PaymentUnderWay(sys, id)
  {
    hide Safe, ViewOf, FinalizeFailure, Next, Continue;
    LateDecisionIsReturn(sys, id, read, final);
    ReturnLosesMoneyIffPaymentUnderWay(sys, id, final);
  }

  /** Nothing is written back by a decision in time. */
  lemma InTime(sys: System, id: Id, read: WithdrawalStatus, final: WithdrawalStatus)
    requires HasStatus(sys, id, read) && Decidable(read)
    ensures LateDecision(sys, id, read, final) == Return(sys, id, final)
  {
    hide FinalizeFailure;
    WriteBackIs(sys, id, read);
    assert WithRow(sys.store, id, sys.store.withdrawals[id]) == sys.store;
  }

  // ---- the first write alone ----

  ghost predicate DispatchUnderWay(sys: System, id: Id) {
    exists c :: c in sys.calls && sys.calls[c].id == id && Dispatching(sys.calls[c])
  }

  /** When the status that is written back is dangerous by itself, even if the second write never comes. */
  ghost predicate UnsafeToWriteBack(sys: System, id: Id, read: WithdrawalStatus)
    requires id in sys.store.withdrawals
  {
    if read.PendingReview? then PaymentUnderWay(sys, id) || DispatchUnderWay(sys, id) else SendPending(sys, id)
  }

  // -- safe --

  lemma MoreTriesAreSafe(sys: System, most: nat)
    requires Safe(sys) && most >= MAX_DISPATCH_ATTEMPTS
    ensures SafeUpTo(most, sys)
  {
    hide LedgerIntegrity.Inv, Exclusive, NoOrphans;
    forall id | id in sys.store.withdrawals ensures RowOk(most, ViewOf(sys, id)) {
      assert RowOk(MAX_DISPATCH_ATTEMPTS, ViewOf(sys, id));
    }
    forall c | c in sys.calls ensures CallOk(most, sys.calls[c], ViewOf(sys, sys.calls[c].id)) {
      assert CallOk(MAX_DISPATCH_ATTEMPTS, sys.calls[c], ViewOf(sys, sys.calls[c].id));
    }
  }

  lemma WriteBackKeepsSafe(most: nat, sys: System, id: Id, read: WithdrawalStatus)
    requires SafeUpTo(most, sys) && id in sys.store.withdrawals && !Terminal(sys.store.withdrawals[id].status)
    requires Decidable(read)
    requires !SendPending(sys, id)
    requires read.PendingReview? ==>
      ViewOf(sys, id).transfer.None? && !DispatchUnderWay(sys, id) && sys.store.withdrawals[id].attempts < most
    ensures SafeUpTo(most, WriteBack(sys, id, read))
  {
    hide LedgerIntegrity.Inv, Exclusive, NoOrphans;
    WriteBackIs(sys, id, read);
    assert RowOk(most, ViewOf(sys, id));
    forall c | c in sys.calls && sys.calls[c].id == id && Dispatching(sys.calls[c])
      ensures CallOk(most, sys.calls[c], ViewOf(WriteBack(sys, id, read), id))
    {
      assert CallOk(most, sys.calls[c], ViewOf(sys, id));
    }
    UpdateKeepsSafe(most, sys, id, UNFINISHED, read, false);
  }

  lemma SafeLosesNothing(most: nat, sys: System, id: Id)
    requires SafeUpTo(most, sys)
    ensures !LosesMoney(sys, id)
  {
    hide SafeUpTo, Next, Continue, ReturnedAndPaid;
    forall events ensures !ReturnedAndPaid(Continue(sys, events), id) {
      RunKeepsSafe(most, sys, events);
      SafeIsNotReturnedAndPaid(most, Continue(sys, events), id);
    }
  }

  lemma NotPaidLosesNothing(sys: System, id: Id)
    requires id in sys.store.withdrawals && ViewOf(sys, id).transfer == Some(NotPaid)
    ensures !LosesMoney(sys, id)
  {
    hide Next, Continue;
    forall events ensures !ReturnedAndPaid(Continue(sys, events), id) {
      PayoutProgress.NotPaidStays(sys, events, id);
    }
  }

  lemma SafeToWriteBack(sys: System, id: Id, read: WithdrawalStatus)
    requires Unfinished(sys, id) && Decidable(read) && !UnsafeToWriteBack(sys, id, read)
    ensures !LosesMoney(WriteBack(sys, id, read), id)
  {
    hide SafeUpTo, LosesMoney, SendPending, DispatchUnderWay, WriteBack;
    var w := sys.store.withdrawals[id];
    var most := if w.attempts >= MAX_DISPATCH_ATTEMPTS then w.attempts + 1 else MAX_DISPATCH_ATTEMPTS;
    if read.PendingReview? && ViewOf(sys, id).transfer == Some(NotPaid) {
      WriteBackIs(sys, id, read);
      NotPaidLosesNothing(WriteBack(sys, id, read), id);
    } else {
      MoreTriesAreSafe(sys, most);
      NoDispatchNoSend(sys, id);
      TransferCases(ViewOf(sys, id).transfer);
      WriteBackKeepsSafe(most, sys, id, read);
      SafeLosesNothing(most, WriteBack(sys, id, read), id);
    }
  }

  lemma TransferCases(t: Option<Transfer>)
    ensures t in {None, Some(InProgress), Some(Paid), Some(NotPaid)}
  {
    if t.Some? {
      match t.value
      case InProgress =>
      case Paid =>
      case NotPaid =>
    }
  }

  lemma NoDispatchNoSend(sys: System, id: Id)
    ensures SendPending(sys, id) ==> DispatchUnderWay(sys, id)
  {
  }

  // -- unsafe: what can go wrong, from the end backwards --

  lemma {:induction false} ContinueAfter(sys: System, e: Event, events: seq<Event>)
    ensures Continue(sys, [e] + events) == Continue(Next(sys, e), events)
    decreases |events|
  {
    hide Next;
    var all := [e] + events;
    if events == [] {
      assert all[..0] == [];
    } else {
      ContinueAfter(sys, e, events[..|events| - 1]);
      assert all[..|all| - 1] == [e] + events[..|events| - 1];
    }
  }

  lemma LosesAfter(sys: System, e: Event, id: Id)
    requires LosesMoney(Next(sys, e), id)
    ensures LosesMoney(sys, id)
  {
    hide Next, Continue, ReturnedAndPaid;
    var events :| ReturnedAndPaid(Continue(Next(sys, e), events), id);
    ContinueAfter(sys, e, events);
  }

  lemma LostNow(sys: System, id: Id)
    requires ReturnedAndPaid(sys, id)
    ensures LosesMoney(sys, id)
  {
    assert Continue(sys, []) == sys;
  }

  /** A withdrawal that was returned while a Dispatch holds the right to send it. */
  lemma ClaimedLosesMoney(sys: System, id: Id, call: Id)
    requires Returned(sys, id) && ViewOf(sys, id).transfer.None? && call in sys.calls && sys.calls[call] == Claimed(id)
    ensures LosesMoney(sys, id)
  {
    hide Next, LosesMoney;
    var loaded := Next(sys, Reload(call));
    var paid := Send(call, Accept(Paid, true));
    assert loaded == Enter(sys, call, Sending(id, sys.store.withdrawals[id])) by { ReloadReads(sys, call); }
    SendThenPays(loaded, id, call);
    LostNow(Next(loaded, paid), id);
    LosesAfter(loaded, paid, id);
    LosesAfter(sys, Reload(call), id);
  }

  /** The row is in the given unfinished status, nothing is known to the bank, and the books agree. */
  ghost predicate At(sys: System, id: Id, st: WithdrawalStatus) {
    && LedgerIntegrity.Inv(sys.store) && HasStatus(sys, id, st) && !Terminal(st)
    && sys.store.withdrawals[id].amount >= 0 && ViewOf(sys, id).transfer.None?
  }

  lemma Moved(sys: System, id: Id, from: WithdrawalStatus, to: WithdrawalStatus)
    requires At(sys, id, from) && !Terminal(to)
    ensures var sys' := Update(sys, id, {from}, to, false); At(sys', id, to) && sys'.calls == sys.calls
  {
    hide LedgerIntegrity.Inv;
    LedgerIntegrity.TransitionKeepsInv(sys.store, id, {from}, to, false);
  }

  lemma ReturnedAt(sys: System, id: Id, st: WithdrawalStatus)
    requires At(sys, id, st)
    ensures var sys' := Return(sys, id, Failed);
      Returned(sys', id) && ViewOf(sys', id).transfer.None? && sys'.calls == sys.calls
  {
    hide LedgerIntegrity.Inv, FinalizeFailure;
    ReturnGoesThrough(sys.store, id, Failed);
  }

  lemma Claims(sys: System, id: Id, call: Id)
    requires At(sys, id, Queued) && call !in sys.calls
    ensures var sys' := Next(sys, Claim(call, id));
      At(sys', id, Processing) && sys'.calls == sys.calls[call := Claimed(id)]
  {
    hide LedgerIntegrity.Inv, TransitionWithdrawal;
    Moved(sys, id, Queued, Processing);
  }

  lemma RefusalLosesMoney(sys: System, id: Id, refused: Id, claimed: Id, row: Withdrawal)
    requires At(sys, id, Processing) && refused in sys.calls && claimed in sys.calls && refused != claimed
    requires sys.calls[refused] == Declined(id, row, false) && sys.calls[claimed] == Claimed(id)
    ensures LosesMoney(sys, id)
  {
    hide LedgerIntegrity.Inv, FinalizeFailure, LosesMoney;
    ReturnedAt(sys, id, Processing);
    ClaimedLosesMoney(Next(sys, HandleRefusal(refused)), id, claimed);
    LosesAfter(sys, HandleRefusal(refused), id);
  }

  /** The gateway refuses the second claim's send, while the first still holds the right to send. */
  lemma TwoClaimsLoseMoney(sys: System, id: Id, claimed: Id)
    requires At(sys, id, Queued) && claimed in sys.calls && sys.calls[claimed] == Claimed(id)
    ensures LosesMoney(sys, id)
  {
    hide LedgerIntegrity.Inv, LosesMoney, Next;
    var other := Fresh(sys.calls.Keys);
    Claims(sys, id, other);
    var sys1 := Next(sys, Claim(other, id));
    ReloadReads(sys1, other);
    var sys2 := Next(sys1, Reload(other));
    Refuses(sys2, id, other);
    var sys3 := Next(sys2, Send(other, Refuse));
    RefusalLosesMoney(sys3, id, other, claimed, sys2.calls[other].row);
    LosesAfter(sys2, Send(other, Refuse), id);
    LosesAfter(sys1, Reload(other), id);
    LosesAfter(sys, Claim(other, id), id);
  }

  lemma Refuses(sys: System, id: Id, call: Id)
    requires At(sys, id, Processing) && call in sys.calls && sys.calls[call].Sending? && sys.calls[call].id == id
    ensures var sys' := Next(sys, Send(call, Refuse));
      At(sys', id, Processing) && sys'.calls == sys.calls[call := Declined(id, sys.calls[call].row, false)]
  {
    hide LedgerIntegrity.Inv;
  }

  /** A refusal for lack of float requeues or flags the row, although it has been claimed again. */
  lemma LowFloatLosesMoney(sys: System, id: Id, refused: Id, claimed: Id, row: Withdrawal)
    requires At(sys, id, Processing) && refused in sys.calls && claimed in sys.calls && refused != claimed
    requires sys.calls[refused] == Declined(id, row, true) && sys.calls[claimed] == Claimed(id)
    ensures LosesMoney(sys, id)
  {
    hide LedgerIntegrity.Inv, LosesMoney, Update, At;
    var sys' := Next(sys, HandleRefusal(refused));
    assert !Terminal(NeedsAttention) && !Terminal(Queued);
    Moved(sys, id, Processing, NeedsAttention);
    Moved(sys, id, Processing, Queued);
    LowFloatHandled(sys, id, refused, row);
    LeavesRow(Update(sys, id, {Processing}, NeedsAttention, false), refused, id);
    LeavesRow(Update(sys, id, {Processing}, Queued, false), refused, id);
    if row.attempts >= MAX_DISPATCH_ATTEMPTS {
      FlaggedLosesMoney(sys', id, claimed);
    } else {
      TwoClaimsLoseMoney(sys', id, claimed);
    }
    LosesAfter(sys, HandleRefusal(refused), id);
  }

  lemma LeavesRow(sys: System, call: Id, id: Id)
    ensures forall st :: At(sys, id, st) ==> At(Leave(sys, call), id, st)
  {
    hide LedgerIntegrity.Inv;
  }

  lemma LowFloatHandled(sys: System, id: Id, refused: Id, row: Withdrawal)
    requires refused in sys.calls && sys.calls[refused] == Declined(id, row, true)
    ensures Next(sys, HandleRefusal(refused)) ==
      Leave(Update(sys, id, {Processing}, if row.attempts >= MAX_DISPATCH_ATTEMPTS then NeedsAttention
                   else Queued, false), refused)
  {
    hide Update, FinalizeFailure;
  }

  lemma FlaggedLosesMoney(sys: System, id: Id, claimed: Id)
    requires At(sys, id, NeedsAttention) && claimed in sys.calls && sys.calls[claimed] == Claimed(id)
    ensures LosesMoney(sys, id)
  {
    hide LedgerIntegrity.Inv, FinalizeFailure, LosesMoney;
    ReturnedAt(sys, id, NeedsAttention);
    ClaimedLosesMoney(Next(sys, MarkFailed(id)), id, claimed);
    LosesAfter(sys, MarkFailed(id), id);
  }

  /**
   * Back under review while a refusal has not been handled: approved and claimed again, the refusal then hits the new
   * Dispatch.
   */
  lemma RefusedLosesMoney(sys: System, id: Id, refused: Id, row: Withdrawal)
    requires At(sys, id, PendingReview) && refused in sys.calls && sys.calls[refused].Declined?
    requires sys.calls[refused].id == id
    ensures LosesMoney(sys, id)
  {
    hide LedgerIntegrity.Inv, LosesMoney, TransitionWithdrawal, At;
    var claimed := Fresh(sys.calls.Keys);
    assert Next(sys, Approve(id)) == Update(sys, id, {PendingReview}, Queued, false) by { Approves(sys, id); }
    hide Next;
    Moved(sys, id, PendingReview, Queued);
    var sys1 := Next(sys, Approve(id));
    Claims(sys1, id, claimed);
    var sys2 := Next(sys1, Claim(claimed, id));
    if sys.calls[refused].lowFloat {
      LowFloatLosesMoney(sys2, id, refused, claimed, sys.calls[refused].row);
    } else {
      RefusalLosesMoney(sys2, id, refused, claimed, sys.calls[refused].row);
    }
    LosesAfter(sys1, Claim(claimed, id), id);
    LosesAfter(sys, Approve(id), id);
  }

  lemma Approves(sys: System, id: Id)
    requires At(sys, id, PendingReview)
    ensures Next(sys, Approve(id)) == Update(sys, id, {PendingReview}, Queued, false)
  {
    hide LedgerIntegrity.Inv, TransitionWithdrawal;
  }

  // -- exactly when --

  lemma UnsafeReview(sys: System, id: Id)
    requires Unfinished(sys, id) && UnsafeToWriteBack(sys, id, PendingReview)
    ensures LosesMoney(WriteBack(sys, id, PendingReview), id)
  {
    hide LosesMoney, Return, Safe;
    WriteBackIs(sys, id, PendingReview);
    var written := WriteBack(sys, id, PendingReview);
    if PaymentUnderWay(sys, id) {
      ReturnLosesMoneyIffPaymentUnderWay(sys, id, Rejected);
      LateDecisionIsReturn(sys, id, PendingReview, Rejected);
      Rejects(written, id);
      LosesAfter(written, Reject(id), id);
    } else {
      RefusedUnderWay(sys, id);
      var c :| c in sys.calls && sys.calls[c].id == id && sys.calls[c].Declined?;
      WrittenAt(sys, id, PendingReview);
      RefusedLosesMoney(written, id, c, sys.calls[c].row);
    }
  }

  lemma Rejects(sys: System, id: Id)
    requires HasStatus(sys, id, PendingReview)
    ensures Next(sys, Reject(id)) == Return(sys, id, Rejected)
  {
    hide FinalizeFailure;
  }

  /** Otherwise it is a refused Dispatch that has not handled its refusal, and the bank knows nothing. */
  lemma RefusedUnderWay(sys: System, id: Id)
    requires Unfinished(sys, id) && DispatchUnderWay(sys, id) && !PaymentUnderWay(sys, id)
    ensures ViewOf(sys, id).transfer.None?
    ensures exists c :: c in sys.calls && sys.calls[c].id == id && sys.calls[c].Declined?
  {
    hide LedgerIntegrity.Inv, RowOk, Exclusive, NoOrphans;
    var c :| c in sys.calls && sys.calls[c].id == id && Dispatching(sys.calls[c]);
    assert CallOk(MAX_DISPATCH_ATTEMPTS, sys.calls[c], ViewOf(sys, id));
  }

  lemma WrittenAt(sys: System, id: Id, read: WithdrawalStatus)
    requires Unfinished(sys, id) && Decidable(read) && ViewOf(sys, id).transfer.None?
    ensures At(WriteBack(sys, id, read), id, read) && WriteBack(sys, id, read).calls == sys.calls
  {
    hide LedgerIntegrity.Inv, ViewsOk, Exclusive, NoOrphans;
    LedgerIntegrity.TransitionKeepsInv(sys.store, id, UNFINISHED, read, false);
  }

  lemma UnsafeAttention(sys: System, id: Id)
    requires Unfinished(sys, id) && SendPending(sys, id)
    ensures LosesMoney(WriteBack(sys, id, NeedsAttention), id)
  {
    hide LosesMoney, Return, Safe;
    WriteBackIs(sys, id, NeedsAttention);
    var written := WriteBack(sys, id, NeedsAttention);
    PendingIsUnsent(sys, id);
    ReturnLosesMoneyIffPaymentUnderWay(sys, id, Failed);
    LateDecisionIsReturn(sys, id, NeedsAttention, Failed);
    Fails(written, id);
    LosesAfter(written, MarkFailed(id), id);
  }

  lemma PendingIsUnsent(sys: System, id: Id)
    requires Unfinished(sys, id) && SendPending(sys, id)
    ensures ViewOf(sys, id).transfer.None?
  {
    hide LedgerIntegrity.Inv, RowOk, Exclusive, NoOrphans;
    var c :| c in sys.calls && sys.calls[c].id == id && Unsent(sys.calls[c]);
    assert CallOk(MAX_DISPATCH_ATTEMPTS, sys.calls[c], ViewOf(sys, id));
  }

  lemma Fails(sys: System, id: Id)
    requires HasStatus(sys, id, NeedsAttention) && ViewOf(sys, id).transfer.None?
    ensures Next(sys, MarkFailed(id)) == Return(sys, id, Failed)
  {
    hide FinalizeFailure;
  }

  /**
   * The status written back can lead to money returned and paid, whatever becomes of the decision, exactly in these
   * cases: back to review, while a payment is under way or a refused Dispatch has not handled its refusal; back to
   * needing attention, while a Dispatch has not finished its send.
   */
  lemma WriteBackLosesMoneyIff(sys: System, id: Id, read: WithdrawalStatus)
    requires Unfinished(sys, id) && Decidable(read)
    ensures LosesMoney(WriteBack(sys, id, read), id) <==> UnsafeToWriteBack(sys, id, read)
  {
    hide LosesMoney, Safe, WriteBack, PaymentUnderWay, DispatchUnderWay;
    if !UnsafeToWriteBack(sys, id, read) {
      SafeToWriteBack(sys, id, read);
    } else if read.PendingReview? {
      UnsafeReview(sys, id);
    } else {
      UnsafeAttention(sys, id);
    }
  }

  // ---- such a moment is within reach ----

  const REQUEST := Withdrawal(1, ByDriver, PendingReview, 10_000, 1_000, 9_000, 5, DriverRef(1), 0, 0, false)

  lemma OneMore(events: seq<Event>, e: Event) returns (more: seq<Event>)
    ensures more == events + [e] && After(more) == Next(After(events), e)
  {
    hide Next;
    more := events + [e];
    assert more[..|events|] == events;
  }

  lemma OtherStep(sys: System, op: Op)
    requires !TouchesWithdrawals(op) && Legal(op)
    ensures Next(sys, Other(op)) == sys.(store := Perform(sys.store, op).0)
  {
    hide Perform;
  }

  /** A driver with 100 naira. */
  lemma FundedDriver() returns (events: seq<Event>)
    ensures var sys := After(events);
      && sys == START.(store := sys.store) && LedgerIntegrity.Inv(sys.store) && sys.store.withdrawals == map[]
      && 1 in sys.store.wallets && sys.store.wallets[1] == WalletRow(10_000, NotFrozen)
  {
    hide Next, LedgerIntegrity.Inv, Perform;
    var create, credit := OpCreateTopup(0, 1, None), OpCreditTopup(0, 10_000, 10_000);
    FundedStore();
    events := OneMore([], Other(create));
    OtherStep(START, create);
    OtherStep(After(events), credit);
    events := OneMore(events, Other(credit));
  }

  lemma FundedStore()
    ensures var s := Perform(Perform(EMPTY, OpCreateTopup(0, 1, None)).0, OpCreditTopup(0, 10_000, 10_000)).0;
      && LedgerIntegrity.Inv(s) && s.withdrawals == map[]
      && 1 in s.wallets && s.wallets[1] == WalletRow(10_000, NotFrozen)
  {
    hide LedgerIntegrity.Inv, CreditTopup;
    LedgerIntegrity.EmptyStoreInv();
    Quotes.TopupArrives(EMPTY, 0, 1, 10_000);
  }

  lemma Requested(sys: System)
    requires LedgerIntegrity.Inv(sys.store) && sys.store.withdrawals == map[]
    requires 1 in sys.store.wallets && sys.store.wallets[1] == WalletRow(10_000, NotFrozen)
    ensures Next(sys, Other(OpCreateWithdrawal(1, REQUEST, Guard(0, 0, 0, 0)))).store.withdrawals == map[1 := REQUEST]
    ensures Next(sys, Other(OpCreateWithdrawal(1, REQUEST, Guard(0, 0, 0, 0)))) ==
      sys.(store := Next(sys, Other(OpCreateWithdrawal(1, REQUEST, Guard(0, 0, 0, 0)))).store)
  {
    hide LedgerIntegrity.Inv, CreateWithdrawal;
    LedgerLaws.UnguardedCreateSucceeds(sys.store, 1, REQUEST, 0);
  }

  lemma ApprovedAndClaimed(sys: System)
    requires sys.store.withdrawals == map[1 := REQUEST] && sys.calls == map[]
    ensures var sys' := Next(Next(sys, Approve(1)), Claim(0, 1));
      && sys'.store.withdrawals == map[1 := REQUEST.(status := Processing, attempts := 1)]
      && sys'.calls == map[0 := Claimed(1)]
  {
    var approved := Next(sys, Approve(1));
    assert approved.store.withdrawals == map[1 := REQUEST.(status := Queued)];
  }

  /**
   * A run in which the row is under review when an admin may read it, and is being sent when the decision on that read
   * is written: a rejection that comes late there loses money.
   */
  lemma LateRejectionIsReachable() returns (read: seq<Event>, events: seq<Event>)
    ensures read <= events && HasStatus(After(read), 1, PendingReview)
    ensures LosesMoney(LateDecision(After(events), 1, PendingReview, Rejected), 1)
  {
    hide Next, After, LosesMoney, LedgerIntegrity.Inv, SafeUpTo, LateDecision;
    read := FundedDriver();
    Requested(After(read));
    read := OneMore(read, Other(OpCreateWithdrawal(1, REQUEST, Guard(0, 0, 0, 0))));
    ApprovedAndClaimed(After(read));
    events := OneMore(read, Approve(1));
    events := OneMore(events, Claim(0, 1));
    StartIsSafe();
    AfterIsSafe(events);
    assert SendPending(After(events), 1) by { assert After(events).calls[0] == Claimed(1); }
    LateDecisionLosesMoneyIff(After(events), 1, PendingReview, Rejected);
  }

  lemma AfterIsSafe(events: seq<Event>)
    ensures Safe(After(events))
  {
    hide SafeUpTo, Next;
    StartIsSafe();
    RunKeepsSafe(MAX_DISPATCH_ATTEMPTS, START, events);
  }
}
