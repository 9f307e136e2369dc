/** A payout is never both returned and paid, in any interleaving of the calls of module Payout. */
module PayoutSafety {
  import opened Wrappers
  import opened Ledger
  import LedgerIntegrity
  import LedgerLaws
  import opened Payout

  // ---- the invariant, one withdrawal at a time ----

  /**
   * What the status of a row says about its transfer, and how the sends are counted: a row tried `most` times does
   * not wait.
   */
  predicate RowOk(most: nat, v: View) {
    && v.sends <= v.row.attempts && v.sends <= most
    && (v.row.flwKnown ==> v.transfer.Some?)
    && match v.row.status
       case PendingReview => v.transfer.None? && v.row.attempts < most
       case Queued => v.transfer.None? && v.row.attempts < most
       case Failed => v.transfer != Some(InProgress) && v.transfer != Some(Paid)
       case Rejected => v.transfer != Some(InProgress) && v.transfer != Some(Paid)
       case Successful => v.transfer == Some(Paid)
       case Processing => true
       case NeedsAttention => true
  }

  /** What a call under way knows about its withdrawal. */
  predicate CallOk(most: nat, c: Call, v: View) {
    match c
    case Claimed(_) =>
      v.row.status.Processing? && v.transfer.None? && v.sends < v.row.attempts <= most
    case Sending(_, row) =>
      v.row.status.Processing? && v.transfer.None? && v.sends < v.row.attempts <= most && row == v.row
    case Declined(_, row, _) =>
      && v.transfer.None? && row.reference == v.row.reference
      && (v.row.status.Processing? || v.row.status.NeedsAttention? || v.row.status.Failed? || v.row.status.Rejected?)
      && (v.row.status.Processing? ==> v.row.attempts == row.attempts)
    case Looking(_, row) => InBank(row, v)
    case Reported(_, row, t, _) => InBank(row, v) && (t.InProgress? || v.transfer == Some(t))
    case Settling(_, row, t, _) => InBank(row, v) && (t.InProgress? || v.transfer == Some(t))
    case Unsettled(_) => v.transfer.Some?
    case Overdue(_) => true
  }

  /** The row was read while its transfer existed, so it was not waiting in the queue. */
  predicate InBank(row: Withdrawal, v: View) {
    v.transfer.Some? && row.reference == v.row.reference && (row.status.Processing? || row.status.NeedsAttention?)
  }

  ghost predicate ViewsOk(most: nat, sys: System) {
    && (forall id :: id in sys.store.withdrawals ==> RowOk(most, ViewOf(sys, id)))
    && (forall c :: c in sys.calls ==>
        sys.calls[c].id in sys.store.withdrawals && CallOk(most, sys.calls[c], ViewOf(sys, sys.calls[c].id)))
  }

  /** At most one Dispatch of a withdrawal is between its claim and the end of its send. */
  ghost predicate Exclusive(calls: map<Id, Call>) {
    forall c, d ::
      c in calls && d in calls && Dispatching(calls[c]) && Dispatching(calls[d]) && calls[c].id == calls[d].id ==>
      c == d
  }

  /** Transfers and send counts belong to withdrawals. */
  ghost predicate NoOrphans(sys: System) {
    && (forall r :: r in sys.bank ==> WithReference(sys.store.withdrawals, r) != {})
    && (forall id :: id in sys.sends ==> id in sys.store.withdrawals)
  }

  ghost predicate SafeUpTo(most: nat, sys: System) {
    LedgerIntegrity.Inv(sys.store) && ViewsOk(most, sys) && Exclusive(sys.calls) && NoOrphans(sys)
    && most >= MAX_DISPATCH_ATTEMPTS
  }

  ghost predicate Safe(sys: System) {
    SafeUpTo(MAX_DISPATCH_ATTEMPTS, sys)
  }

  // ---- the kinds of change every event is made of ----

  lemma ReferencesAreUnique(s: Store, i: Id, j: Id)
    requires LedgerIntegrity.Inv(s)
    requires i in s.withdrawals && j in s.withdrawals && s.withdrawals[i].reference == s.withdrawals[j].reference
    ensures i == j
  {
  }

  /** A call that is not dispatching only relies on a transfer not disappearing or changing its final outcome. */
  lemma CallSurvives(most: nat, c: Call, v: View, v': View)
    requires CallOk(most, c, v) && !Dispatching(c)
    requires v'.row.reference == v.row.reference
    requires v'.transfer == v.transfer || v.transfer.None? || v.transfer == Some(InProgress)
    requires v.transfer.Some? ==> v'.transfer.Some?
    ensures CallOk(most, c, v')
  {
  }

  lemma LeaveKeepsSafe(most: nat, sys: System, call: Id)
    requires SafeUpTo(most, sys)
    ensures SafeUpTo(most, Leave(sys, call))
  {
    hide LedgerIntegrity.Inv, RowOk, CallOk;
    var sys' := Leave(sys, call);
    assert forall id :: id in sys.store.withdrawals ==> ViewOf(sys', id) == ViewOf(sys, id);
  }

  lemma EnterKeepsSafe(most: nat, sys: System, call: Id, c: Call)
    requires SafeUpTo(most, sys)
    requires c.id in sys.store.withdrawals && CallOk(most, c, ViewOf(sys, c.id))
    requires Dispatching(c) ==> forall d :: d in sys.calls && Dispatching(sys.calls[d]) && sys.calls[d].id == c.id ==>
      d == call
    ensures SafeUpTo(most, Enter(sys, call, c))
  {
    hide LedgerIntegrity.Inv, RowOk, CallOk;
    var sys' := Enter(sys, call, c);
    assert forall id :: id in sys.store.withdrawals ==> ViewOf(sys', id) == ViewOf(sys, id);
  }

  /** One row changes; its transfer and its sends do not. */
  lemma RowKeepsSafe(most: nat, sys: System, id: Id, store: Store)
    requires SafeUpTo(most, sys) && LedgerIntegrity.Inv(store)
    requires id in sys.store.withdrawals && id in store.withdrawals
    requires store.withdrawals == sys.store.withdrawals[id := store.withdrawals[id]]
    requires store.withdrawals[id].reference == sys.store.withdrawals[id].reference
    requires RowOk(most, ViewOf(sys.(store := store), id))
    requires forall c :: c in sys.calls && sys.calls[c].id == id && Dispatching(sys.calls[c]) ==>
      CallOk(most, sys.calls[c], ViewOf(sys.(store := store), id))
    ensures SafeUpTo(most, sys.(store := store))
  {
    hide LedgerIntegrity.Inv, RowOk, CallOk;
    var sys' := sys.(store := store);
    assert forall o :: o in sys.store.withdrawals && o != id ==> ViewOf(sys', o) == ViewOf(sys, o);
    forall c | c in sys.calls
      ensures sys.calls[c].id in store.withdrawals && CallOk(most, sys.calls[c], ViewOf(sys', sys.calls[c].id)) {
      if sys.calls[c].id == id && !Dispatching(sys.calls[c]) {
        CallSurvives(most, sys.calls[c], ViewOf(sys, id), ViewOf(sys', id));
      }
    }
    forall r | r in sys.bank ensures WithReference(store.withdrawals, r) != {} {
      var o :| o in WithReference(sys.store.withdrawals, r);
      assert o in WithReference(store.withdrawals, r);
    }
  }

  /** The bank has this transfer now, and the send may have been counted. */
  function Known(sys: System, id: Id, t: Option<Transfer>, counted: bool): System
    requires id in sys.store.withdrawals
  {
    var bank := if t.Some? then sys.bank[sys.store.withdrawals[id].reference := t.value] else sys.bank;
    var sends := if counted then sys.sends[id := ViewOf(sys, id).sends + 1] else sys.sends;
    sys.(bank := bank, sends := sends)
  }

  lemma KnownLeavesOthers(sys: System, id: Id, t: Option<Transfer>, counted: bool, o: Id)
    requires LedgerIntegrity.Inv(sys.store)
    requires id in sys.store.withdrawals && o in sys.store.withdrawals && o != id
    ensures ViewOf(Known(sys, id, t, counted), o) == ViewOf(sys, o)
  {
    if sys.store.withdrawals[o].reference == sys.store.withdrawals[id].reference {
      ReferencesAreUnique(sys.store, o, id);
    }
  }

  /** The bank learns more about one transfer that no Dispatch is about to send; no row changes. */
  lemma BankKeepsSafe(most: nat, sys: System, id: Id, t: Option<Transfer>, counted: bool)
    requires SafeUpTo(most, sys) && id in sys.store.withdrawals
    requires RowOk(most, ViewOf(Known(sys, id, t, counted), id))
    requires t.Some? ==> ViewOf(sys, id).transfer.None? || ViewOf(sys, id).transfer == Some(InProgress)
    requires forall c :: c in sys.calls && sys.calls[c].id == id && Dispatching(sys.calls[c]) ==>
      CallOk(most, sys.calls[c], ViewOf(Known(sys, id, t, counted), id))
    ensures SafeUpTo(most, Known(sys, id, t, counted))
  {
    hide RowOk, CallOk, LedgerIntegrity.Inv;
    var sys' := Known(sys, id, t, counted);
    forall o | o in sys.store.withdrawals && o != id ensures ViewOf(sys', o) == ViewOf(sys, o) {
      KnownLeavesOthers(sys, id, t, counted, o);
    }
    forall c | c in sys.calls ensures CallOk(most, sys.calls[c], ViewOf(sys', sys.calls[c].id)) {
      if sys.calls[c].id == id && !Dispatching(sys.calls[c]) {
        CallSurvives(most, sys.calls[c], ViewOf(sys, id), ViewOf(sys', id));
      }
    }
    assert id in WithReference(sys.store.withdrawals, sys.store.withdrawals[id].reference);
  }

  // ---- repository calls on one row ----

  predicate Open(st: WithdrawalStatus) {
    !Terminal(st)
  }

  lemma UpdateKeepsSafe(most: nat, sys: System, id: Id, from: set<WithdrawalStatus>, to: WithdrawalStatus,
                        flwKnown: bool)
    requires SafeUpTo(most, sys) && id in sys.store.withdrawals
    requires Open(to) && Successful !in from && Failed !in from && Rejected !in from
    requires var sys' := Update(sys, id, from, to, flwKnown);
      && RowOk(most, ViewOf(sys', id))
      && forall c :: c in sys.calls && sys.calls[c].id == id && Dispatching(sys.calls[c]) ==>
        CallOk(most, sys.calls[c], ViewOf(sys', id))
    ensures SafeUpTo(most, Update(sys, id, from, to, flwKnown))
  {
    hide LedgerIntegrity.Inv, RowOk, CallOk, ViewsOk, Exclusive, NoOrphans;
    LedgerIntegrity.TransitionKeepsInv(sys.store, id, from, to, flwKnown);
    RowKeepsSafe(most, sys, id, TransitionWithdrawal(sys.store, id, from, to, flwKnown).0);
  }

  lemma FailureRow(s: Store, id: Id, final: WithdrawalStatus)
    requires id in s.withdrawals && (final.Failed? || final.Rejected?)
    ensures var s' := FinalizeFailure(s, id, final).0;
      s'.withdrawals == s.withdrawals || s'.withdrawals == s.withdrawals[id := s.withdrawals[id].(status := final)]
  {
    hide ApplyPostings, PostingSum;
  }

  lemma SuccessRow(s: Store, id: Id, flwKnown: bool)
    requires id in s.withdrawals
    ensures var s', w := FinalizeSuccess(s, id, flwKnown).0, s.withdrawals[id];
      || s'.withdrawals == s.withdrawals
      || s'.withdrawals == s.withdrawals[id := w.(status := Successful, flwKnown := w.flwKnown || flwKnown)]
  {
    hide ApplyPostings, PostingSum;
  }

  /** Returning the money is safe exactly when the bank neither has nor will get a transfer to pay. */
  lemma FailureKeepsSafe(most: nat, sys: System, id: Id, final: WithdrawalStatus)
    requires SafeUpTo(most, sys) && id in sys.store.withdrawals
    requires final.Failed? || final.Rejected?
    requires ViewOf(sys, id).transfer != Some(InProgress) && ViewOf(sys, id).transfer != Some(Paid)
    requires forall c :: c in sys.calls && sys.calls[c].id == id && Dispatching(sys.calls[c]) ==> sys.calls[c].Declined?
    ensures SafeUpTo(most, sys.(store := FinalizeFailure(sys.store, id, final).0))
  {
    hide LedgerIntegrity.Inv, Exclusive, NoOrphans, FinalizeFailure;
    var store := FinalizeFailure(sys.store, id, final).0;
    LedgerIntegrity.FinalizeFailureKeepsInv(sys.store, id, final);
    FailureRow(sys.store, id, final);
    RowKeepsSafe(most, sys, id, store);
  }

  lemma SuccessKeepsSafe(most: nat, sys: System, id: Id, flwKnown: bool)
    requires SafeUpTo(most, sys) && id in sys.store.withdrawals
    requires ViewOf(sys, id).transfer == Some(Paid)
    ensures SafeUpTo(most, sys.(store := FinalizeSuccess(sys.store, id, flwKnown).0))
  {
    hide LedgerIntegrity.Inv, Exclusive, NoOrphans, FinalizeSuccess;
    var store := FinalizeSuccess(sys.store, id, flwKnown).0;
    LedgerIntegrity.FinalizeSuccessKeepsInv(sys.store, id, flwKnown);
    SuccessRow(sys.store, id, flwKnown);
    RowKeepsSafe(most, sys, id, store);
  }

  // ---- events ----

  lemma ClaimKeepsSafe(most: nat, sys: System, call: Id, id: Id)
    requires SafeUpTo(most, sys)
    ensures SafeUpTo(most, Next(sys, Claim(call, id)))
  {
    hide LedgerIntegrity.Inv;
    if call !in sys.calls && HasStatus(sys, id, Queued) {
      assert RowOk(most, ViewOf(sys, id));
      UpdateKeepsSafe(most, sys, id, {Queued}, Processing, false);
      EnterKeepsSafe(most, Update(sys, id, {Queued}, Processing, false), call, Claimed(id));
    }
  }

  lemma ReloadKeepsSafe(most: nat, sys: System, call: Id)
    requires SafeUpTo(most, sys)
    ensures SafeUpTo(most, Next(sys, Reload(call)))
  {
    hide LedgerIntegrity.Inv;
    if call in sys.calls && sys.calls[call].Claimed? {
      EnterKeepsSafe(most, sys, call, Sending(sys.calls[call].id, sys.store.withdrawals[sys.calls[call].id]));
    }
  }

  /** A send is counted and may have put the transfer in the bank; the call that made it no longer dispatches. */
  lemma SendIsCounted(most: nat, sys: System, call: Id, t: Option<Transfer>)
    requires SafeUpTo(most, sys) && call in sys.calls && sys.calls[call].Sending?
    ensures var id, row := sys.calls[call].id, sys.calls[call].row;
      && id in sys.store.withdrawals && row == sys.store.withdrawals[id] && row.status.Processing?
      && row.reference !in sys.bank
      && SafeUpTo(most, Known(Leave(sys, call), id, t, true))
      && ViewOf(Known(Leave(sys, call), id, t, true), id) == View(row, t, ViewOf(sys, id).sends + 1)
      && forall c :: c in sys.calls && c != call && sys.calls[c].id == id ==> !Dispatching(sys.calls[c])
  {
    hide LedgerIntegrity.Inv;
    var c := sys.calls[call];
    assert CallOk(most, c, ViewOf(sys, c.id)) && RowOk(most, ViewOf(sys, c.id));
    LeaveKeepsSafe(most, sys, call);
    assert ViewOf(Leave(sys, call), c.id) == ViewOf(sys, c.id);
    BankKeepsSafe(most, Leave(sys, call), c.id, t, true);
  }

  /** What an answer makes of its call. */
  function Answered(c: Call, reply: Reply): Call
    requires c.Sending?
  {
    if reply.Accept? then Reported(c.id, c.row, reply.transfer, reply.hasId)
      else Declined(c.id, c.row, reply.RefuseLowFloat?)
  }

  /** What an answer, or a lost one, puts in the bank. */
  function Made(reply: Reply): Option<Transfer> {
    match reply
    case Accept(t, _) => Some(t)
    case Lost(true) => Some(InProgress)
    case _ => None
  }

  lemma SendIs(sys: System, call: Id, reply: Reply)
    requires call in sys.calls && sys.calls[call].Sending?
    requires var c := sys.calls[call];
      c.id in sys.store.withdrawals && c.row == sys.store.withdrawals[c.id] && c.row.reference !in sys.bank
    ensures var c := sys.calls[call];
      var known := Known(Leave(sys, call), c.id, Made(reply), true);
      Next(sys, Send(call, reply)) == if reply.Lost? then known else Enter(known, call, Answered(c, reply))
  {
    assert (sys.calls - {call})[call := Answered(sys.calls[call], reply)] ==
      sys.calls[call := Answered(sys.calls[call], reply)];
  }

  lemma NothingToSend(sys: System, call: Id, reply: Reply)
    requires call !in sys.calls || !sys.calls[call].Sending?
    ensures Next(sys, Send(call, reply)) == sys
  {
  }

  lemma AnswerFits(most: nat, c: Call, reply: Reply, v: View)
    requires c.Sending? && !reply.Lost? && v.row == c.row && v.transfer == Made(reply) && v.row.status.Processing?
    ensures CallOk(most, Answered(c, reply), v)
  {
  }

  lemma SendKeepsSafe(most: nat, sys: System, call: Id, reply: Reply)
    requires SafeUpTo(most, sys)
    ensures SafeUpTo(most, Next(sys, Send(call, reply)))
  {
    hide SafeUpTo, Next, RowOk, CallOk, Known, Made, ViewOf;
    if call in sys.calls && sys.calls[call].Sending? {
      var c := sys.calls[call];
      SendIsCounted(most, sys, call, Made(reply));
      SendIs(sys, call, reply);
      var known := Known(Leave(sys, call), c.id, Made(reply), true);
      if !reply.Lost? {
        KnownCalls(Leave(sys, call), c.id, Made(reply), true);
        AnswerFits(most, c, reply, ViewOf(known, c.id));
        EnterKeepsSafe(most, known, call, Answered(c, reply));
      }
    } else {
      NothingToSend(sys, call, reply);
    }
  }

  lemma KnownCalls(sys: System, id: Id, t: Option<Transfer>, counted: bool)
    requires id in sys.store.withdrawals
    ensures Known(sys, id, t, counted).calls == sys.calls && Known(sys, id, t, counted).store == sys.store
  {
  }

  /** A Dispatch whose send was refused, on its own: the call is gone and its row is as the call left it. */
  lemma LeavingDispatch(most: nat, sys: System, call: Id)
    requires SafeUpTo(most, sys) && call in sys.calls && Dispatching(sys.calls[call])
    ensures var c := sys.calls[call];
      var gone := Leave(sys, call);
      && most >= MAX_DISPATCH_ATTEMPTS && SafeUpTo(most, gone) && c.id in gone.store.withdrawals
      && ViewOf(gone, c.id) == ViewOf(sys, c.id)
      && RowOk(most, ViewOf(sys, c.id)) && CallOk(most, c, ViewOf(sys, c.id))
      && forall d :: d in gone.calls && gone.calls[d].id == c.id ==> !Dispatching(gone.calls[d])
  {
    hide LedgerIntegrity.Inv, RowOk, CallOk, NoOrphans;
    LeaveKeepsSafe(most, sys, call);
  }

  lemma HandleRefusalKeepsSafe(most: nat, sys: System, call: Id)
    requires SafeUpTo(most, sys)
    ensures SafeUpTo(most, Next(sys, HandleRefusal(call)))
  {
    hide SafeUpTo, FinalizeFailure;
    if call in sys.calls && sys.calls[call].Declined? {
      var c := sys.calls[call];
      var gone := Leave(sys, call);
      LeavingDispatch(most, sys, call);
      if !c.lowFloat {
        FailureKeepsSafe(most, gone, c.id, Failed);
      } else if c.row.attempts >= MAX_DISPATCH_ATTEMPTS {
        UpdateKeepsSafe(most, gone, c.id, {Processing}, NeedsAttention, false);
      } else {
        UpdateKeepsSafe(most, gone, c.id, {Processing}, Queued, false);
      }
    }
  }

  lemma RecordTransferIdKeepsSafe(most: nat, sys: System, call: Id)
    requires SafeUpTo(most, sys)
    ensures SafeUpTo(most, Next(sys, RecordTransferId(call)))
  {
    hide LedgerIntegrity.Inv, Exclusive, NoOrphans;
    if call in sys.calls && sys.calls[call].Reported? {
      var c := sys.calls[call];
      assert CallOk(most, c, ViewOf(sys, c.id)) && RowOk(most, ViewOf(sys, c.id));
      var sys' := if c.hasId && !c.row.flwKnown then Update(sys, c.id, {Processing, NeedsAttention}, c.row.status, true)
        else sys;
      if c.hasId && !c.row.flwKnown {
        UpdateKeepsSafe(most, sys, c.id, {Processing, NeedsAttention}, c.row.status, true);
      }
      EnterKeepsSafe(most, sys', call, Settling(c.id, c.row, c.transfer, c.hasId));
    }
  }

  /** What a safe system says about a call and its row; a call that is not dispatching can be ended by its own lemma. */
  lemma CallSays(most: nat, sys: System, call: Id)
    requires SafeUpTo(most, sys) && call in sys.calls
    ensures sys.calls[call].id in sys.store.withdrawals
    ensures CallOk(most, sys.calls[call], ViewOf(sys, sys.calls[call].id))
    ensures RowOk(most, ViewOf(sys, sys.calls[call].id))
  {
    hide LedgerIntegrity.Inv, CallOk, RowOk, Exclusive, NoOrphans;
  }

  /** No Dispatch that could still send is at work on a withdrawal the bank already knows. */
  lemma NoneUnsent(most: nat, sys: System, id: Id)
    requires SafeUpTo(most, sys) && id in sys.store.withdrawals && ViewOf(sys, id).transfer.Some?
    ensures forall c :: c in sys.calls && sys.calls[c].id == id ==> !Dispatching(sys.calls[c])
  {
    hide LedgerIntegrity.Inv, Exclusive, NoOrphans, RowOk;
    forall c | c in sys.calls && sys.calls[c].id == id ensures !Dispatching(sys.calls[c]) {
      assert CallOk(most, sys.calls[c], ViewOf(sys, id));
    }
  }

  lemma PaidKeepsSafe(most: nat, sys: System, call: Id)
    requires SafeUpTo(most, sys) && call in sys.calls && sys.calls[call].Settling? && sys.calls[call].transfer.Paid?
    ensures SafeUpTo(most, AfterSettle(sys, call))
  {
    hide SafeUpTo, FinalizeSuccess, FinalizeFailure, RowOk;
    var c := sys.calls[call];
    CallSays(most, sys, call);
    SuccessKeepsSafe(most, sys, c.id, c.hasId);
    SuccessRow(sys.store, c.id, c.hasId);
    var settled := sys.(store := FinalizeSuccess(sys.store, c.id, c.hasId).0);
    EnterKeepsSafe(most, settled, call, Unsettled(c.id));
    LeaveKeepsSafe(most, settled, call);
  }

  lemma NotPaidKeepsSafe(most: nat, sys: System, call: Id)
    requires SafeUpTo(most, sys) && call in sys.calls && sys.calls[call].Settling? && sys.calls[call].transfer.NotPaid?
    ensures SafeUpTo(most, AfterSettle(sys, call))
  {
    hide SafeUpTo, FinalizeSuccess, FinalizeFailure, RowOk;
    var c := sys.calls[call];
    CallSays(most, sys, call);
    NoneUnsent(most, sys, c.id);
    FailureKeepsSafe(most, sys, c.id, Failed);
    LeaveKeepsSafe(most, sys.(store := FinalizeFailure(sys.store, c.id, Failed).0), call);
  }

  lemma SettleKeepsSafe(most: nat, sys: System, call: Id)
    requires SafeUpTo(most, sys)
    ensures SafeUpTo(most, Next(sys, Settle(call)))
  {
    hide SafeUpTo, FinalizeFailure, FinalizeSuccess;
    if call in sys.calls && sys.calls[call].Settling? {
      match sys.calls[call].transfer {
        case Paid => PaidKeepsSafe(most, sys, call);
        case NotPaid => NotPaidKeepsSafe(most, sys, call);
        case InProgress => LeaveKeepsSafe(most, sys, call);
      }
    }
  }

  lemma FlagUnsettledKeepsSafe(most: nat, sys: System, call: Id)
    requires SafeUpTo(most, sys)
    ensures SafeUpTo(most, Next(sys, FlagUnsettled(call)))
  {
    hide LedgerIntegrity.Inv, Exclusive, NoOrphans;
    if call in sys.calls && sys.calls[call].Unsettled? {
      var id := sys.calls[call].id;
      assert CallOk(most, sys.calls[call], ViewOf(sys, id)) && RowOk(most, ViewOf(sys, id));
      UpdateKeepsSafe(most, sys, id, {Processing, Queued}, NeedsAttention, false);
      LeaveKeepsSafe(most, Update(sys, id, {Processing, Queued}, NeedsAttention, false), call);
    }
  }

  /** A row that is read while its transfer exists. */
  lemma LookKeepsSafe(most: nat, sys: System, e: Event)
    requires SafeUpTo(most, sys)
    requires e.WebhookArrives? || e.PollInFlight?
    ensures SafeUpTo(most, Next(sys, e))
  {
    hide LedgerIntegrity.Inv, Exclusive, NoOrphans;
    if Next(sys, e) != sys {
      assert RowOk(most, ViewOf(sys, e.id));
      EnterKeepsSafe(most, sys, e.call, Looking(e.id, sys.store.withdrawals[e.id]));
    }
  }

  lemma AskKeepsSafe(most: nat, sys: System, call: Id)
    requires SafeUpTo(most, sys)
    ensures SafeUpTo(most, Next(sys, AskGateway(call)))
  {
    hide LedgerIntegrity.Inv, Exclusive, NoOrphans, RowOk;
    if call in sys.calls && sys.calls[call].Looking? && sys.calls[call].row.reference in sys.bank {
      var c := sys.calls[call];
      assert CallOk(most, c, ViewOf(sys, c.id));
      EnterKeepsSafe(most, sys, call, Reported(c.id, c.row, sys.bank[c.row.reference], true));
    }
  }

  lemma PollOverdueKeepsSafe(most: nat, sys: System, call: Id, id: Id)
    requires SafeUpTo(most, sys)
    ensures SafeUpTo(most, Next(sys, PollOverdue(call, id)))
  {
    hide SafeUpTo, RowOk;
    if call !in sys.calls && HasStatus(sys, id, Processing) && !sys.store.withdrawals[id].flwKnown {
      EnterKeepsSafe(most, sys, call, Overdue(id));
    }
  }

  lemma FlagOverdueKeepsSafe(most: nat, sys: System, call: Id)
    requires SafeUpTo(most, sys)
    ensures SafeUpTo(most, Next(sys, FlagOverdue(call)))
  {
    hide LedgerIntegrity.Inv, Exclusive, NoOrphans;
    if call in sys.calls && sys.calls[call].Overdue? && !SendPending(sys, sys.calls[call].id) {
      var id := sys.calls[call].id;
      assert RowOk(most, ViewOf(sys, id));
      UpdateKeepsSafe(most, sys, id, {Processing}, NeedsAttention, false);
      LeaveKeepsSafe(most, Update(sys, id, {Processing}, NeedsAttention, false), call);
    }
  }

  lemma ApproveKeepsSafe(most: nat, sys: System, id: Id)
    requires SafeUpTo(most, sys)
    ensures SafeUpTo(most, Next(sys, Approve(id)))
  {
    hide SafeUpTo, CallOk;
    if HasStatus(sys, id, PendingReview) {
      UnderReview(most, sys, id);
      UpdateKeepsSafe(most, sys, id, {PendingReview}, Queued, false);
    }
  }

  /** Nobody is about to send a withdrawal under review. */
  lemma UnderReview(most: nat, sys: System, id: Id)
    requires SafeUpTo(most, sys) && HasStatus(sys, id, PendingReview)
    ensures RowOk(most, ViewOf(sys, id))
    ensures forall c :: c in sys.calls && sys.calls[c].id == id ==> !Dispatching(sys.calls[c])
  {
    hide LedgerIntegrity.Inv, Exclusive, NoOrphans, RowOk;
    forall c | c in sys.calls && sys.calls[c].id == id ensures !Dispatching(sys.calls[c]) {
      assert CallOk(most, sys.calls[c], ViewOf(sys, id));
    }
  }

  lemma RejectKeepsSafe(most: nat, sys: System, id: Id)
    requires SafeUpTo(most, sys)
    ensures SafeUpTo(most, Next(sys, Reject(id)))
  {
    hide SafeUpTo, CallOk, FinalizeFailure;
    if HasStatus(sys, id, PendingReview) {
      UnderReview(most, sys, id);
      FailureKeepsSafe(most, sys, id, Rejected);
    }
  }

  lemma AttentionSays(most: nat, sys: System, id: Id)
    requires SafeUpTo(most, sys) && HasStatus(sys, id, NeedsAttention)
    ensures forall c :: c in sys.calls && sys.calls[c].id == id && Dispatching(sys.calls[c]) ==> sys.calls[c].Declined?
  {
    hide LedgerIntegrity.Inv, Exclusive, NoOrphans, RowOk;
    forall c | c in sys.calls && sys.calls[c].id == id && Dispatching(sys.calls[c]) ensures sys.calls[c].Declined? {
      assert CallOk(most, sys.calls[c], ViewOf(sys, id));
    }
  }

  lemma ResolveKeepsSafe(most: nat, sys: System, id: Id)
    requires SafeUpTo(most, sys)
    ensures SafeUpTo(most, Next(sys, MarkPaid(id))) && SafeUpTo(most, Next(sys, MarkFailed(id)))
  {
    hide SafeUpTo, FinalizeFailure, FinalizeSuccess;
    if HasStatus(sys, id, NeedsAttention) {
      var v := ViewOf(sys, id);
      AttentionSays(most, sys, id);
      if v.transfer == Some(Paid) {
        SuccessKeepsSafe(most, sys, id, v.row.flwKnown);
      } else if v.transfer != Some(InProgress) {
        FailureKeepsSafe(most, sys, id, Failed);
      }
    }
  }

  lemma BankSettlesKeepsSafe(most: nat, sys: System, ref: Reference, t: Transfer)
    requires SafeUpTo(most, sys)
    ensures SafeUpTo(most, Next(sys, BankSettles(ref, t)))
  {
    hide LedgerIntegrity.Inv;
    if ref in sys.bank && sys.bank[ref].InProgress? {
      var id :| id in WithReference(sys.store.withdrawals, ref);
      assert RowOk(most, ViewOf(sys, id));
      BankKeepsSafe(most, sys, id, Some(t), false);
      assert Known(sys, id, Some(t), false) == Next(sys, BankSettles(ref, t));
    }
  }

  /** Any other ledger transaction leaves the withdrawals alone or adds one under a reference nobody used. */
  lemma OtherOps(s: Store, op: Op)
    requires !TouchesWithdrawals(op)
    ensures var ws := Perform(s, op).0.withdrawals;
      || ws == s.withdrawals
      || (op.OpCreateWithdrawal? && op.id !in s.withdrawals && WithReference(s.withdrawals, op.w.reference) == {}
          && ws == s.withdrawals[op.id := op.w])
  {
    hide ApplyPostings, PostingSum;
  }

  lemma NewRowIsUnknown(sys: System, id: Id, w: Withdrawal, store: Store)
    requires NoOrphans(sys) && id !in sys.store.withdrawals && WithReference(sys.store.withdrawals, w.reference) == {}
    requires store.withdrawals == sys.store.withdrawals[id := w]
    ensures ViewOf(sys.(store := store), id) == View(w, None, 0) && NoOrphans(sys.(store := store))
  {
    forall r | r in sys.bank ensures WithReference(store.withdrawals, r) != {} {
      var o :| o in WithReference(sys.store.withdrawals, r);
      assert o in WithReference(store.withdrawals, r);
    }
  }

  lemma NewRowKeepsSafe(most: nat, sys: System, id: Id, w: Withdrawal, store: Store)
    requires SafeUpTo(most, sys) && LedgerIntegrity.Inv(store)
    requires id !in sys.store.withdrawals && WithReference(sys.store.withdrawals, w.reference) == {}
    requires store.withdrawals == sys.store.withdrawals[id := w]
    requires (w.status.Queued? || w.status.PendingReview?) && w.attempts == 0 && !w.flwKnown
    ensures SafeUpTo(most, sys.(store := store))
  {
    hide LedgerIntegrity.Inv, CallOk, NoOrphans, RowOk;
    var sys' := sys.(store := store);
    assert forall o :: o in sys.store.withdrawals ==> ViewOf(sys', o) == ViewOf(sys, o);
    NewRowIsUnknown(sys, id, w, store);
    assert RowOk(most, View(w, None, 0)) by { FreshRowOk(most, w); }
  }

  lemma FreshRowOk(most: nat, w: Withdrawal)
    requires (w.status.Queued? || w.status.PendingReview?) && w.attempts == 0 && !w.flwKnown
    requires most >= MAX_DISPATCH_ATTEMPTS
    ensures RowOk(most, View(w, None, 0))
  {
  }

  lemma SameRowsKeepSafe(most: nat, sys: System, store: Store)
    requires SafeUpTo(most, sys) && LedgerIntegrity.Inv(store) && store.withdrawals == sys.store.withdrawals
    ensures SafeUpTo(most, sys.(store := store))
  {
    hide LedgerIntegrity.Inv, CallOk, RowOk;
    assert forall o :: o in sys.store.withdrawals ==> ViewOf(sys.(store := store), o) == ViewOf(sys, o);
  }

  lemma OtherKeepsSafe(most: nat, sys: System, op: Op)
    requires SafeUpTo(most, sys)
    ensures SafeUpTo(most, Next(sys, Other(op)))
  {
    hide LedgerIntegrity.Inv, Perform, ViewsOk, Exclusive, NoOrphans;
    if !TouchesWithdrawals(op) && Legal(op) {
      LedgerIntegrity.PerformKeepsInv(sys.store, op);
      OtherOps(sys.store, op);
      if Perform(sys.store, op).0.withdrawals == sys.store.withdrawals {
        SameRowsKeepSafe(most, sys, Perform(sys.store, op).0);
      } else {
        NewRowKeepsSafe(most, sys, op.id, op.w, Perform(sys.store, op).0);
      }
    }
  }

  // ---- whole runs ----

  lemma NextKeepsSafe(most: nat, sys: System, e: Event)
    requires SafeUpTo(most, sys)
    ensures SafeUpTo(most, Next(sys, e))
  {
    hide *;
    match e {
      case Other(op) => OtherKeepsSafe(most, sys, op);
      case BankSettles(ref, t) => BankSettlesKeepsSafe(most, sys, ref, t);
      case Crash(call) => CrashKeepsSafe(most, sys, call);
      case Claim(call, id) => ClaimKeepsSafe(most, sys, call, id);
      case Reload(call) => ReloadKeepsSafe(most, sys, call);
      case Send(call, reply) => SendKeepsSafe(most, sys, call, reply);
      case HandleRefusal(call) => HandleRefusalKeepsSafe(most, sys, call);
      case RecordTransferId(call) => RecordTransferIdKeepsSafe(most, sys, call);
      case Settle(call) => SettleKeepsSafe(most, sys, call);
      case FlagUnsettled(call) => FlagUnsettledKeepsSafe(most, sys, call);
      case WebhookArrives(_, _) => LookKeepsSafe(most, sys, e);
      case PollInFlight(_, _) => LookKeepsSafe(most, sys, e);
      case AskGateway(call) => AskKeepsSafe(most, sys, call);
      case PollOverdue(call, id) => PollOverdueKeepsSafe(most, sys, call, id);
      case FlagOverdue(call) => FlagOverdueKeepsSafe(most, sys, call);
      case Approve(id) => ApproveKeepsSafe(most, sys, id);
      case Reject(id) => RejectKeepsSafe(most, sys, id);
      case MarkPaid(id) => ResolveKeepsSafe(most, sys, id);
      case MarkFailed(id) => ResolveKeepsSafe(most, sys, id);
    }
  }

  lemma CrashKeepsSafe(most: nat, sys: System, call: Id)
    requires SafeUpTo(most, sys)
    ensures SafeUpTo(most, Next(sys, Crash(call)))
  {
    LeaveKeepsSafe(most, sys, call);
  }

  lemma {:induction false} RunKeepsSafe(most: nat, sys: System, events: seq<Event>)
    requires SafeUpTo(most, sys)
    ensures SafeUpTo(most, Continue(sys, events))
  {
    hide SafeUpTo, Next;
    if events != [] {
      RunKeepsSafe(most, sys, events[..|events| - 1]);
      NextKeepsSafe(most, Continue(sys, events[..|events| - 1]), events[|events| - 1]);
    }
  }

  lemma StartIsSafe()
    ensures Safe(START)
  {
    LedgerIntegrity.EmptyStoreInv();
  }

  /**
   * After any interleaving: money returned to a wallet was not paid by the bank, a withdrawal marked successful was,
   * of one still waiting no transfer exists, none was sent more than ten times, and the ledger self-check passes.
   */
  lemma EveryRunIsSafe(events: seq<Event>, id: Id)
    requires id in After(events).store.withdrawals
    ensures var sys := After(events); var v := ViewOf(sys, id);
      && (v.row.status.Failed? || v.row.status.Rejected? ==> v.transfer != Some(Paid) && v.transfer != Some(InProgress))
      && (v.row.status.Successful? ==> v.transfer == Some(Paid))
      && (v.row.status.Queued? || v.row.status.PendingReview? ==> v.transfer.None?)
      && v.sends <= MAX_DISPATCH_ATTEMPTS
      && LedgerIntegrity.Integrity(sys.store).Ok()
  {
    hide Next, LedgerIntegrity.Inv, LedgerIntegrity.Integrity;
    StartIsSafe();
    RunKeepsSafe(MAX_DISPATCH_ATTEMPTS, START, events);
    LedgerIntegrity.InvPassesIntegrity(After(events).store);
    assert RowOk(MAX_DISPATCH_ATTEMPTS, ViewOf(After(events), id));
  }

  // ---- final means final ----

  /** The repository's status guards alone see to this, in any state: a final row never changes again. */
  lemma NextKeepsFinalRow(sys: System, e: Event, id: Id)
    requires id in sys.store.withdrawals && Terminal(sys.store.withdrawals[id].status)
    ensures id in Next(sys, e).store.withdrawals && Next(sys, e).store.withdrawals[id] == sys.store.withdrawals[id]
  {
    hide *;
    if Finalizes(e) {
      FinalizingKeepsFinalRow(sys, e, id);
    } else {
      UpdatingKeepsFinalRow(sys, e, id);
    }
  }

  predicate Finalizes(e: Event) {
    e.Other? || e.HandleRefusal? || e.Settle? || e.Reject? || e.MarkPaid? || e.MarkFailed?
  }

  lemma UpdatingKeepsFinalRow(sys: System, e: Event, id: Id)
    requires id in sys.store.withdrawals && Terminal(sys.store.withdrawals[id].status) && !Finalizes(e)
    ensures id in Next(sys, e).store.withdrawals && Next(sys, e).store.withdrawals[id] == sys.store.withdrawals[id]
  {
    hide Perform, FinalizeFailure, FinalizeSuccess, AfterRefusal, AfterSettle, ViewOf;
  }

  lemma FinalizingKeepsFinalRow(sys: System, e: Event, id: Id)
    requires id in sys.store.withdrawals && Terminal(sys.store.withdrawals[id].status) && Finalizes(e)
    ensures id in Next(sys, e).store.withdrawals && Next(sys, e).store.withdrawals[id] == sys.store.withdrawals[id]
  {
    hide Perform, FinalizeFailure, FinalizeSuccess, AfterSend, AfterReport, AfterSettle, AfterRefusal, ViewOf;
    match e {
      case Other(op) => if Legal(op) { LedgerLaws.TerminalIsFinal(sys.store, op, id); }
      case HandleRefusal(call) => if call in sys.calls
        && sys.calls[call].Declined? { RefusalKeepsFinalRow(sys, call, id); }
      case Settle(call) => if call in sys.calls && sys.calls[call].Settling? { SettlingKeepsFinalRow(sys, call, id); }
      case Reject(acting) => FailureKeepsFinalRow(sys.store, acting, Rejected, id);
      case MarkFailed(acting) => FailureKeepsFinalRow(sys.store, acting, Failed, id);
      case MarkPaid(acting) =>
        if acting in sys.store.withdrawals { SuccessKeepsFinalRow(sys.store, acting,
                                                                  sys.store.withdrawals[acting].flwKnown, id); }
    }
  }

  lemma RefusalKeepsFinalRow(sys: System, call: Id, id: Id)
    requires id in sys.store.withdrawals && Terminal(sys.store.withdrawals[id].status)
    requires call in sys.calls && sys.calls[call].Declined?
    ensures var s' := AfterRefusal(sys, call).store;
      id in s'.withdrawals && s'.withdrawals[id] == sys.store.withdrawals[id]
  {
    hide FinalizeFailure, TransitionWithdrawal;
    TransitionKeepsFinalRow(sys.store, sys.calls[call].id, Queued, id);
    TransitionKeepsFinalRow(sys.store, sys.calls[call].id, NeedsAttention, id);
    FailureKeepsFinalRow(sys.store, sys.calls[call].id, Failed, id);
  }

  lemma TransitionKeepsFinalRow(s: Store, acting: Id, to: WithdrawalStatus, id: Id)
    requires id in s.withdrawals && Terminal(s.withdrawals[id].status)
    ensures var s' := TransitionWithdrawal(s, acting, {Processing}, to, false).0;
      id in s'.withdrawals && s'.withdrawals[id] == s.withdrawals[id]
  {
  }

  lemma SettlingKeepsFinalRow(sys: System, call: Id, id: Id)
    requires id in sys.store.withdrawals && Terminal(sys.store.withdrawals[id].status)
    requires call in sys.calls && sys.calls[call].Settling?
    ensures var s' := AfterSettle(sys, call).store;
      id in s'.withdrawals && s'.withdrawals[id] == sys.store.withdrawals[id]
  {
    hide FinalizeFailure, FinalizeSuccess;
    FailureKeepsFinalRow(sys.store, sys.calls[call].id, Failed, id);
    SuccessKeepsFinalRow(sys.store, sys.calls[call].id, sys.calls[call].hasId, id);
  }

  lemma FailureKeepsFinalRow(s: Store, acting: Id, final: WithdrawalStatus, id: Id)
    requires id in s.withdrawals && Terminal(s.withdrawals[id].status)
    ensures var s' := FinalizeFailure(s, acting, final).0;
      id in s'.withdrawals && s'.withdrawals[id] == s.withdrawals[id]
  {
    hide ApplyPostings, PostingSum;
  }

  lemma SuccessKeepsFinalRow(s: Store, acting: Id, flwKnown: bool, id: Id)
    requires id in s.withdrawals && Terminal(s.withdrawals[id].status)
    ensures var s' := FinalizeSuccess(s, acting, flwKnown).0;
      id in s'.withdrawals && s'.withdrawals[id] == s.withdrawals[id]
  {
    hide ApplyPostings, PostingSum;
  }

  lemma {:induction false} ContinueKeepsFinalRow(sys: System, more: seq<Event>, id: Id)
    requires id in sys.store.withdrawals && Terminal(sys.store.withdrawals[id].status)
    ensures id in Continue(sys, more).store.withdrawals
    ensures Continue(sys, more).store.withdrawals[id] == sys.store.withdrawals[id]
  {
    hide Next;
    if more != [] {
      ContinueKeepsFinalRow(sys, more[..|more| - 1], id);
      NextKeepsFinalRow(Continue(sys, more[..|more| - 1]), more[|more| - 1], id);
    }
  }

  /** Once returned, a withdrawal is never paid at any later time; once marked successful it stays so and was paid. */
  lemma OutcomeIsFinal(events: seq<Event>, more: seq<Event>, id: Id)
    requires id in After(events).store.withdrawals && Terminal(After(events).store.withdrawals[id].status)
    ensures var later := Continue(After(events), more);
      && id in later.store.withdrawals
      && later.store.withdrawals[id] == After(events).store.withdrawals[id]
      && (ViewOf(later, id).transfer == Some(Paid) <==> later.store.withdrawals[id].status.Successful?)
  {
    hide Next, SafeUpTo, ViewOf;
    StartIsSafe();
    RunKeepsSafe(MAX_DISPATCH_ATTEMPTS, START, events);
    RunKeepsSafe(MAX_DISPATCH_ATTEMPTS, After(events), more);
    ContinueKeepsFinalRow(After(events), more, id);
    FinalRowIsTrue(MAX_DISPATCH_ATTEMPTS, Continue(After(events), more), id);
  }

  lemma FinalRowIsTrue(most: nat, sys: System, id: Id)
    requires SafeUpTo(most, sys) && id in sys.store.withdrawals && Terminal(sys.store.withdrawals[id].status)
    ensures ViewOf(sys, id).transfer == Some(Paid) <==> sys.store.withdrawals[id].status.Successful?
  {
    hide LedgerIntegrity.Inv, CallOk, Exclusive, NoOrphans;
    assert RowOk(most, ViewOf(sys, id));
  }
}
