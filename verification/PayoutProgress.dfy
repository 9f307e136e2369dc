/**
 * What one step can do to the row of a withdrawal, and why its life comes to an end: while the bank has no transfer
 * of it, every change of status or attempts uses up a finite supply, the requeueing of refused sends included.
 */
module PayoutProgress {
  import opened Wrappers
  import opened Ledger
  import LedgerIntegrity
  import LedgerLaws
  import opened Payout
  import opened PayoutSafety

  /** The changes of status and attempts that a row sees while the bank has no transfer of it. */
  predicate Moves(w: Withdrawal, w': Withdrawal) {
    || (w'.status == w.status && w'.attempts == w.attempts)
    || (w.status.PendingReview? && w'.status.Queued? && w'.attempts == w.attempts)
    || (w.status.Queued? && w'.status.Processing? && w'.attempts == w.attempts + 1)
    || (w.status.Processing? && (w'.status.Queued? || w'.status.NeedsAttention?) && w'.attempts == w.attempts)
    || (!Terminal(w.status) && Terminal(w'.status) && w'.attempts == w.attempts)
  }

  /** A row that changes by one of the repository's updates. */
  predicate Updates(s: Store, s': Store, acting: Id, id: Id)
    requires id in s.withdrawals
  {
    && id in s'.withdrawals
    && s'.withdrawals[id].reference == s.withdrawals[id].reference
    && (id != acting ==> s'.withdrawals[id] == s.withdrawals[id])
    && s'.withdrawals[id].attempts == s.withdrawals[id].attempts
  }

  lemma FailureUpdates(s: Store, acting: Id, final: WithdrawalStatus, id: Id)
    requires id in s.withdrawals
    ensures var s' := FinalizeFailure(s, acting, final).0;
      Updates(s, s', acting, id)
      && (s'.withdrawals[id] == s.withdrawals[id]
          || (!Terminal(s.withdrawals[id].status) && Terminal(s'.withdrawals[id].status)))
  {
    hide ApplyPostings, PostingSum;
  }

  lemma SuccessUpdates(s: Store, acting: Id, flwKnown: bool, id: Id)
    requires id in s.withdrawals
    ensures Updates(s, FinalizeSuccess(s, acting, flwKnown).0, acting, id)
  {
    hide ApplyPostings, PostingSum;
  }

  lemma UpdateUpdates(sys: System, acting: Id, from: set<WithdrawalStatus>, to: WithdrawalStatus, flwKnown: bool,
                      id: Id)
    requires id in sys.store.withdrawals
    ensures var w := sys.store.withdrawals[id];
      var sys' := Update(sys, acting, from, to, flwKnown);
      && id in sys'.store.withdrawals
      && var w' := sys'.store.withdrawals[id];
      && w'.reference == w.reference
      && ((w'.status == w.status && w'.attempts == w.attempts)
          || (id == acting && w.status in from && w'.status == to
              && w'.attempts == w.attempts + if to.Processing? then 1 else 0))
  {
  }

  // ---- a row keeps its reference, and the bank what it knows ----

  predicate KeepsReference(sys: System, sys': System, id: Id) {
    id in sys.store.withdrawals ==>
      id in sys'.store.withdrawals && sys'.store.withdrawals[id].reference == sys.store.withdrawals[id].reference
  }

  predicate BankGrows(bank: map<Reference, Transfer>, bank': map<Reference, Transfer>) {
    forall r :: r in bank ==> r in bank' && (bank[r].InProgress? || bank'[r] == bank[r])
  }

  lemma FinalizingKeepsReference(sys: System, e: Event, id: Id)
    requires Finalizes(e) && !e.Settle? && !e.HandleRefusal?
    ensures KeepsReference(sys, Next(sys, e), id) && Next(sys, e).bank == sys.bank
  {
    hide Perform, FinalizeFailure, FinalizeSuccess, ViewOf;
    if id in sys.store.withdrawals {
      match e {
        case Other(op) => if Legal(op) { LedgerLaws.TerminalIsFinal(sys.store, op, id); }
        case Reject(acting) => FailureUpdates(sys.store, acting, Rejected, id);
        case MarkFailed(acting) => FailureUpdates(sys.store, acting, Failed, id);
        case MarkPaid(acting) =>
          if acting in sys.store.withdrawals { SuccessUpdates(sys.store, acting, sys.store.withdrawals[acting].flwKnown,
                                                              id); }
      }
    }
  }

  lemma CallKeepsReference(sys: System, e: Event, id: Id)
    requires e.Settle? || e.HandleRefusal?
    ensures KeepsReference(sys, Next(sys, e), id) && Next(sys, e).bank == sys.bank
  {
    hide FinalizeFailure, FinalizeSuccess, ViewOf, TransitionWithdrawal;
    if id in sys.store.withdrawals && e.call in sys.calls {
      var c := sys.calls[e.call];
      FailureUpdates(sys.store, c.id, Failed, id);
      if c.Settling? {
        SuccessUpdates(sys.store, c.id, c.hasId, id);
      }
      UpdateUpdates(sys, c.id, {Processing}, NeedsAttention, false, id);
      UpdateUpdates(sys, c.id, {Processing}, Queued, false, id);
    }
  }

  lemma UpdatingKeepsReference(sys: System, e: Event, id: Id)
    requires !Finalizes(e)
    ensures KeepsReference(sys, Next(sys, e), id) && BankGrows(sys.bank, Next(sys, e).bank)
  {
    hide ViewOf;
  }

  lemma NextKeepsReference(sys: System, e: Event, id: Id)
    ensures KeepsReference(sys, Next(sys, e), id) && BankGrows(sys.bank, Next(sys, e).bank)
  {
    hide Next, KeepsReference;
    if !Finalizes(e) {
      UpdatingKeepsReference(sys, e, id);
    } else if e.Settle? || e.HandleRefusal? {
      CallKeepsReference(sys, e, id);
    } else {
      FinalizingKeepsReference(sys, e, id);
    }
  }

  /** What the bank has refused to pay it never pays. */
  lemma {:induction false} NotPaidStays(sys: System, events: seq<Event>, id: Id)
    requires id in sys.store.withdrawals && ViewOf(sys, id).transfer == Some(NotPaid)
    ensures id in Continue(sys, events).store.withdrawals && ViewOf(Continue(sys, events), id).transfer == Some(NotPaid)
    decreases |events|
  {
    hide Next;
    if events != [] {
      NotPaidStays(sys, events[..|events| - 1], id);
      NextKeepsReference(Continue(sys, events[..|events| - 1]), events[|events| - 1], id);
    }
  }

  // ---- what can happen to a row without a transfer ----

  lemma CallWithTransfer(sys: System, e: Event, id: Id)
    requires Safe(sys) && id in sys.store.withdrawals
    requires e.Settle? || e.RecordTransferId? || e.FlagUnsettled?
    requires e.call in sys.calls && sys.calls[e.call].id == id
    requires sys.calls[e.call].Settling? || sys.calls[e.call].Reported? || sys.calls[e.call].Unsettled?
    ensures ViewOf(sys, id).transfer.Some?
  {
    hide LedgerIntegrity.Inv, RowOk, Exclusive, NoOrphans;
    assert CallOk(MAX_DISPATCH_ATTEMPTS, sys.calls[e.call], ViewOf(sys, id));
  }

  /** Steps that settle or flag what the bank has reported concern rows that have a transfer. */
  lemma ReportMoves(sys: System, e: Event, id: Id)
    requires Safe(sys) && id in sys.store.withdrawals && ViewOf(sys, id).transfer.None?
    requires e.Settle? || e.RecordTransferId? || e.FlagUnsettled?
    ensures id in Next(sys, e).store.withdrawals && Moves(sys.store.withdrawals[id], Next(sys, e).store.withdrawals[id])
  {
    hide Safe, FinalizeFailure, FinalizeSuccess, ViewOf, TransitionWithdrawal;
    if e.call in sys.calls {
      var c := sys.calls[e.call];
      if c.id == id && (c.Settling? || c.Reported? || c.Unsettled?) {
        CallWithTransfer(sys, e, id);
      }
      FailureUpdates(sys.store, c.id, Failed, id);
      if c.Settling? {
        SuccessUpdates(sys.store, c.id, c.hasId, id);
      }
      if c.Reported? {
        UpdateUpdates(sys, c.id, {Processing, NeedsAttention}, c.row.status, true, id);
      }
      UpdateUpdates(sys, c.id, {Processing, Queued}, NeedsAttention, false, id);
    }
  }

  lemma RefusalMoves(sys: System, e: Event, id: Id)
    requires id in sys.store.withdrawals && e.HandleRefusal?
    ensures id in Next(sys, e).store.withdrawals && Moves(sys.store.withdrawals[id], Next(sys, e).store.withdrawals[id])
  {
    hide FinalizeFailure, ViewOf, TransitionWithdrawal;
    if e.call in sys.calls {
      var c := sys.calls[e.call];
      FailureUpdates(sys.store, c.id, Failed, id);
      UpdateUpdates(sys, c.id, {Processing}, NeedsAttention, false, id);
      UpdateUpdates(sys, c.id, {Processing}, Queued, false, id);
    }
  }

  lemma ReviewMoves(sys: System, e: Event, id: Id)
    requires id in sys.store.withdrawals && (e.Approve? || e.Reject?)
    ensures id in Next(sys, e).store.withdrawals && Moves(sys.store.withdrawals[id], Next(sys, e).store.withdrawals[id])
  {
    hide FinalizeFailure, TransitionWithdrawal, ViewOf;
    FailureUpdates(sys.store, e.id, Rejected, id);
    UpdateUpdates(sys, e.id, {PendingReview}, Queued, false, id);
  }

  lemma ResolutionMoves(sys: System, e: Event, id: Id)
    requires id in sys.store.withdrawals && ViewOf(sys, id).transfer.None?
    requires e.MarkPaid? || e.MarkFailed?
    ensures id in Next(sys, e).store.withdrawals && Moves(sys.store.withdrawals[id], Next(sys, e).store.withdrawals[id])
  {
    hide FinalizeFailure, FinalizeSuccess;
    FailureUpdates(sys.store, e.id, Failed, id);
    if e.id in sys.store.withdrawals {
      SuccessUpdates(sys.store, e.id, sys.store.withdrawals[e.id].flwKnown, id);
    }
  }

  lemma OtherMoves(sys: System, e: Event, id: Id)
    requires id in sys.store.withdrawals && e.Other?
    ensures id in Next(sys, e).store.withdrawals && Moves(sys.store.withdrawals[id], Next(sys, e).store.withdrawals[id])
  {
    hide Perform, Legal;
    if !TouchesWithdrawals(e.op) && Legal(e.op) {
      OtherOps(sys.store, e.op);
    }
  }

  /** The steps that do not touch the rows, claim one or flag one. */
  predicate Quiet(e: Event) {
    !Finalizes(e) && !e.RecordTransferId? && !e.FlagUnsettled? && !e.Approve?
  }

  lemma QuietMoves(sys: System, e: Event, id: Id)
    requires id in sys.store.withdrawals && Quiet(e)
    ensures id in Next(sys, e).store.withdrawals && Moves(sys.store.withdrawals[id], Next(sys, e).store.withdrawals[id])
  {
    hide ViewOf;
  }

  /** As long as the bank has no transfer of it, a row moves along these lines only. */
  lemma StepMoves(sys: System, e: Event, id: Id)
    requires Safe(sys) && id in sys.store.withdrawals && ViewOf(sys, id).transfer.None?
    ensures id in Next(sys, e).store.withdrawals && Moves(sys.store.withdrawals[id], Next(sys, e).store.withdrawals[id])
  {
    hide Next, Moves, Safe, ViewOf;
    if Quiet(e) {
      QuietMoves(sys, e, id);
    } else if e.Other? {
      OtherMoves(sys, e, id);
    } else if e.HandleRefusal? {
      RefusalMoves(sys, e, id);
    } else if e.Settle? || e.RecordTransferId? || e.FlagUnsettled? {
      ReportMoves(sys, e, id);
    } else if e.Approve? || e.Reject? {
      ReviewMoves(sys, e, id);
    } else {
      ResolutionMoves(sys, e, id);
    }
  }

  // ---- the supply ----

  function Rank(st: WithdrawalStatus): nat {
    match st
    case PendingReview => 3
    case Processing => 3
    case Queued => 2
    case NeedsAttention => 1
    case _ => 0
  }

  /** How many changes a withdrawal has left while the bank has no transfer of it. */
  function Supply(v: View): (n: nat)
    ensures n <= 33
  {
    if v.transfer.Some? then 0
    else Rank(v.row.status) + 3 * (if v.row.attempts < MAX_DISPATCH_ATTEMPTS then MAX_DISPATCH_ATTEMPTS - v.row.attempts
                                   else 0)
  }

  predicate Changed(v: View, v': View) {
    v'.row.status != v.row.status || v'.row.attempts != v.row.attempts
  }

  lemma StepUsesSupply(sys: System, e: Event, id: Id)
    requires Safe(sys) && id in sys.store.withdrawals
    ensures id in Next(sys, e).store.withdrawals
    ensures var (v, v') := (ViewOf(sys, id), ViewOf(Next(sys, e), id));
      && Supply(v') <= Supply(v)
      && (v'.transfer.None? && Changed(v, v') ==> Supply(v') < Supply(v))
  {
    hide Next, LedgerIntegrity.Inv, CallOk, Exclusive, NoOrphans;
    NextKeepsReference(sys, e, id);
    assert RowOk(MAX_DISPATCH_ATTEMPTS, ViewOf(sys, id));
    if ViewOf(Next(sys, e), id).transfer.None? {
      StepMoves(sys, e, id);
    }
  }

  /** How often the row's status or attempts changed in a run. */
  ghost function Changes(sys: System, events: seq<Event>, id: Id): nat
    decreases |events|
  {
    if events == [] then 0
    else
      var n := |events| - 1;
      var before := Continue(sys, events[..n]);
      var after := Next(before, events[n]);
      Changes(sys, events[..n], id) +
        (if id in before.store.withdrawals && id in after.store.withdrawals
         && Changed(ViewOf(before, id), ViewOf(after, id)) then 1 else 0)
  }

  lemma {:induction false} RunUsesSupply(sys: System, events: seq<Event>, id: Id)
    requires Safe(sys) && id in sys.store.withdrawals
    ensures id in Continue(sys, events).store.withdrawals
    ensures ViewOf(Continue(sys, events), id).transfer.None? ==>
      Changes(sys, events, id) + Supply(ViewOf(Continue(sys, events), id)) <= Supply(ViewOf(sys, id))
    decreases |events|
  {
    hide Next, SafeUpTo, Supply;
    if events != [] {
      var n := |events| - 1;
      var before := Continue(sys, events[..n]);
      RunUsesSupply(sys, events[..n], id);
      RunKeepsSafe(MAX_DISPATCH_ATTEMPTS, sys, events[..n]);
      StepUsesSupply(before, events[n], id);
      NextKeepsReference(before, events[n], id);
    }
  }

  /**
   * From any moment of any run on, the status and the attempts of a withdrawal change at most 33 times before the bank
   * has a transfer of it: requeueing comes to an end.
   */
  lemma RequeueingEnds(before: seq<Event>, events: seq<Event>, id: Id)
    requires id in After(before).store.withdrawals
    requires var sys := Continue(After(before), events);
      id in sys.store.withdrawals && ViewOf(sys, id).transfer.None?
    ensures Changes(After(before), events, id) <= 33
  {
    hide Next, Continue, Changes, SafeUpTo, Supply, ViewOf;
    StartIsSafe();
    RunKeepsSafe(MAX_DISPATCH_ATTEMPTS, START, before);
    RunUsesSupply(After(before), events, id);
  }
}
