/**
 * When returning the money of an unfinished withdrawal is safe. The repository's FinalizeWithdrawalFailure accepts any
 * unfinished row, so a decision taken on an older state of the row may still go through; this says exactly when that
 * loses money.
 */
module PayoutLimits {
  import opened Wrappers
  import opened Ledger
  import LedgerIntegrity
  import LedgerOutcomes
  import opened Payout
  import opened PayoutSafety

  /** The withdrawal is returned to its wallet, whatever its row has come to since the decision. */
  function Return(sys: System, id: Id, final: WithdrawalStatus): System {
    sys.(store := FinalizeFailure(sys.store, id, final).0)
  }

  predicate Returned(sys: System, id: Id) {
    id in sys.store.withdrawals
    && (sys.store.withdrawals[id].status.Failed? || sys.store.withdrawals[id].status.Rejected?)
  }

  /** Money given back although the bank paid. */
  predicate ReturnedAndPaid(sys: System, id: Id) {
    Returned(sys, id) && ViewOf(sys, id).transfer == Some(Paid)
  }

  /** Some run from here on ends like that. */
  ghost predicate LosesMoney(sys: System, id: Id) {
    exists events :: ReturnedAndPaid(Continue(sys, events), id)
  }

  /** A transfer exists that is or may yet be paid, or a Dispatch has claimed the row and not finished its send. */
  ghost predicate PaymentUnderWay(sys: System, id: Id)
    requires id in sys.store.withdrawals
  {
    ViewOf(sys, id).transfer == Some(InProgress) || ViewOf(sys, id).transfer == Some(Paid) || SendPending(sys, id)
  }

  lemma ReturnGoesThrough(s: Store, id: Id, final: WithdrawalStatus)
    requires LedgerIntegrity.Inv(s) && id in s.withdrawals && !Terminal(s.withdrawals[id].status)
    requires s.withdrawals[id].amount >= 0
    requires final.Failed? || final.Rejected?
    ensures FinalizeFailure(s, id, final).0.withdrawals == s.withdrawals[id := s.withdrawals[id].(status := final)]
  {
    hide FinalizeFailure, LedgerIntegrity.Inv;
    LedgerOutcomes.PayoutIsReturnedIff(s, id, final);
  }

  lemma BankThenPays(sys: System, id: Id)
    requires Returned(sys, id) && ViewOf(sys, id).transfer == Some(InProgress)
    ensures ReturnedAndPaid(Next(sys, BankSettles(sys.store.withdrawals[id].reference, Paid)), id)
  {
  }

  lemma SendThenPays(sys: System, id: Id, call: Id)
    requires Returned(sys, id) && ViewOf(sys, id).transfer.None?
    requires call in sys.calls && sys.calls[call].Sending?
    requires sys.calls[call].row.reference == sys.store.withdrawals[id].reference
    ensures ReturnedAndPaid(Next(sys, Send(call, Accept(Paid, true))), id)
  {
  }

  /** The events that make the bank pay after the return. */
  lemma PaymentFollows(sys: System, id: Id, final: WithdrawalStatus) returns (events: seq<Event>)
    requires Safe(sys) && id in sys.store.withdrawals && !Terminal(sys.store.withdrawals[id].status)
    requires sys.store.withdrawals[id].amount >= 0 && (final.Failed? || final.Rejected?)
    requires PaymentUnderWay(sys, id)
    ensures ReturnedAndPaid(Continue(Return(sys, id, final), events), id)
  {
    hide LedgerIntegrity.Inv, FinalizeFailure, Exclusive, NoOrphans, RowOk, Next;
    ReturnGoesThrough(sys.store, id, final);
    var sys' := Return(sys, id, final);
    events := [];
    if ViewOf(sys, id).transfer == Some(InProgress) {
      events := [BankSettles(sys.store.withdrawals[id].reference, Paid)];
      assert events[..0] == [];
      BankThenPays(sys', id);
    } else if ViewOf(sys, id).transfer.None? {
      var call :| call in sys.calls && sys.calls[call].id == id && Unsent(sys.calls[call]);
      assert CallOk(MAX_DISPATCH_ATTEMPTS, sys.calls[call], ViewOf(sys, id));
      var send := Send(call, Accept(Paid, true));
      if sys.calls[call].Sending? {
        events := [send];
        assert events[..0] == [];
        SendThenPays(sys', id, call);
      } else {
        events := [Reload(call), send];
        assert events[..1] == [Reload(call)] && [Reload(call)][..0] == [];
        var loaded := Next(sys', Reload(call));
        assert loaded == Enter(sys', call, Sending(id, sys'.store.withdrawals[id])) by { ReloadReads(sys', call); }
        assert Continue(sys', [Reload(call)]) == loaded;
        SendThenPays(loaded, id, call);
      }
    }
  }

  lemma ReloadReads(sys: System, call: Id)
    requires call in sys.calls && sys.calls[call].Claimed? && sys.calls[call].id in sys.store.withdrawals
    ensures Next(sys, Reload(call)) ==
      Enter(sys, call, Sending(sys.calls[call].id, sys.store.withdrawals[sys.calls[call].id]))
  {
  }

  lemma ReturnKeepsSafe(sys: System, id: Id, final: WithdrawalStatus)
    requires Safe(sys) && id in sys.store.withdrawals && !PaymentUnderWay(sys, id)
    requires final.Failed? || final.Rejected?
    ensures Safe(Return(sys, id, final))
  {
    hide SafeUpTo, FinalizeFailure, RowOk, CallOk;
    FailureKeepsSafe(MAX_DISPATCH_ATTEMPTS, sys, id, final);
  }

  /**
   * Returning an unfinished withdrawal can end with the bank having paid it as well exactly when its payment is under
   * way at that moment. AdminDecideWithdrawal reads the status first; a decision that then comes late is as unsafe as
   * this says.
   */
  lemma ReturnLosesMoneyIffPaymentUnderWay(sys: System, id: Id, final: WithdrawalStatus)
    requires Safe(sys) && id in sys.store.withdrawals && !Terminal(sys.store.withdrawals[id].status)
    requires sys.store.withdrawals[id].amount >= 0 && (final.Failed? || final.Rejected?)
    ensures LosesMoney(Return(sys, id, final), id) <==> PaymentUnderWay(sys, id)
  {
    hide SafeUpTo, FinalizeFailure, ViewOf, RowOk, Next;
    if PaymentUnderWay(sys, id) {
      var events := PaymentFollows(sys, id, final);
    } else {
      ReturnKeepsSafe(sys, id, final);
      forall events ensures !ReturnedAndPaid(Continue(Return(sys, id, final), events), id) {
        RunKeepsSafe(MAX_DISPATCH_ATTEMPTS, Return(sys, id, final), events);
        SafeIsNotReturnedAndPaid(MAX_DISPATCH_ATTEMPTS, Continue(Return(sys, id, final), events), id);
      }
    }
  }

  lemma SafeIsNotReturnedAndPaid(most: nat, sys: System, id: Id)
    requires SafeUpTo(most, sys)
    ensures !ReturnedAndPaid(sys, id)
  {
    hide LedgerIntegrity.Inv, Exclusive, NoOrphans, CallOk;
    if id in sys.store.withdrawals {
      assert RowOk(most, ViewOf(sys, id));
    }
  }
}
