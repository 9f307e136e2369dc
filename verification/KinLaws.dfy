/**
 * What the appeal workflow promises: one payment at most, to the rules, and none after an appeal has quietly closed.
 */
module KinLaws {
  import opened Wrappers
  import opened Ledger
  import LedgerIntegrity
  import LedgerLaws
  import Quotes
  import opened Sets
  import opened Kin
  import opened KinSafety

  /** In every run, crashes included, an appeal has at most one withdrawal. */
  lemma AppealPaysAtMostOnce(events: seq<Event>, id: Id, v: Id, w: Id)
    requires var ws := After(events).store.withdrawals;
      v in ws && w in ws && ws[v].reference == AppealRef(id) && ws[w].reference == AppealRef(id)
    ensures v == w
  {
    hide AppealsOk, PaymentsOk, Next;
    EveryRunIsSafe(events);
  }

  /**
   * A withdrawal made for an appeal means that a document was there, that two different admins recommended and
   * approved the appeal, that the cooling-off time had passed, and that the driver's own wallet is paying to the
   * account named when the appeal was submitted.
   */
  lemma PaymentWasVetted(events: seq<Event>, id: Id, w: Id)
    requires var ws := After(events).store.withdrawals; w in ws && ws[w].reference == AppealRef(id)
    ensures var s := After(events);
      var row := s.store.withdrawals[w];
      && id in s.appeals && DocumentsOf(s, id) > 0
      && var a := s.appeals[id];
      && a.recommendedBy.Some? && a.approvedBy.Some? && a.recommendedBy != a.approvedBy
      && a.disbursableAfter.Some? && a.disbursableAfter.value <= row.createdAt <= s.clock
      && row.user == a.driver && row.bankAccount == a.destination && row.amount % 100 == 0
      && row.amount == row.fee + row.net && row.net > 0
  {
    hide AppealsOk, LedgerIntegrity.Inv, Next;
    EveryRunIsSafe(events);
  }

  /** A disbursed appeal names its withdrawal and the amount taken from the wallet. */
  lemma DisbursedAppealNamesItsPayment(events: seq<Event>, id: Id)
    requires var s := After(events); id in s.appeals && s.appeals[id].status.Disbursed?
    ensures var s := After(events);
      var a := s.appeals[id];
      && a.withdrawal.Some? && a.withdrawal.value in s.store.withdrawals
      && s.store.withdrawals[a.withdrawal.value].reference == AppealRef(id)
      && s.store.withdrawals[a.withdrawal.value].amount == a.amount
  {
    hide PaymentsOk, LedgerIntegrity.Inv, Next;
    EveryRunIsSafe(events);
  }

  // ---- after an appeal has closed ----

  /** Closed, with nothing paid and no disbursement under way but one that found too little to pay. */
  predicate QuietlyClosed(s: State, id: Id) {
    && id in s.appeals && (s.appeals[id].status.Declined? || s.appeals[id].status.Cancelled?)
    && (forall c :: c in s.calls && s.calls[c].appeal == id ==> s.calls[c].TooLittle?)
    && (forall w :: w in s.store.withdrawals ==> s.store.withdrawals[w].reference != AppealRef(id))
  }

  lemma OtherStaysQuiet(s: State, op: Op, id: Id)
    requires QuietlyClosed(s, id)
    ensures QuietlyClosed(Next(s, Other(op)), id)
  {
    hide Perform, Legal;
    if Legal(op) && Foreign(op) {
      ForeignKeepsRows(s.store, op);
      var ws := Perform(s.store, op).0.withdrawals;
      forall w | w in ws ensures ws[w].reference != AppealRef(id) {
        if w in s.store.withdrawals {
          assert SameTerms(s.store.withdrawals[w], ws[w]);
        }
      }
    }
  }

  lemma CreateStaysQuiet(s: State, call: Id, withdrawal: Id, id: Id)
    requires QuietlyClosed(s, id)
    ensures QuietlyClosed(Next(s, Create(call, withdrawal)), id)
  {
    hide CreateWithdrawal;
    if Calling(s, call) && s.calls[call].Ready? {
      var c := s.calls[call];
      CreateEffect(s.store, withdrawal, AppealWithdrawal(s.appeals[c.appeal], c.appeal, c.amount, s.clock),
                   Guard(0, 0, s.clock, 0));
    }
  }

  lemma NextStaysQuiet(s: State, e: Event, id: Id)
    requires QuietlyClosed(s, id)
    ensures QuietlyClosed(Next(s, e), id)
  {
    hide Perform, Legal, CreateWithdrawal, Money.TransferFee;
    if e.Other? {
      OtherStaysQuiet(s, e.op, id);
    } else if e.Create? {
      CreateStaysQuiet(s, e.call, e.withdrawal, id);
    }
  }

  /** Once an appeal is cancelled or declined with no disbursement under way, it is never paid. */
  lemma {:induction false} ClosedAppealNeverPays(s: State, events: seq<Event>, id: Id)
    requires QuietlyClosed(s, id)
    ensures QuietlyClosed(Continue(s, events), id)
    decreases |events|
  {
    hide Next, QuietlyClosed;
    if events != [] {
      ClosedAppealNeverPays(s, events[..|events| - 1], id);
      NextStaysQuiet(Continue(s, events[..|events| - 1]), events[|events| - 1], id);
    }
  }

  /**
   * A cancellation that finds a disbursement already under way does not stop it: the appeal ends cancelled and paid.
   */
  lemma CancelCanComeTooLate(s: State, call: Id, withdrawal: Id)
    requires Safe(s) && Calling(s, call) && s.calls[call].Ready?
    requires var a := s.appeals[s.calls[call].appeal];
      a.status.Approved? && a.driver in s.store.wallets && s.store.wallets[a.driver].balance >= s.calls[call].amount
    requires withdrawal !in s.store.withdrawals
    requires WithReference(s.store.withdrawals, AppealRef(s.calls[call].appeal)) == {}
    ensures var id := s.calls[call].appeal;
      var s' := Next(Next(s, DriverCancel(id)), Create(call, withdrawal));
      && id in s'.appeals && s'.appeals[id].status.Cancelled?
      && withdrawal in s'.store.withdrawals && s'.store.withdrawals[withdrawal].reference == AppealRef(id)
  {
    hide LedgerIntegrity.Inv, PaymentsOk, CreateWithdrawal;
    var c := s.calls[call];
    var w := AppealWithdrawal(s.appeals[c.appeal], c.appeal, c.amount, s.clock);
    CreateEffect(s.store, withdrawal, w, Guard(0, 0, s.clock, 0));
    LedgerLaws.UnguardedCreateSucceeds(s.store, withdrawal, w, s.clock);
    assert OPEN == {Submitted, InfoRequested, AppealStatus.Recommended, AppealStatus.Approved};
  }

  // ---- exactly when a closed appeal may still be paid ----

  /** A disbursement that has not yet created its withdrawal, nor given up. */
  predicate MayPay(d: Disburse) {
    d.Due? || d.Unpaid? || d.Ready?
  }

  ghost predicate DisbursementUnderWay(s: State, id: Id) {
    exists c :: c in s.calls && s.calls[c].appeal == id && MayPay(s.calls[c])
  }

  ghost predicate IsPaid(s: State, id: Id) {
    WithReference(s.store.withdrawals, AppealRef(id)) != {}
  }

  lemma OneStep(s: State, e: Event)
    ensures Continue(s, [e]) == Next(s, e)
  {
    hide Next;
    assert [e][..0] == [];
  }

  lemma {:induction false} ContinueOn(s: State, a: seq<Event>, b: seq<Event>)
    ensures Continue(s, a + b) == Continue(Continue(s, a), b)
    decreases |b|
  {
    hide Next;
    if b == [] {
      assert a + b == a;
    } else {
      ContinueOn(s, a, b[..|b| - 1]);
      assert (a + b)[..|a + b| - 1] == a + b[..|b| - 1];
    }
  }

  /** The driver's wallet can be topped up at any time. */
  lemma TopUp(s: State, user: Id, amount: nat) returns (events: seq<Event>)
    requires LedgerIntegrity.Inv(s.store)
    ensures var s' := Continue(s, events);
      && s' == s.(store := s'.store) && s'.store.withdrawals == s.store.withdrawals && LedgerIntegrity.Inv(s'.store)
      && user in s'.store.wallets && s'.store.wallets[user].balance >= amount
  {
    hide Next, LedgerIntegrity.Inv, CreditTopup;
    var topup := Fresh(s.store.topups.Keys);
    var create, credit := OpCreateTopup(topup, user, None), OpCreditTopup(topup, amount, amount);
    events := [Other(create), Other(credit)];
    OneStep(s, Other(create));
    OneStep(Next(s, Other(create)), Other(credit));
    ContinueOn(s, [Other(create)], [Other(credit)]);
    assert [Other(create)] + [Other(credit)] == events;
    Quotes.TopupArrives(s.store, topup, user, amount);
    OtherStep(s, create);
    OtherStep(Next(s, Other(create)), credit);
  }

  lemma OtherStep(s: State, op: Op)
    requires Legal(op) && Foreign(op)
    ensures Next(s, Other(op)) == s.(store := Perform(s.store, op).0)
  {
    hide Perform;
  }

  lemma ReadyPays(s: State, call: Id, withdrawal: Id)
    requires LedgerIntegrity.Inv(s.store) && Calling(s, call) && s.calls[call].Ready?
    requires withdrawal !in s.store.withdrawals
    requires !IsPaid(s, s.calls[call].appeal)
    requires var driver := s.appeals[s.calls[call].appeal].driver;
      driver in s.store.wallets && s.store.wallets[driver].balance >= s.calls[call].amount
    ensures IsPaid(Next(s, Create(call, withdrawal)), s.calls[call].appeal)
  {
    hide LedgerIntegrity.Inv, CreateWithdrawal;
    var c := s.calls[call];
    var w := AppealWithdrawal(s.appeals[c.appeal], c.appeal, c.amount, s.clock);
    CreateEffect(s.store, withdrawal, w, Guard(0, 0, s.clock, 0));
    LedgerLaws.UnguardedCreateSucceeds(s.store, withdrawal, w, s.clock);
    assert withdrawal in WithReference(Next(s, Create(call, withdrawal)).store.withdrawals, AppealRef(c.appeal));
  }

  lemma UnpaidGetsReady(s: State, call: Id)
    requires Calling(s, call) && s.calls[call].Unpaid?
    requires var driver := s.appeals[s.calls[call].appeal].driver;
      driver in s.store.wallets && s.store.wallets[driver].balance >= 10_000
    ensures var (id, s') := (s.calls[call].appeal, Next(s, ReadBalance(call)));
      var balance := s.store.wallets[s.appeals[id].driver].balance;
      s' == Enter(s, call, Ready(id, Disbursable(balance))) && Disbursable(balance) <= balance
  {
  }

  lemma DueGetsUnpaid(s: State, call: Id)
    requires Calling(s, call) && s.calls[call].Due? && !IsPaid(s, s.calls[call].appeal)
    ensures Next(s, CheckReference(call)) == Enter(s, call, Unpaid(s.calls[call].appeal))
  {
  }

  /** From every stage a disbursement can go on to pay. */
  lemma UnderWayCanPay(s: State, call: Id) returns (events: seq<Event>)
    requires LedgerIntegrity.Inv(s.store) && Calling(s, call) && MayPay(s.calls[call])
    requires !IsPaid(s, s.calls[call].appeal)
    ensures IsPaid(Continue(s, events), s.calls[call].appeal)
    decreases if s.calls[call].Due? then 2 else if s.calls[call].Unpaid? then 1 else 0
  {
    hide LedgerIntegrity.Inv, Next, IsPaid;
    var id := s.calls[call].appeal;
    var driver := s.appeals[id].driver;
    if s.calls[call].Due? {
      var step := CheckReference(call);
      DueGetsUnpaid(s, call);
      SameRows(s, Next(s, step), id);
      var rest := UnderWayCanPay(Next(s, step), call);
      OneStep(s, step);
      ContinueOn(s, [step], rest);
      events := [step] + rest;
    } else if s.calls[call].Unpaid? {
      var funding := TopUp(s, driver, 10_000);
      var s1 := Continue(s, funding);
      UnpaidGetsReady(s1, call);
      var step := ReadBalance(call);
      SameRows(s, Next(s1, step), id);
      var rest := UnderWayCanPay(Next(s1, step), call);
      OneStep(s1, step);
      ContinueOn(s, funding, [step]);
      ContinueOn(s, funding + [step], rest);
      events := funding + [step] + rest;
    } else {
      var amount := s.calls[call].amount;
      var funding := TopUp(s, driver, if amount < 0 then 0 else amount);
      var s1 := Continue(s, funding);
      SameRows(s, s1, id);
      var step := Create(call, Fresh(s1.store.withdrawals.Keys));
      ReadyPays(s1, call, Fresh(s1.store.withdrawals.Keys));
      OneStep(s1, step);
      ContinueOn(s, funding, [step]);
      events := funding + [step];
    }
  }

  lemma SameRows(s: State, t: State, id: Id)
    requires t.store.withdrawals == s.store.withdrawals
    ensures IsPaid(t, id) <==> IsPaid(s, id)
  {
  }

  /** A closed and unpaid appeal may still be paid exactly when a disbursement that has not paid yet is under way. */
  lemma ClosedAppealPaysIffDisbursementUnderWay(s: State, id: Id)
    requires Safe(s) && id in s.appeals && (s.appeals[id].status.Declined? || s.appeals[id].status.Cancelled?)
    requires !IsPaid(s, id)
    ensures DisbursementUnderWay(s, id) <==> exists events :: IsPaid(Continue(s, events), id)
  {
    hide LedgerIntegrity.Inv, PaymentsOk, Next, Continue;
    if DisbursementUnderWay(s, id) {
      var c :| c in s.calls && s.calls[c].appeal == id && MayPay(s.calls[c]);
      var events := UnderWayCanPay(s, c);
    } else {
      NoneUnderWayIsQuiet(s, id);
      forall events ensures !IsPaid(Continue(s, events), id) {
        ClosedAppealNeverPays(s, events, id);
      }
    }
  }

  lemma CreatedIsPaid(s: State, c: Id)
    requires c in s.calls && CallOk(s, s.calls[c])
    ensures s.calls[c].Created? ==> IsPaid(s, s.calls[c].appeal)
  {
    if s.calls[c].Created? {
      assert s.calls[c].withdrawal in WithReference(s.store.withdrawals, AppealRef(s.calls[c].appeal));
    }
  }

  lemma NoneUnderWayIsQuiet(s: State, id: Id)
    requires AppealsOk(s) && id in s.appeals && (s.appeals[id].status.Declined? || s.appeals[id].status.Cancelled?)
    requires !IsPaid(s, id) && !DisbursementUnderWay(s, id)
    ensures QuietlyClosed(s, id)
  {
    forall c | c in s.calls && s.calls[c].appeal == id ensures s.calls[c].TooLittle? {
      assert CallOk(s, s.calls[c]);
      CreatedIsPaid(s, c);
    }
    forall w | w in s.store.withdrawals ensures s.store.withdrawals[w].reference != AppealRef(id) {
      assert w !in WithReference(s.store.withdrawals, AppealRef(id));
    }
  }

  /** A disbursement run over one due appeal that already has its withdrawal. */
  ghost function Rerun(s: State, call: Id, id: Id): State {
    Next(Next(Next(s, ScanDue(call, id)), CheckReference(call)), MarkAppeal(call))
  }

  /**
   * After a crash between payment and update, the next run finds the payment and finishes the appeal without paying
   * again.
   */
  lemma CrashIsRepaired(s: State, call: Id, id: Id, w: Id)
    requires Safe(s) && call !in s.calls && id in s.appeals && DueNow(s.appeals[id], s.clock)
    requires w in s.store.withdrawals && s.store.withdrawals[w].reference == AppealRef(id)
    ensures Rerun(s, call, id) == s.(appeals := s.appeals[id :=
      s.appeals[id].(status := Disbursed, withdrawal := Some(w), amount := s.store.withdrawals[w].amount)])
  {
    hide Next, LedgerIntegrity.Inv, AppealsOk, PaymentsOk;
    assert w in WithReference(s.store.withdrawals, AppealRef(id));
    LedgerIntegrity.ReferenceNamesOne(s.store, AppealRef(id), w);
    var (due, amount) := (Enter(s, call, Due(id)), s.store.withdrawals[w].amount);
    Scanned(s, call, id);
    FindsPayment(due, call, w);
    assert Enter(due, call, Created(id, w, amount)) == Enter(s, call, Created(id, w, amount));
    MarksPaid(s, call, id, w, amount);
  }

  lemma Scanned(s: State, call: Id, id: Id)
    requires call !in s.calls && id in s.appeals && DueNow(s.appeals[id], s.clock)
    ensures Next(s, ScanDue(call, id)) == Enter(s, call, Due(id))
  {
  }

  lemma FindsPayment(s: State, call: Id, w: Id)
    requires Calling(s, call) && s.calls[call].Due? && w in s.store.withdrawals
    requires WithReference(s.store.withdrawals, AppealRef(s.calls[call].appeal)) == {w}
    ensures Next(s, CheckReference(call)) ==
      Enter(s, call, Created(s.calls[call].appeal, w, s.store.withdrawals[w].amount))
  {
    hide WithReference;
  }

  lemma MarksPaid(s: State, call: Id, id: Id, w: Id, amount: int)
    requires call !in s.calls && id in s.appeals && s.appeals[id].status.Approved?
    ensures Next(Enter(s, call, Created(id, w, amount)), MarkAppeal(call)) ==
      s.(appeals := s.appeals[id := s.appeals[id].(status := Disbursed, withdrawal := Some(w), amount := amount)])
  {
    assert s.calls == s.calls[call := Created(id, w, amount)] - {call};
  }
}
