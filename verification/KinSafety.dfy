/** An appeal pays at most once, and only after two people and the cooling-off time have let it. */
module KinSafety {
  import opened Wrappers
  import opened Ledger
  import LedgerIntegrity
  import LedgerLaws
  import MoneyRules = Money
  import opened Kin

  // ---- the invariant ----

  /** Two different admins approved the appeal, over at least one document; nothing can reopen it. */
  predicate Vetted(a: Appeal, documents: nat) {
    && a.recommendedBy.Some? && a.approvedBy.Some? && a.recommendedBy != a.approvedBy
    && a.disbursableAfter.Some? && documents > 0
    && (a.status.Approved? || a.status.Disbursed? || a.status.Declined? || a.status.Cancelled?)
  }

  predicate AppealOk(a: Appeal, documents: nat) {
    && (a.status.Recommended? ==> a.recommendedBy.Some? && documents > 0)
    && (a.status.Approved? || a.status.Disbursed? || a.approvedBy.Some? ==> Vetted(a, documents))
  }

  predicate CooledOff(a: Appeal, at: int) {
    a.disbursableAfter.Some? && a.disbursableAfter.value <= at
  }

  predicate Payable(amount: int) {
    amount % 100 == 0 && amount > MoneyRules.TransferFee(amount)
  }

  /**
   * A withdrawal under an appeal's reference is that appeal's: vetted, cooled off and to be paid from its driver's
   * wallet.
   */
  predicate PaidOk(w: Withdrawal, a: Appeal, documents: nat) {
    && Vetted(a, documents) && CooledOff(a, w.createdAt) && w.user == a.driver && w.bankAccount == a.destination
    && w.kind.ByAppeal?
    && Payable(w.amount) && w.fee == MoneyRules.TransferFee(w.amount) && w.net == w.amount - w.fee
  }

  predicate CallOk(s: State, c: Disburse) {
    && c.appeal in s.appeals
    && Vetted(s.appeals[c.appeal], DocumentsOf(s, c.appeal)) && CooledOff(s.appeals[c.appeal], s.clock)
    && (c.Ready? ==> Payable(c.amount))
    && (c.Created? ==> IsPayment(s, c.appeal, c.withdrawal, c.amount))
  }

  predicate IsPayment(s: State, appeal: Id, w: Id, amount: int) {
    w in s.store.withdrawals && s.store.withdrawals[w].reference == AppealRef(appeal)
    && s.store.withdrawals[w].amount == amount
  }

  ghost predicate AppealsOk(s: State) {
    && (forall id :: id in s.appeals ==> AppealOk(s.appeals[id], DocumentsOf(s, id)))
    && (forall id :: id in s.appeals && s.appeals[id].status.Disbursed? ==>
          s.appeals[id].withdrawal.Some? && IsPayment(s, id, s.appeals[id].withdrawal.value, s.appeals[id].amount))
    && (forall c :: c in s.calls ==> CallOk(s, s.calls[c]))
  }

  ghost predicate PaymentsOk(s: State) {
    forall w :: w in s.store.withdrawals && s.store.withdrawals[w].reference.AppealRef? ==>
      var id := s.store.withdrawals[w].reference.appeal;
      id in s.appeals && PaidOk(s.store.withdrawals[w], s.appeals[id], DocumentsOf(s, id))
      && s.store.withdrawals[w].createdAt <= s.clock
  }

  ghost predicate Safe(s: State) {
    LedgerIntegrity.Inv(s.store) && AppealsOk(s) && PaymentsOk(s)
  }

  // ---- the kinds of change every event is made of ----

  /** Everything about a withdrawal but its progress stays. */
  predicate SameTerms(w: Withdrawal, w': Withdrawal) {
    w' == w.(status := w'.status, attempts := w'.attempts, flwKnown := w'.flwKnown)
  }

  ghost predicate RowsKept(ws: map<Id, Withdrawal>, ws': map<Id, Withdrawal>) {
    && (forall w :: w in ws ==> w in ws' && SameTerms(ws[w], ws'[w]))
    && (forall w :: w in ws' && w !in ws ==> !ws'[w].reference.AppealRef?)
  }

  lemma ForeignKeepsRows(s: Store, op: Op)
    requires Legal(op) && Foreign(op)
    ensures RowsKept(s.withdrawals, Perform(s, op).0.withdrawals)
  {
    hide Perform;
    LedgerLaws.PerformKeepsRows(s, op);
    if op.OpCreateWithdrawal? {
      CreationAddsOne(s, op);
    }
  }

  lemma CreationAddsOne(s: Store, op: Op)
    requires op.OpCreateWithdrawal?
    ensures var ws := Perform(s, op).0.withdrawals; ws == s.withdrawals || ws == s.withdrawals[op.id := op.w]
  {
    hide CreateWithdrawal;
    LedgerLaws.CreateKeepsRows(s, op.id, op.w, op.guard);
  }

  lemma StoreKeepsSafe(s: State, store: Store)
    requires Safe(s) && LedgerIntegrity.Inv(store) && RowsKept(s.store.withdrawals, store.withdrawals)
    ensures Safe(s.(store := store))
  {
    hide LedgerIntegrity.Inv, Vetted, Payable, CooledOff, AppealOk;
  }

  lemma EnterKeepsSafe(s: State, call: Id, d: Disburse)
    requires Safe(s) && CallOk(s, d)
    ensures Safe(Enter(s, call, d))
  {
    hide LedgerIntegrity.Inv, Vetted, Payable, CooledOff, AppealOk, PaidOk;
    var s' := Enter(s, call, d);
    assert forall c :: c in s'.calls ==> CallOk(s', s'.calls[c]) by {
      assert forall c :: CallOk(s', c) == CallOk(s, c);
    }
  }

  lemma LeaveKeepsSafe(s: State, call: Id)
    requires Safe(s)
    ensures Safe(Leave(s, call))
  {
    hide LedgerIntegrity.Inv, Vetted, Payable, CooledOff, AppealOk, PaidOk;
    var s' := Leave(s, call);
    assert forall c :: CallOk(s', c) == CallOk(s, c);
  }

  /** One appeal's row changes; what vetted it once stays. */
  lemma AppealKeepsSafe(s: State, id: Id, a: Appeal)
    requires Safe(s) && AppealOk(a, DocumentsOf(s, id))
    requires id in s.appeals ==> a.driver == s.appeals[id].driver && a.destination == s.appeals[id].destination
    requires id in s.appeals && Vetted(s.appeals[id], DocumentsOf(s, id)) ==>
      Vetted(a, DocumentsOf(s, id)) && a.disbursableAfter == s.appeals[id].disbursableAfter
    requires a.status.Disbursed? ==> a.withdrawal.Some? && IsPayment(s, id, a.withdrawal.value, a.amount)
    ensures Safe(s.(appeals := s.appeals[id := a]))
  {
    hide LedgerIntegrity.Inv, Vetted, Payable, AppealOk;
    var s' := s.(appeals := s.appeals[id := a]);
    forall c | c in s'.calls ensures CallOk(s', s'.calls[c]) {
      assert CallOk(s, s.calls[c]);
    }
  }

  // ---- events ----

  lemma SubmitKeepsSafe(s: State, id: Id, driver: Id, destination: Id)
    requires Safe(s)
    ensures Safe(Next(s, SubmitAppeal(id, driver, destination)))
  {
    hide LedgerIntegrity.Inv, AppealsOk, PaymentsOk;
    if id !in s.appeals {
      var a := Appeal(driver, destination, Submitted, None, None, None, 0, None);
      LedgerIntegrity.SetFrozenKeepsInv(s.store, driver, FrozenForAppeal);
      StoreKeepsSafe(s, SetFrozen(s.store, driver, FrozenForAppeal));
      AppealKeepsSafe(s.(store := SetFrozen(s.store, driver, FrozenForAppeal)), id, a);
    }
  }

  lemma AddDocumentKeepsSafe(s: State, id: Id)
    requires Safe(s)
    ensures Safe(Next(s, AddDocument(id)))
  {
    hide LedgerIntegrity.Inv, Payable, CooledOff;
    var s' := Next(s, AddDocument(id));
    forall c | c in s'.calls ensures CallOk(s', s'.calls[c]) {
      assert CallOk(s, s.calls[c]);
    }
  }

  /** A transition out of an open status keeps the appeal's row in order. */
  lemma TransitionKeepsSafe(s: State, id: Id, from: set<AppealStatus>, update: Appeal -> Appeal)
    requires Safe(s)
    requires id in s.appeals && s.appeals[id].status in from ==>
      var (a, a') := (s.appeals[id], update(s.appeals[id]));
      && AppealOk(a', DocumentsOf(s, id)) && a'.driver == a.driver && a'.destination == a.destination
      && (Vetted(a, DocumentsOf(s, id)) ==> Vetted(a', DocumentsOf(s, id)) && a'.disbursableAfter == a.disbursableAfter)
      && (a'.status.Disbursed? ==> a'.withdrawal.Some? && IsPayment(s, id, a'.withdrawal.value, a'.amount))
    ensures Safe(s.(appeals := Transition(s.appeals, id, from, update)))
  {
    hide LedgerIntegrity.Inv, AppealsOk, PaymentsOk, Vetted, AppealOk;
    if id in s.appeals && s.appeals[id].status in from {
      AppealKeepsSafe(s, id, update(s.appeals[id]));
    }
  }

  lemma AdminDecideKeepsSafe(s: State, id: Id, admin: Id, d: Decision, coolOff: nat)
    requires Safe(s)
    ensures Safe(Next(s, AdminDecide(id, admin, d, coolOff)))
  {
    hide LedgerIntegrity.Inv, PaymentsOk;
    match d
    case RequestInfo =>
      TransitionKeepsSafe(s, id, {Submitted, AppealStatus.Recommended}, (a: Appeal) => a.(status := InfoRequested));
    case Recommend =>
      if DocumentsOf(s, id) > 0 {
        TransitionKeepsSafe(s, id, {Submitted},
                            (a: Appeal) => a.(status := AppealStatus.Recommended, recommendedBy := Some(admin)));
      }
    case Approve =>
      if !(id in s.appeals && s.appeals[id].recommendedBy == Some(admin)) {
        TransitionKeepsSafe(s, id, {AppealStatus.Recommended},
          (a: Appeal) => a.(status := AppealStatus.Approved, approvedBy := Some(admin),
                            disbursableAfter := Some(s.clock + coolOff)));
      }
    case Reject =>
      TransitionKeepsSafe(s, id, OPEN, (a: Appeal) => a.(status := Declined));
  }

  lemma CheckReferenceKeepsSafe(s: State, call: Id)
    requires Safe(s)
    ensures Safe(Next(s, CheckReference(call)))
  {
    hide LedgerIntegrity.Inv, PaymentsOk, Vetted, CooledOff;
    if Calling(s, call) && s.calls[call].Due? {
      var s' := AfterCheck(s, call);
      assert CallOk(s, s.calls[call]);
      EnterKeepsSafe(s, call, s'.calls[call]);
    }
  }

  lemma ReadBalanceKeepsSafe(s: State, call: Id)
    requires Safe(s)
    ensures Safe(Next(s, ReadBalance(call)))
  {
    hide LedgerIntegrity.Inv, PaymentsOk, Vetted, CooledOff;
    if Calling(s, call) && s.calls[call].Unpaid? {
      var id := s.calls[call].appeal;
      assert CallOk(s, s.calls[call]);
      LeaveKeepsSafe(s, call);
      if s.appeals[id].driver in s.store.wallets {
        EnterKeepsSafe(s, call, AfterRead(s, call).calls[call]);
      }
    }
  }

  /** The new row, if CreateWithdrawal makes one. */
  lemma CreateEffect(s: Store, id: Id, w: Withdrawal, g: Guard)
    ensures var (s', outcome) := CreateWithdrawal(s, id, w, g);
      if outcome.Applied? then id !in s.withdrawals && s'.withdrawals == s.withdrawals[id := w]
      else outcome.Refused? && s' == s
  {
    hide ApplyPostings, PostingSum;
  }

  lemma PaymentKeepsSafe(s: State, store: Store, id: Id, w: Withdrawal)
    requires Safe(s) && LedgerIntegrity.Inv(store)
    requires id !in s.store.withdrawals && store.withdrawals == s.store.withdrawals[id := w]
    requires w.reference.AppealRef? && w.createdAt == s.clock && w.reference.appeal in s.appeals
    requires PaidOk(w, s.appeals[w.reference.appeal], DocumentsOf(s, w.reference.appeal))
    ensures Safe(s.(store := store))
  {
    hide LedgerIntegrity.Inv, Vetted, Payable, CooledOff, AppealOk, PaidOk;
    var s' := s.(store := store);
    forall c | c in s'.calls ensures CallOk(s', s'.calls[c]) {
      assert CallOk(s, s.calls[c]);
    }
  }

  lemma CreateKeepsSafe(s: State, call: Id, withdrawal: Id)
    requires Safe(s)
    ensures Safe(Next(s, Create(call, withdrawal)))
  {
    hide LedgerIntegrity.Inv, PaymentsOk, Vetted, CooledOff, CreateWithdrawal, Payable;
    if Calling(s, call) && s.calls[call].Ready? {
      var c := s.calls[call];
      assert CallOk(s, c);
      var w := AppealWithdrawal(s.appeals[c.appeal], c.appeal, c.amount, s.clock);
      var g := Guard(0, 0, s.clock, 0);
      var (store, outcome) := CreateWithdrawal(s.store, withdrawal, w, g);
      CreateEffect(s.store, withdrawal, w, g);
      LedgerIntegrity.CreateWithdrawalKeepsInv(s.store, withdrawal, w, g);
      if outcome.Refused? {
        LeaveKeepsSafe(s, call);
      } else {
        PaymentKeepsSafe(s, store, withdrawal, w);
        EnterKeepsSafe(s.(store := store), call, Created(c.appeal, withdrawal, c.amount));
      }
    }
  }

  lemma MarkAppealKeepsSafe(s: State, call: Id)
    requires Safe(s)
    ensures Safe(Next(s, MarkAppeal(call)))
  {
    hide LedgerIntegrity.Inv, PaymentsOk, CooledOff;
    if Calling(s, call) {
      assert CallOk(s, s.calls[call]);
      match s.calls[call] {
        case Created(id, w, amount) =>
          TransitionKeepsSafe(s, id, {AppealStatus.Approved},
            (a: Appeal) => a.(status := Disbursed, amount := amount, withdrawal := Some(w)));
          LeaveKeepsSafe(AfterMark(s, call).(calls := s.calls), call);
        case TooLittle(id) =>
          TransitionKeepsSafe(s, id, {AppealStatus.Approved}, (a: Appeal) => a.(status := Declined));
          LeaveKeepsSafe(AfterMark(s, call).(calls := s.calls), call);
        case Due(_) =>
        case Unpaid(_) =>
        case Ready(_, _) =>
      }
    }
  }

  lemma TickKeepsSafe(s: State, elapsed: nat)
    requires Safe(s)
    ensures Safe(Next(s, Tick(elapsed)))
  {
    hide LedgerIntegrity.Inv, Vetted, Payable, AppealOk;
    var s' := Next(s, Tick(elapsed));
    forall c | c in s'.calls ensures CallOk(s', s'.calls[c]) {
      assert CallOk(s, s.calls[c]);
    }
  }

  lemma OtherKeepsSafe(s: State, op: Op)
    requires Safe(s)
    ensures Safe(Next(s, Other(op)))
  {
    hide LedgerIntegrity.Inv, AppealsOk, PaymentsOk, Perform, RowsKept;
    if Legal(op) && Foreign(op) {
      LedgerIntegrity.PerformKeepsInv(s.store, op);
      ForeignKeepsRows(s.store, op);
      StoreKeepsSafe(s, Perform(s.store, op).0);
    }
  }

  lemma ScanDueKeepsSafe(s: State, call: Id, id: Id)
    requires Safe(s)
    ensures Safe(Next(s, ScanDue(call, id)))
  {
    hide LedgerIntegrity.Inv, PaymentsOk, Vetted;
    if call !in s.calls && id in s.appeals && DueNow(s.appeals[id], s.clock) {
      EnterKeepsSafe(s, call, Due(id));
    }
  }

  lemma NextKeepsSafe(s: State, e: Event)
    requires Safe(s)
    ensures Safe(Next(s, e))
  {
    hide LedgerIntegrity.Inv, PaymentsOk, Perform, AfterCheck, AfterRead, AfterCreate, AfterMark, Decide;
    match e
    case SubmitAppeal(id, driver, destination) => SubmitKeepsSafe(s, id, driver, destination);
    case AddDocument(id) => AddDocumentKeepsSafe(s, id);
    case Resubmit(id) => TransitionKeepsSafe(s, id, {InfoRequested}, (a: Appeal) => a.(status := Submitted));
    case AdminDecide(id, admin, d, coolOff) => AdminDecideKeepsSafe(s, id, admin, d, coolOff);
    case DriverCancel(id) => TransitionKeepsSafe(s, id, OPEN, (a: Appeal) => a.(status := Cancelled));
    case ScanDue(call, id) => ScanDueKeepsSafe(s, call, id);
    case CheckReference(call) => CheckReferenceKeepsSafe(s, call);
    case ReadBalance(call) => ReadBalanceKeepsSafe(s, call);
    case Create(call, w) => CreateKeepsSafe(s, call, w);
    case MarkAppeal(call) => MarkAppealKeepsSafe(s, call);
    case Crash(call) => LeaveKeepsSafe(s, call);
    case Tick(elapsed) => TickKeepsSafe(s, elapsed);
    case Other(op) => OtherKeepsSafe(s, op);
  }

  lemma {:induction false} EveryRunIsSafe(events: seq<Event>)
    ensures Safe(After(events))
    decreases |events|
  {
    hide Next, Safe;
    if events == [] {
      StartIsSafe();
    } else {
      EveryRunIsSafe(events[..|events| - 1]);
      NextKeepsSafe(After(events[..|events| - 1]), events[|events| - 1]);
    }
  }

  lemma StartIsSafe()
    ensures Safe(START)
  {
    LedgerIntegrity.EmptyStoreInv();
  }
}
