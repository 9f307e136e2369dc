/**
 * Next-of-kin appeals for a driver's wallet: documents, a recommendation and an approval by two admins,
 * a cooling-off time, and a disbursement whose calls may interleave with everything else or crash anywhere.
 */
module Kin {
  import opened Wrappers
  import opened Ledger
  import Money

  datatype AppealStatus = Submitted | InfoRequested | Recommended | Approved | Disbursed | Declined | Cancelled

  /** destination: the bank account the next of kin asked for. */
  datatype Appeal = Appeal(driver: Id, destination: Id, status: AppealStatus, recommendedBy: Option<Id>,
                           approvedBy: Option<Id>,
                           disbursableAfter: Option<int>, amount: int, withdrawal: Option<Id>)

  /** A disburse call between two of its steps. */
  datatype Disburse =
    | Due(appeal: Id)                                       // scanned as due
    | Unpaid(appeal: Id)                                    // found no withdrawal under the appeal's reference
    | Ready(appeal: Id, amount: int)                        // read the balance
    | Created(appeal: Id, withdrawal: Id, amount: int)      // a withdrawal exists; the appeal row is not updated yet
    | TooLittle(appeal: Id)                                 // the balance does not cover the fee

  datatype State = State(store: Store, appeals: map<Id, Appeal>, documents: map<Id, nat>, calls: map<Id, Disburse>,
                         clock: int)

  const START := State(EMPTY, map[], map[], map[], 0)

  datatype Decision = RequestInfo | Recommend | Approve | Reject

  datatype Event =
    | SubmitAppeal(appeal: Id, driver: Id, destination: Id)
    | AddDocument(appeal: Id)
    | Resubmit(appeal: Id)
    | AdminDecide(appeal: Id, admin: Id, decision: Decision, coolOff: nat)
    | DriverCancel(appeal: Id)
    | ScanDue(call: Id, appeal: Id)
    | CheckReference(call: Id)
    | ReadBalance(call: Id)
    | Create(call: Id, withdrawal: Id)
    | MarkAppeal(call: Id)
    | Crash(call: Id)
    | Tick(elapsed: nat)
    | Other(op: Op)

  // ---- repository calls ----

  /** TransitionAppeal: the conditional update. */
  function Transition(appeals: map<Id, Appeal>, id: Id, from: set<AppealStatus>, update: Appeal -> Appeal)
    : map<Id, Appeal> {
    if id in appeals && appeals[id].status in from then appeals[id := update(appeals[id])] else appeals
  }

  const OPEN := {Submitted, InfoRequested, AppealStatus.Recommended, AppealStatus.Approved}

  function OpenAppeals(appeals: map<Id, Appeal>, driver: Id): set<Id> {
    set id | id in appeals && appeals[id].driver == driver && appeals[id].status in OPEN
  }

  function DocumentsOf(s: State, id: Id): nat {
    if id in s.documents then s.documents[id] else 0
  }

  predicate DueNow(a: Appeal, now: int) {
    a.status.Approved? && a.disbursableAfter.Some? && a.disbursableAfter.value <= now
  }

  /** Whole naira only. */
  function Disbursable(balance: int): int {
    balance / 100 * 100
  }

  function AppealWithdrawal(a: Appeal, id: Id, amount: int, now: int): Withdrawal {
    var fee := Money.TransferFee(amount);
    Withdrawal(a.driver, ByAppeal, Queued, amount, fee, amount - fee, a.destination, AppealRef(id), now, 0, false)
  }

  // ---- steps ----

  function Decide(s: State, id: Id, admin: Id, d: Decision, coolOff: nat): map<Id, Appeal> {
    match d
    case RequestInfo => Transition(s.appeals, id, {Submitted, AppealStatus.Recommended},
                                   (a: Appeal) => a.(status := InfoRequested))
    case Recommend =>
      if DocumentsOf(s, id) == 0 then s.appeals
      else Transition(s.appeals, id, {Submitted},
                      (a: Appeal) => a.(status := AppealStatus.Recommended, recommendedBy := Some(admin)))
    case Approve =>
      if id in s.appeals && s.appeals[id].recommendedBy == Some(admin) then s.appeals
      else Transition(s.appeals, id, {AppealStatus.Recommended},
                      (a: Appeal) => a.(status := AppealStatus.Approved, approvedBy := Some(admin),
                                        disbursableAfter := Some(s.clock + coolOff)))
    case Reject => Transition(s.appeals, id, OPEN, (a: Appeal) => a.(status := Declined))
  }

  function Enter(s: State, call: Id, d: Disburse): State {
    s.(calls := s.calls[call := d])
  }

  function Leave(s: State, call: Id): State {
    s.(calls := s.calls - {call})
  }

  predicate Calling(s: State, call: Id) {
    call in s.calls && s.calls[call].appeal in s.appeals
  }

  ghost function AfterCheck(s: State, call: Id): State
    requires Calling(s, call)
  {
    var id := s.calls[call].appeal;
    var existing := WithReference(s.store.withdrawals, AppealRef(id));
    if existing != {} then
      var w :| w in existing;
      Enter(s, call, Created(id, w, s.store.withdrawals[w].amount))
    else Enter(s, call, Unpaid(id))
  }

  function AfterRead(s: State, call: Id): State
    requires Calling(s, call)
  {
    var id := s.calls[call].appeal;
    var driver := s.appeals[id].driver;
    if driver !in s.store.wallets then Leave(s, call)
    else
      var amount := Disbursable(s.store.wallets[driver].balance);
      if amount <= Money.TransferFee(amount) then Enter(s, call, TooLittle(id)) else Enter(s, call, Ready(id, amount))
  }

  ghost function AfterCreate(s: State, call: Id, withdrawal: Id): State
    requires Calling(s, call) && s.calls[call].Ready?
  {
    var c := s.calls[call];
    var w := AppealWithdrawal(s.appeals[c.appeal], c.appeal, c.amount, s.clock);
    var (store, outcome) := CreateWithdrawal(s.store, withdrawal, w, Guard(0, 0, s.clock, 0));
    if outcome.Refused? then Leave(s, call)
    else Enter(s.(store := store), call, Created(c.appeal, withdrawal, c.amount))
  }

  function AfterMark(s: State, call: Id): State
    requires Calling(s, call)
  {
    match s.calls[call]
    case Created(id, w, amount) =>
      Leave(s.(appeals := Transition(s.appeals, id, {AppealStatus.Approved},
                                     (a: Appeal) => a.(status := Disbursed, amount := amount, withdrawal := Some(w)))),
                                       call)
    case TooLittle(id) =>
      Leave(s.(appeals := Transition(s.appeals, id, {AppealStatus.Approved}, (a: Appeal) => a.(status := Declined))),
            call)
    case _ => s
  }

  /** Other services never use an appeal's reference. */
  predicate Foreign(op: Op) {
    op.OpCreateWithdrawal? ==> !op.w.reference.AppealRef?
  }

  /** An event that is not possible in the current state changes nothing. */
  ghost function Next(s: State, e: Event): State {
    match e
    case SubmitAppeal(id, driver, destination) =>
      if id in s.appeals then s
      else s.(appeals := s.appeals[id := Appeal(driver, destination, Submitted, None, None, None, 0, None)],
              store := SetFrozen(s.store, driver, FrozenForAppeal))
    case AddDocument(id) =>
      // let in while the appeal was open for documents, and perhaps stored later
      if id in s.appeals then s.(documents := s.documents[id := DocumentsOf(s, id) + 1]) else s
    case Resubmit(id) => s.(appeals := Transition(s.appeals, id, {InfoRequested},
                                                  (a: Appeal) => a.(status := Submitted)))
    case AdminDecide(id, admin, d, coolOff) => s.(appeals := Decide(s, id, admin, d, coolOff))
    case DriverCancel(id) => s.(appeals := Transition(s.appeals, id, OPEN, (a: Appeal) => a.(status := Cancelled)))
    case ScanDue(call, id) =>
      if call !in s.calls && id in s.appeals && DueNow(s.appeals[id], s.clock) then Enter(s, call, Due(id)) else s
    case CheckReference(call) => if Calling(s, call) && s.calls[call].Due? then AfterCheck(s, call) else s
    case ReadBalance(call) => if Calling(s, call) && s.calls[call].Unpaid? then AfterRead(s, call) else s
    case Create(call, w) => if Calling(s, call) && s.calls[call].Ready? then AfterCreate(s, call, w) else s
    case MarkAppeal(call) => if Calling(s, call) then AfterMark(s, call) else s
    case Crash(call) => Leave(s, call)
    case Tick(elapsed) => s.(clock := s.clock + elapsed)
    case Other(op) => if Legal(op) && Foreign(op) then s.(store := Perform(s.store, op).0) else s
  }

  ghost function Continue(s: State, events: seq<Event>): State
    decreases |events|
  {
    if events == [] then s else Next(Continue(s, events[..|events| - 1]), events[|events| - 1])
  }

  ghost function After(events: seq<Event>): State {
    Continue(START, events)
  }
}
