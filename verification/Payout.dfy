/**
 * Paying a withdrawal out through a gateway that can answer, refuse or go silent. Dispatch,
 * the transfer webhook, the poller and the admin all act on the same row, one repository call
 * or one gateway call at a time, in any order; a call may also be cut short by a crash.
 */
module Payout {
  import opened Wrappers
  import opened Ledger

  const MAX_DISPATCH_ATTEMPTS := 10

  /** What the bank knows about a transfer; the last two are final. */
  datatype Transfer = InProgress | Paid | NotPaid

  /** How the gateway answers CreateTransfer. A refusal creates nothing; a lost answer may have created the transfer. */
  datatype Reply = Accept(transfer: Transfer, hasId: bool) | RefuseLowFloat | Refuse | Lost(created: bool)

  /** A service call between two of its steps, with the row as it last read it. */
  datatype Call =
    | Claimed(id: Id)
    | Sending(id: Id, row: Withdrawal)
    | Declined(id: Id, row: Withdrawal, lowFloat: bool)
    | Looking(id: Id, row: Withdrawal)
    | Reported(id: Id, row: Withdrawal, transfer: Transfer, hasId: bool)
    | Settling(id: Id, row: Withdrawal, transfer: Transfer, hasId: bool)
    | Unsettled(id: Id)
    | Overdue(id: Id)

  /** sends counts, for each withdrawal, how often it was sent to the gateway. */
  datatype System = System(store: Store, bank: map<Reference, Transfer>, calls: map<Id, Call>, sends: map<Id, nat>)

  const START := System(EMPTY, map[], map[], map[])

  datatype Event =
    | Other(op: Op)                          // any other ledger transaction, creating a withdrawal included
    | BankSettles(ref: Reference, transfer: Transfer)
    | Crash(call: Id)
    // Dispatch
    | Claim(call: Id, id: Id)
    | Reload(call: Id)
    | Send(call: Id, reply: Reply)
    | HandleRefusal(call: Id)
    // applyTransferState and succeedWithdrawal, shared by all three callers
    | RecordTransferId(call: Id)
    | Settle(call: Id)
    | FlagUnsettled(call: Id)
    // HandleTransferWebhook and PollWithdrawals
    | WebhookArrives(call: Id, id: Id)
    | PollInFlight(call: Id, id: Id)
    | AskGateway(call: Id)
    | PollOverdue(call: Id, id: Id)
    | FlagOverdue(call: Id)
    // AdminDecideWithdrawal, each decision in one step
    | Approve(id: Id)
    | Reject(id: Id)
    | MarkPaid(id: Id)
    | MarkFailed(id: Id)

  // ---- reading the state ----

  /** Everything the protocol knows about one withdrawal. */
  datatype View = View(row: Withdrawal, transfer: Option<Transfer>, sends: nat)

  function ViewOf(sys: System, id: Id): View
    requires id in sys.store.withdrawals
  {
    var w := sys.store.withdrawals[id];
    View(w, if w.reference in sys.bank then Some(sys.bank[w.reference]) else None, if id in sys.sends then sys.sends[id]
         else 0)
  }

  /** The call still holds the right to send this withdrawal. */
  predicate Unsent(c: Call) {
    c.Claimed? || c.Sending?
  }

  /** The call belongs to a Dispatch whose send has not been accepted. */
  predicate Dispatching(c: Call) {
    Unsent(c) || c.Declined?
  }

  ghost predicate SendPending(sys: System, id: Id) {
    exists c :: c in sys.calls && sys.calls[c].id == id && Unsent(sys.calls[c])
  }

  predicate HasStatus(sys: System, id: Id, st: WithdrawalStatus) {
    id in sys.store.withdrawals && sys.store.withdrawals[id].status == st
  }

  predicate TouchesWithdrawals(op: Op) {
    op.OpTransition? || op.OpFinalizeSuccess? || op.OpFinalizeFailure?
  }

  // ---- steps ----

  function Enter(sys: System, call: Id, c: Call): System {
    sys.(calls := sys.calls[call := c])
  }

  function Leave(sys: System, call: Id): System {
    sys.(calls := sys.calls - {call})
  }

  function Update(sys: System, id: Id, from: set<WithdrawalStatus>, to: WithdrawalStatus, flwKnown: bool): System {
    sys.(store := TransitionWithdrawal(sys.store, id, from, to, flwKnown).0)
  }

  function AfterSend(sys: System, call: Id, reply: Reply): System
    requires call in sys.calls && sys.calls[call].Sending?
  {
    var c := sys.calls[call];
    var ref := c.row.reference;
    var sent := sys.(sends := sys.sends[c.id := (if c.id in sys.sends then sys.sends[c.id] else 0) + 1]);
    match reply
    case Accept(t, hasId) =>
      // the reference is unique at the gateway: it never accepts the same one twice
      if ref in sys.bank then sys else Enter(sent.(bank := sys.bank[ref := t]), call, Reported(c.id, c.row, t, hasId))
    case RefuseLowFloat => Enter(sent, call, Declined(c.id, c.row, true))
    case Refuse => Enter(sent, call, Declined(c.id, c.row, false))
    case Lost(created) =>
      Leave(if created && ref !in sys.bank then sent.(bank := sys.bank[ref := InProgress]) else sent, call)
  }

  function AfterRefusal(sys: System, call: Id): System
    requires call in sys.calls && sys.calls[call].Declined?
  {
    var c := sys.calls[call];
    if !c.lowFloat then Leave(sys.(store := FinalizeFailure(sys.store, c.id, Failed).0), call)
    else if c.row.attempts >= MAX_DISPATCH_ATTEMPTS
      then Leave(Update(sys, c.id, {Processing}, NeedsAttention, false), call)
    else Leave(Update(sys, c.id, {Processing}, Queued, false), call)
  }

  function AfterReport(sys: System, call: Id): System
    requires call in sys.calls && sys.calls[call].Reported?
  {
    var c := sys.calls[call];
    var settling := Settling(c.id, c.row, c.transfer, c.hasId);
    if c.hasId && !c.row.flwKnown
    then Enter(Update(sys, c.id, {Processing, NeedsAttention}, c.row.status, true), call, settling)
    else Enter(sys, call, settling)
  }

  function AfterSettle(sys: System, call: Id): System
    requires call in sys.calls && sys.calls[call].Settling?
  {
    var c := sys.calls[call];
    match c.transfer
    case Paid =>
      var (store, outcome) := FinalizeSuccess(sys.store, c.id, c.hasId);
      if outcome.Refused? then Enter(sys.(store := store), call, Unsettled(c.id)) else Leave(sys.(store := store), call)
    case NotPaid => Leave(sys.(store := FinalizeFailure(sys.store, c.id, Failed).0), call)
    case InProgress => Leave(sys, call)
  }

  /** An event that is not possible in the current state changes nothing. */
  ghost function Next(sys: System, e: Event): System {
    match e
    case Other(op) => if TouchesWithdrawals(op) || !Legal(op) then sys else sys.(store := Perform(sys.store, op).0)
    case BankSettles(ref, t) =>
      if ref in sys.bank && sys.bank[ref].InProgress? then sys.(bank := sys.bank[ref := t]) else sys
    case Crash(call) => Leave(sys, call)

    case Claim(call, id) =>
      if call in sys.calls || !HasStatus(sys, id, Queued) then sys
      else Enter(Update(sys, id, {Queued}, Processing, false), call, Claimed(id))
    case Reload(call) =>
      if call in sys.calls && sys.calls[call].Claimed? && sys.calls[call].id in sys.store.withdrawals
      then Enter(sys, call, Sending(sys.calls[call].id, sys.store.withdrawals[sys.calls[call].id])) else sys
    case Send(call, reply) => if call in sys.calls && sys.calls[call].Sending? then AfterSend(sys, call, reply) else sys
    case HandleRefusal(call) => if call in sys.calls && sys.calls[call].Declined? then AfterRefusal(sys, call) else sys

    case RecordTransferId(call) => if call in sys.calls && sys.calls[call].Reported? then AfterReport(sys, call)
      else sys
    case Settle(call) => if call in sys.calls && sys.calls[call].Settling? then AfterSettle(sys, call) else sys
    case FlagUnsettled(call) =>
      if call in sys.calls && sys.calls[call].Unsettled?
      then Leave(Update(sys, sys.calls[call].id, {Processing, Queued}, NeedsAttention, false), call) else sys

    case WebhookArrives(call, id) =>
      // the gateway only reports transfers it has
      if call in sys.calls || id !in sys.store.withdrawals || ViewOf(sys, id).transfer.None? then sys
      else if Terminal(sys.store.withdrawals[id].status) then sys
      else Enter(sys, call, Looking(id, sys.store.withdrawals[id]))
    case PollInFlight(call, id) =>
      if call in sys.calls || !HasStatus(sys, id, Processing) || !sys.store.withdrawals[id].flwKnown then sys
      else Enter(sys, call, Looking(id, sys.store.withdrawals[id]))
    case AskGateway(call) =>
      if call in sys.calls && sys.calls[call].Looking? && sys.calls[call].row.reference in sys.bank
      then Enter(sys, call, Reported(sys.calls[call].id, sys.calls[call].row, sys.bank[sys.calls[call].row.reference],
                                     true)) else sys
    case PollOverdue(call, id) =>
      if call in sys.calls || !HasStatus(sys, id, Processing) || sys.store.withdrawals[id].flwKnown then sys
      else Enter(sys, call, Overdue(id))
    case FlagOverdue(call) =>
      // twenty minutes on, no send of this withdrawal is still under way
      if call in sys.calls && sys.calls[call].Overdue? && !SendPending(sys, sys.calls[call].id)
      then Leave(Update(sys, sys.calls[call].id, {Processing}, NeedsAttention, false), call) else sys

    case Approve(id) => if HasStatus(sys, id, PendingReview) then Update(sys, id, {PendingReview}, Queued, false)
      else sys
    case Reject(id) => if HasStatus(sys, id, PendingReview)
      then sys.(store := FinalizeFailure(sys.store, id, Rejected).0) else sys
    case MarkPaid(id) =>
      // the admin has seen the money arrive
      if HasStatus(sys, id, NeedsAttention) && ViewOf(sys, id).transfer == Some(Paid)
      then sys.(store := FinalizeSuccess(sys.store, id, sys.store.withdrawals[id].flwKnown).0) else sys
    case MarkFailed(id) =>
      // the bank has confirmed that nothing was or will be paid
      if HasStatus(sys, id, NeedsAttention)
        && (ViewOf(sys, id).transfer.None? || ViewOf(sys, id).transfer == Some(NotPaid))
      then sys.(store := FinalizeFailure(sys.store, id, Failed).0) else sys
  }

  ghost function Continue(sys: System, events: seq<Event>): System
    decreases |events|
  {
    if events == [] then sys else Next(Continue(sys, events[..|events| - 1]), events[|events| - 1])
  }

  ghost function After(events: seq<Event>): System {
    Continue(START, events)
  }
}
