/**
 * Dispatch and the admin's decisions as they run without another call in between. Each method is proved to be a
 * run of the steps of module Payout, so what holds of every interleaving holds of it.
 */
module PayoutService {
  import opened Wrappers
  import opened Ledger
  import LateDecisions
  import LedgerIntegrity
  import LedgerOutcomes
  import LedgerStore
  import opened Payout
  import PayoutLimits

  // ---- Dispatch as a run ----

  ghost function Sent(sys: System, id: Id, reply: Reply): System {
    Next(Next(Next(sys, Claim(0, id)), Reload(0)), Send(0, reply))
  }

  ghost function Finished(sys: System): System {
    Next(Next(Next(Next(sys, HandleRefusal(0)), RecordTransferId(0)), Settle(0)), FlagUnsettled(0))
  }

  ghost function DispatchAlone(sys: System, id: Id, reply: Reply): System {
    Finished(Sent(sys, id, reply))
  }

  /** The row as Dispatch loads it after its claim. */
  function ClaimedRow(sys: System, id: Id): Withdrawal
    requires id in sys.store.withdrawals
  {
    var w := sys.store.withdrawals[id];
    w.(status := Processing, attempts := w.attempts + 1)
  }

  function SentOnce(sys: System, id: Id): map<Id, nat> {
    sys.sends[id := (if id in sys.sends then sys.sends[id] else 0) + 1]
  }

  lemma ClaimsAndLoads(sys: System, id: Id)
    requires sys.calls == map[] && HasStatus(sys, id, Queued)
    ensures Next(Next(sys, Claim(0, id)), Reload(0)) ==
      Update(sys, id, {Queued}, Processing, false).(calls := map[0 := Sending(id, ClaimedRow(sys, id))])
  {
    var claimed := Next(sys, Claim(0, id));
    assert claimed == Update(sys, id, {Queued}, Processing, false).(calls := map[0 := Claimed(id)]);
  }

  lemma NotQueued(sys: System, id: Id, reply: Reply)
    requires sys.calls == map[] && !HasStatus(sys, id, Queued)
    ensures DispatchAlone(sys, id, reply) == sys
  {
    hide Finished;
    Idle(sys);
  }

  /** Without a call its steps change nothing. */
  lemma Idle(sys: System)
    requires sys.calls == map[]
    ensures Finished(sys) == sys
  {
    assert Next(sys, HandleRefusal(0)) == sys && Next(sys, RecordTransferId(0)) == sys;
    assert Next(sys, Settle(0)) == sys && Next(sys, FlagUnsettled(0)) == sys;
  }

  lemma Refused(sys: System, id: Id, row: Withdrawal, lowFloat: bool)
    requires sys.calls == map[0 := Declined(id, row, lowFloat)]
    ensures Finished(sys) == var gone := sys.(calls := map[]);
      if !lowFloat then gone.(store := FinalizeFailure(sys.store, id, Failed).0)
      else Update(gone, id, {Processing}, if row.attempts >= MAX_DISPATCH_ATTEMPTS then NeedsAttention
                  else Queued, false)
  {
    hide FinalizeFailure, TransitionWithdrawal, Finished;
    assert sys.calls - {0} == map[];
    var handled := Next(sys, HandleRefusal(0));
    assert handled.calls == map[];
    FinishedAfterRefusal(sys, handled);
  }

  lemma FinishedAfterRefusal(sys: System, handled: System)
    requires handled == Next(sys, HandleRefusal(0)) && handled.calls == map[]
    ensures Finished(sys) == handled
  {
    assert Next(handled, RecordTransferId(0)) == handled;
    assert Next(handled, Settle(0)) == handled && Next(handled, FlagUnsettled(0)) == handled;
  }

  /** Recording a transfer's id, if it is new. */
  function Recorded(s: Store, id: Id, row: Withdrawal, hasId: bool): Store {
    if hasId && !row.flwKnown then TransitionWithdrawal(s, id, {Processing, NeedsAttention}, row.status, true).0 else s
  }

  /** What applyTransferState does to the tables. */
  function AppliedTo(s: Store, id: Id, row: Withdrawal, t: Transfer, hasId: bool): Store {
    var recorded := Recorded(s, id, row, hasId);
    match t
    case InProgress => recorded
    case NotPaid => FinalizeFailure(recorded, id, Failed).0
    case Paid =>
      var (s', outcome) := FinalizeSuccess(recorded, id, hasId);
      if outcome.Refused? then TransitionWithdrawal(s', id, {Processing, Queued}, NeedsAttention, false).0 else s'
  }

  /** A row that the ledger can settle: its books are right, and fee and net are its amount. */
  ghost predicate Sound(s: Store, id: Id) {
    LedgerIntegrity.Inv(s) && id in s.withdrawals
    && 0 <= s.withdrawals[id].amount == s.withdrawals[id].net + s.withdrawals[id].fee
  }

  /** Only this row has changed, and of it only how far it has come. */
  predicate OnlyProgress(ws: map<Id, Withdrawal>, ws': map<Id, Withdrawal>, id: Id, status: WithdrawalStatus,
                         attempts: nat, flwKnown: bool)
  {
    id in ws && ws' == ws[id := ws[id].(status := status, attempts := attempts, flwKnown := flwKnown)]
  }

  /** Money comes back with a failure or a rejection, and in no other way. */
  ghost predicate BackIfFailed(s: Store, s': Store, id: Id)
    requires id in s.withdrawals && id in s'.withdrawals
  {
    LedgerOutcomes.OnlyBalance(s, s', s.withdrawals[id].user, if s'.withdrawals[id].status in {Failed, Rejected}
                               then s.withdrawals[id].amount else 0)
  }

  /**
   * What a transfer's report makes of a row that is being paid, read earlier as `row`: the transfer's id is known from
   * now on; a paid transfer ends the row as successful, one that was not paid as failed with its money back, and one
   * in progress leaves it in the status it was read in. Writing the id down counts as an attempt, if that status is
   * processing.
   */
  ghost predicate AsReported(s: Store, s': Store, id: Id, row: Withdrawal, t: Transfer, hasId: bool)
    requires id in s.withdrawals
  {
    var w := s.withdrawals[id];
    var writes := hasId && !row.flwKnown;
    var status := match t
      case Paid => Successful
      case NotPaid => Failed
      case InProgress => if writes then row.status else w.status;
    && OnlyProgress(s.withdrawals, s'.withdrawals, id, status,
                    w.attempts + (if writes && row.status == Processing then 1 else 0), w.flwKnown || hasId)
    && BackIfFailed(s, s', id) && s'.topups == s.topups && s'.holds == s.holds
  }

  /** The row can be settled, is being paid, and was when it was read. */
  ghost predicate BeingPaid(s: Store, id: Id, row: Withdrawal) {
    Sound(s, id) && s.withdrawals[id].status in {Processing, NeedsAttention}
    && row.status in {Processing, NeedsAttention} && (row.flwKnown ==> s.withdrawals[id].flwKnown)
  }

  lemma TransferIsApplied(s: Store, id: Id, row: Withdrawal, t: Transfer, hasId: bool)
    requires BeingPaid(s, id, row)
    ensures AsReported(s, AppliedTo(s, id, row, t, hasId), id, row, t, hasId)
  {
    hide LedgerIntegrity.Inv, FinalizeSuccess, FinalizeFailure, LedgerOutcomes.OnlyBalance;
    var recorded := Recorded(s, id, row, hasId);
    RecordedKeepsSound(s, id, row, hasId);
    LedgerOutcomes.PayoutIsBookedIff(recorded, id, hasId);
    LedgerOutcomes.PayoutIsReturnedIff(recorded, id, Failed);
    SameMoney(s, recorded, AppliedTo(s, id, row, t, hasId), s.withdrawals[id].user,
              if t == NotPaid then s.withdrawals[id].amount else 0);
  }

  /** Whatever else goes wrong, a reported id is known afterwards. */
  lemma IdIsKnown(s: Store, id: Id, row: Withdrawal, t: Transfer)
    requires id in s.withdrawals && s.withdrawals[id].status in {Processing, NeedsAttention}
    requires row.flwKnown ==> s.withdrawals[id].flwKnown
    ensures var s' := AppliedTo(s, id, row, t, true); id in s'.withdrawals && s'.withdrawals[id].flwKnown
  {
    hide Post;
  }

  /** A paid transfer whose row cannot be booked, because fee and net are not its amount, is left to an admin. */
  lemma UnbookedIsFlagged(s: Store, id: Id, row: Withdrawal, hasId: bool)
    requires LedgerIntegrity.Inv(s) && id in s.withdrawals && s.withdrawals[id].status == Processing == row.status
    requires s.withdrawals[id].amount != s.withdrawals[id].net + s.withdrawals[id].fee
    ensures var s' := AppliedTo(s, id, row, Paid, hasId);
      && id in s'.withdrawals && s'.withdrawals[id].status == NeedsAttention
      && s' == s.(withdrawals := s'.withdrawals)
  {
    hide LedgerIntegrity.Inv, FinalizeSuccess;
    var recorded := Recorded(s, id, row, hasId);
    LedgerIntegrity.TransitionKeepsInv(s, id, {Processing, NeedsAttention}, row.status, true);
    LedgerOutcomes.PayoutIsBookedIff(recorded, id, hasId);
  }

  lemma RecordedKeepsSound(s: Store, id: Id, row: Withdrawal, hasId: bool)
    requires BeingPaid(s, id, row)
    ensures Sound(Recorded(s, id, row, hasId), id)
  {
    hide LedgerIntegrity.Inv;
    LedgerIntegrity.TransitionKeepsInv(s, id, {Processing, NeedsAttention}, row.status, true);
  }

  lemma SameMoney(s: Store, t: Store, s': Store, user: Id, change: int)
    requires t.wallets == s.wallets
    requires (s'.wallets == t.wallets && change == 0) || LedgerOutcomes.OnlyBalance(t, s', user, change)
    ensures LedgerOutcomes.OnlyBalance(s, s', user, change)
  {
  }

  lemma ReportApplied(sys: System, id: Id, row: Withdrawal, t: Transfer, hasId: bool)
    requires sys.calls == map[0 := Reported(id, row, t, hasId)]
    ensures Finished(sys) == sys.(store := AppliedTo(sys.store, id, row, t, hasId), calls := map[])
  {
    hide FinalizeFailure, FinalizeSuccess, TransitionWithdrawal;
    assert Next(sys, HandleRefusal(0)) == sys;
    var recorded := sys.(store := Recorded(sys.store, id, row, hasId), calls := map[0 := Settling(id, row, t, hasId)]);
    assert Next(sys, RecordTransferId(0)) == recorded;
    assert map[0 := Settling(id, row, t, hasId)] - {0} == map[] && map[0 := Unsettled(id)] - {0} == map[];
    SettlesAndFlags(recorded, id, row, t, hasId);
  }

  lemma SettlesAndFlags(sys: System, id: Id, row: Withdrawal, t: Transfer, hasId: bool)
    requires sys.calls == map[0 := Settling(id, row, t, hasId)]
    ensures Next(Next(sys, Settle(0)), FlagUnsettled(0)) == sys.(calls := map[], store :=
      match t
      case InProgress => sys.store
      case NotPaid => FinalizeFailure(sys.store, id, Failed).0
      case Paid =>
        var (s', outcome) := FinalizeSuccess(sys.store, id, hasId);
        if outcome.Refused? then TransitionWithdrawal(s', id, {Processing, Queued}, NeedsAttention, false).0 else s')
  {
    hide FinalizeFailure, FinalizeSuccess, TransitionWithdrawal;
    assert map[0 := Settling(id, row, t, hasId)] - {0} == map[] && map[0 := Unsettled(id)] - {0} == map[];
  }

  lemma Sends(sys: System, id: Id, row: Withdrawal, reply: Reply)
    requires sys.calls == map[0 := Sending(id, row)] && (reply.Accept? ==> row.reference !in sys.bank)
    ensures var sent := sys.(sends := SentOnce(sys, id));
      Next(sys, Send(0, reply)) ==
        match reply
        case Accept(t, hasId) => sent.(bank := sys.bank[row.reference := t],
                                       calls := map[0 := Reported(id, row, t, hasId)])
        case RefuseLowFloat => sent.(calls := map[0 := Declined(id, row, true)])
        case Refuse => sent.(calls := map[0 := Declined(id, row, false)])
        case Lost(created) =>
          sent.(bank := if created && row.reference !in sys.bank then sys.bank[row.reference := InProgress]
                else sys.bank, calls := map[])
  {
    assert sys.calls - {0} == map[];
  }

  /** What a Dispatch of a queued withdrawal does, by the gateway's answer. */
  lemma DispatchAloneIs(sys: System, id: Id, reply: Reply)
    requires sys.calls == map[] && HasStatus(sys, id, Queued)
    requires reply.Accept? ==> sys.store.withdrawals[id].reference !in sys.bank
    ensures var row := ClaimedRow(sys, id);
      var s := TransitionWithdrawal(sys.store, id, {Queued}, Processing, false).0;
      var sent := sys.(sends := SentOnce(sys, id));
      DispatchAlone(sys, id, reply) ==
        match reply
        case Accept(t, hasId) => sent.(store := AppliedTo(s, id, row, t, hasId), bank := sys.bank[row.reference := t])
        case RefuseLowFloat =>
          var next := if row.attempts >= MAX_DISPATCH_ATTEMPTS then NeedsAttention else Queued;
          sent.(store := TransitionWithdrawal(s, id, {Processing}, next, false).0)
        case Refuse => sent.(store := FinalizeFailure(s, id, Failed).0)
        case Lost(created) =>
          sent.(store := s, bank := if created
                && row.reference !in sys.bank then sys.bank[row.reference := InProgress] else sys.bank)
  {
    hide Next, Finished, TransitionWithdrawal, FinalizeFailure, AppliedTo;
    var row := ClaimedRow(sys, id);
    ClaimsAndLoads(sys, id);
    var loaded := Update(sys, id, {Queued}, Processing, false).(calls := map[0 := Sending(id, row)]);
    Sends(loaded, id, row, reply);
    var after := Sent(sys, id, reply);
    match reply {
      case Accept(t, hasId) => ReportApplied(after, id, row, t, hasId);
      case RefuseLowFloat => Refused(after, id, row, true);
      case Refuse => Refused(after, id, row, false);
      case Lost(_) => Idle(after);
    }
  }

  /**
   * What sending a queued row makes of it, by the gateway's answer: accepted, it goes the way of its transfer, whose id
   * is known if there was one; for want of float it waits in the queue again, or after the tenth attempt for an admin;
   * refused, it fails and its money is back; without an answer it stays in processing.
   */
  ghost predicate AsAnswered(sys: System, sys': System, id: Id, reply: Reply)
    requires id in sys.store.withdrawals
  {
    var (s, s', w) := (sys.store, sys'.store, sys.store.withdrawals[id]);
    var learns := reply.Accept? && reply.hasId;
    var status := match reply
      case Accept(Paid, _) => Successful
      case Accept(NotPaid, _) => Failed
      case Accept(InProgress, _) => Processing
      case RefuseLowFloat => if w.attempts >= 9 then NeedsAttention else Queued
      case Refuse => Failed
      case Lost(_) => Processing;
    && OnlyProgress(s.withdrawals, s'.withdrawals, id, status,
                    w.attempts + (if learns && !w.flwKnown then 2 else 1), w.flwKnown || learns)
    && BackIfFailed(s, s', id) && s'.topups == s.topups && s'.holds == s.holds
    && sys'.calls == sys.calls && sys'.sends == sys.sends[id := 1 + if id in sys.sends then sys.sends[id] else 0]
    && sys'.bank == match reply
                    case Accept(t, _) => sys.bank[w.reference := t]
                    case Lost(true) => if w.reference in sys.bank then sys.bank else sys.bank[w.reference := InProgress]
                    case _ => sys.bank
  }

  lemma ClaimKeepsSound(s: Store, id: Id)
    requires Sound(s, id) && s.withdrawals[id].status == Queued
    ensures var s' := TransitionWithdrawal(s, id, {Queued}, Processing, false).0;
      var w := s.withdrawals[id];
      && Sound(s', id) && s' == s.(withdrawals := s'.withdrawals)
      && s'.withdrawals == s.withdrawals[id := w.(status := Processing, attempts := w.attempts + 1)]
  {
    hide LedgerIntegrity.Inv;
    LedgerIntegrity.TransitionKeepsInv(s, id, {Queued}, Processing, false);
  }

  lemma SendIsAnswered(sys: System, id: Id, reply: Reply)
    requires sys.calls == map[] && Sound(sys.store, id) && sys.store.withdrawals[id].status == Queued
    requires reply.Accept? ==> sys.store.withdrawals[id].reference !in sys.bank
    ensures AsAnswered(sys, DispatchAlone(sys, id, reply), id, reply)
  {
    hide DispatchAlone, AppliedTo, FinalizeFailure, LedgerIntegrity.Inv, LedgerOutcomes.OnlyBalance;
    var row := ClaimedRow(sys, id);
    var claimed := TransitionWithdrawal(sys.store, id, {Queued}, Processing, false).0;
    DispatchAloneIs(sys, id, reply);
    ClaimKeepsSound(sys.store, id);
    var sys' := DispatchAlone(sys, id, reply);
    match reply {
      case Accept(t, hasId) => TransferIsApplied(claimed, id, row, t, hasId);
      case Refuse => LedgerOutcomes.PayoutIsReturnedIff(claimed, id, Failed);
      case _ =>
    }
    SameMoney(sys.store, claimed, sys'.store, row.user, if sys'.store.withdrawals[id].status == Failed
              then row.amount else 0);
  }

  lemma AnswerIsApplied(sys: System, id: Id, reply: Reply)
    requires sys.calls == map[] && HasStatus(sys, id, Queued)
    requires reply.Accept? ==> sys.store.withdrawals[id].reference !in sys.bank
    ensures var sys' := DispatchAlone(sys, id, reply);
      && (Sound(sys.store, id) ==> AsAnswered(sys, sys', id, reply))
      && (reply.Accept? && reply.hasId ==> id in sys'.store.withdrawals && sys'.store.withdrawals[id].flwKnown)
  {
    hide DispatchAlone, AppliedTo, AsAnswered, Sound;
    if Sound(sys.store, id) {
      SendIsAnswered(sys, id, reply);
    }
    if reply.Accept? && reply.hasId {
      DispatchAloneIs(sys, id, reply);
      IdIsKnown(TransitionWithdrawal(sys.store, id, {Queued}, Processing, false).0, id, ClaimedRow(sys, id),
                reply.transfer);
    }
  }

  // ---- webhook and poller as runs ----

  ghost function WebhookAlone(sys: System, id: Id): System {
    Finished(Next(Next(sys, WebhookArrives(0, id)), AskGateway(0)))
  }

  ghost function PollAlone(sys: System, id: Id): System {
    Finished(Next(Next(sys, PollInFlight(0, id)), AskGateway(0)))
  }

  ghost function OverdueAlone(sys: System, id: Id): System {
    Next(Next(sys, PollOverdue(0, id)), FlagOverdue(0))
  }

  lemma Asks(sys: System, id: Id, e: Event)
    requires sys.calls == map[] && id in sys.store.withdrawals
    requires (e == WebhookArrives(0, id) && !Terminal(sys.store.withdrawals[id].status))
             || (e == PollInFlight(0, id) && HasStatus(sys, id, Processing) && sys.store.withdrawals[id].flwKnown)
    requires sys.store.withdrawals[id].reference in sys.bank
    ensures var row := sys.store.withdrawals[id];
      Next(Next(sys, e), AskGateway(0)) == sys.(calls := map[0 := Reported(id, row, sys.bank[row.reference], true)])
  {
    var looking := sys.(calls := map[0 := Looking(id, sys.store.withdrawals[id])]);
    assert Next(sys, e) == looking;
  }

  lemma WebhookApplies(sys: System, id: Id)
    requires sys.calls == map[] && id in sys.store.withdrawals && !Terminal(sys.store.withdrawals[id].status)
    requires sys.store.withdrawals[id].reference in sys.bank
    ensures var row := sys.store.withdrawals[id];
      WebhookAlone(sys, id) == sys.(store := AppliedTo(sys.store, id, row, sys.bank[row.reference], true))
  {
    hide Next, Finished, AppliedTo;
    var row := sys.store.withdrawals[id];
    Asks(sys, id, WebhookArrives(0, id));
    ReportApplied(sys.(calls := map[0 := Reported(id, row, sys.bank[row.reference], true)]), id, row,
                  sys.bank[row.reference], true);
  }

  lemma PollApplies(sys: System, id: Id)
    requires sys.calls == map[] && HasStatus(sys, id, Processing) && sys.store.withdrawals[id].flwKnown
    requires sys.store.withdrawals[id].reference in sys.bank
    ensures var row := sys.store.withdrawals[id];
      PollAlone(sys, id) == sys.(store := AppliedTo(sys.store, id, row, sys.bank[row.reference], true))
  {
    hide Next, Finished, AppliedTo;
    var row := sys.store.withdrawals[id];
    Asks(sys, id, PollInFlight(0, id));
    ReportApplied(sys.(calls := map[0 := Reported(id, row, sys.bank[row.reference], true)]), id, row,
                  sys.bank[row.reference], true);
  }

  lemma NothingToReport(sys: System, id: Id)
    requires sys.calls == map[] && id in sys.store.withdrawals
    ensures Terminal(sys.store.withdrawals[id].status) || sys.store.withdrawals[id].reference !in sys.bank ==>
      WebhookAlone(sys, id) == sys
  {
    hide Finished;
    Idle(sys);
  }

  lemma SoundIsBeingPaid(s: Store, id: Id)
    ensures Sound(s, id) && s.withdrawals[id].status == Processing ==> BeingPaid(s, id, s.withdrawals[id])
  {
    hide LedgerIntegrity.Inv;
  }

  lemma FlagsOverdue(sys: System, id: Id)
    requires sys.calls == map[] && HasStatus(sys, id, Processing) && !sys.store.withdrawals[id].flwKnown
    ensures OverdueAlone(sys, id) == Update(sys, id, {Processing}, NeedsAttention, false)
  {
    var overdue := sys.(calls := map[0 := Overdue(id)]);
    assert Next(sys, PollOverdue(0, id)) == overdue;
    assert map[0 := Overdue(id)] - {0} == map[];
    assert !SendPending(overdue, id);
  }

  // ---- the service ----

  datatype Decision = ToApprove | ToReject | ToMarkPaid | ToMarkFailed

  datatype Refusal = WithdrawalNotFound | WrongState | SameApprover

  /** What the protocol's steps for a decision do to the tables. */
  lemma DecisionIs(sys: System, id: Id)
    ensures HasStatus(sys, id, PendingReview) ==>
      Next(sys, Approve(id)) == Update(sys, id, {PendingReview}, Queued, false)
      && Next(sys, Reject(id)) == PayoutLimits.Return(sys, id, Rejected)
    ensures HasStatus(sys, id, NeedsAttention) && ViewOf(sys, id).transfer == Some(Paid) ==>
      Next(sys, MarkPaid(id)) == sys.(store := FinalizeSuccess(sys.store, id, sys.store.withdrawals[id].flwKnown).0)
    ensures HasStatus(sys, id, NeedsAttention) && ViewOf(sys, id).transfer in {None, Some(NotPaid)} ==>
      Next(sys, MarkFailed(id)) == PayoutLimits.Return(sys, id, Failed)
  {
    hide FinalizeFailure, FinalizeSuccess, Update;
  }

  /** The step of the protocol that carries the decision out. */
  function StepFor(id: Id, d: Decision): Event {
    match d
    case ToApprove => Approve(id)
    case ToReject => Reject(id)
    case ToMarkPaid => MarkPaid(id)
    case ToMarkFailed => MarkFailed(id)
  }

  /** The status that a decision is about. */
  function DecidedFrom(d: Decision): WithdrawalStatus {
    if d in {ToApprove, ToReject} then PendingReview else NeedsAttention
  }

  /**
   * What a decision makes of the row: an approved one waits in the queue, a rejected or failed one ends with its money
   * back, a paid one ends as successful.
   */
  ghost predicate AsDecided(s: Store, s': Store, id: Id, d: Decision)
    requires id in s.withdrawals
  {
    var w := s.withdrawals[id];
    var status := match d
      case ToApprove => Queued
      case ToReject => Rejected
      case ToMarkPaid => Successful
      case ToMarkFailed => Failed;
    && OnlyProgress(s.withdrawals, s'.withdrawals, id, status, w.attempts, w.flwKnown)
    && BackIfFailed(s, s', id) && s'.topups == s.topups && s'.holds == s.holds
  }

  lemma DecisionIsCarriedOut(sys: System, id: Id, d: Decision)
    requires d.ToMarkPaid? ==> id in sys.store.withdrawals && ViewOf(sys, id).transfer == Some(Paid)
    requires d.ToMarkFailed? ==> id in sys.store.withdrawals && ViewOf(sys, id).transfer in {None, Some(NotPaid)}
    ensures HasStatus(sys, id, DecidedFrom(d)) && Sound(sys.store, id) ==>
      AsDecided(sys.store, Next(sys, StepFor(id, d)).store, id, d)
  {
    hide FinalizeFailure, FinalizeSuccess, Next, LedgerIntegrity.Inv, LedgerOutcomes.OnlyBalance;
    if HasStatus(sys, id, DecidedFrom(d)) && Sound(sys.store, id) {
      DecisionIs(sys, id);
      LedgerOutcomes.PayoutIsBookedIff(sys.store, id, sys.store.withdrawals[id].flwKnown);
      LedgerOutcomes.PayoutIsReturnedIff(sys.store, id, if d.ToReject? then Rejected else Failed);
      if d.ToApprove? || d.ToMarkPaid? {
        var s' := Next(sys, StepFor(id, d)).store;
        SameMoney(sys.store, s', s', sys.store.withdrawals[id].user, 0);
      }
    }
  }

  class PayoutService {
    const ledger: LedgerStore.LedgerRepository
    ghost var bank: map<Reference, Transfer>
    ghost var sends: map<Id, nat>

    constructor (ledger: LedgerStore.LedgerRepository)
      ensures this.ledger == ledger && bank == map[] && sends == map[]
    {
      this.ledger, bank, sends := ledger, map[], map[];
    }

    /** No call is under way between two calls. */
    ghost function AsSystem(): System
      reads this, ledger
    {
      System(ledger.Snapshot(), bank, map[], sends)
    }

    /** `reply` is what the gateway answers if it is asked. */
    method Dispatch(id: Id, reply: Reply)
      requires reply.Accept? && id in ledger.withdrawals ==> ledger.withdrawals[id].reference !in bank
      modifies this, ledger
      ensures AsSystem() == DispatchAlone(old(AsSystem()), id, reply)
      ensures old(HasStatus(AsSystem(), id, Queued) && Sound(ledger.Snapshot(), id)) ==>
        AsAnswered(old(AsSystem()), AsSystem(), id, reply)
      ensures !old(HasStatus(AsSystem(), id, Queued)) ==> AsSystem() == old(AsSystem())
      ensures old(HasStatus(AsSystem(), id, Queued)) && reply.Accept? && reply.hasId ==>
        id in ledger.withdrawals && ledger.withdrawals[id].flwKnown
    {
      ghost var sys := AsSystem();
      hide DispatchAlone, FinalizeFailure, FinalizeSuccess, AsAnswered, AsReported, BeingPaid, Sound;
      if HasStatus(sys, id, Queued) {
        DispatchAloneIs(sys, id, reply);
        AnswerIsApplied(sys, id, reply);
      } else {
        NotQueued(sys, id, reply);
      }
      var moved := ledger.TransitionWithdrawal(id, {Queued}, Processing, false);
      if !moved.Applied? {
        return;
      }
      var row := ledger.withdrawals[id];
      assert row == ClaimedRow(sys, id);
      sends := SentOnce(sys, id);
      match reply {
        case Accept(t, hasId) =>
          bank := bank[row.reference := t];
          ApplyTransferState(id, row, t, hasId);
        case RefuseLowFloat =>
          if row.attempts >= MAX_DISPATCH_ATTEMPTS {
            var _ := ledger.TransitionWithdrawal(id, {Processing}, NeedsAttention, false);
          } else {
            var _ := ledger.TransitionWithdrawal(id, {Processing}, Queued, false);
          }
        case Refuse =>
          var _ := ledger.FinalizeWithdrawalFailure(id, Failed);
        case Lost(created) =>
          if created && row.reference !in bank {
            bank := bank[row.reference := InProgress];
          }
      }
    }

    method ApplyTransferState(id: Id, row: Withdrawal, t: Transfer, hasId: bool)
      modifies ledger
      ensures ledger.Snapshot() == AppliedTo(old(ledger.Snapshot()), id, row, t, hasId)
      ensures old(BeingPaid(ledger.Snapshot(), id, row)) ==>
        AsReported(old(ledger.Snapshot()), ledger.Snapshot(), id, row, t, hasId)
      ensures hasId && id in old(ledger.withdrawals)
              && old(ledger.withdrawals)[id].status in {Processing, NeedsAttention}
              && (row.flwKnown ==> old(ledger.withdrawals)[id].flwKnown) ==>
        id in ledger.withdrawals && ledger.withdrawals[id].flwKnown
    {
      if hasId && id in ledger.withdrawals && ledger.withdrawals[id].status in {Processing, NeedsAttention}
         && (row.flwKnown ==> ledger.withdrawals[id].flwKnown) {
        IdIsKnown(ledger.Snapshot(), id, row, t);
      }
      if BeingPaid(ledger.Snapshot(), id, row) {
        TransferIsApplied(ledger.Snapshot(), id, row, t, hasId);
      }
      hide FinalizeFailure, FinalizeSuccess, TransitionWithdrawal;
      if hasId && !row.flwKnown {
        var _ := ledger.TransitionWithdrawal(id, {Processing, NeedsAttention}, row.status, true);
      }
      match t {
        case Paid =>
          var o := ledger.FinalizeWithdrawalSuccess(id, hasId);
          if o.Refused? {
            var _ := ledger.TransitionWithdrawal(id, {Processing, Queued}, NeedsAttention, false);
          }
        case NotPaid =>
          var _ := ledger.FinalizeWithdrawalFailure(id, Failed);
        case InProgress =>
      }
    }

    /**
     * A report about a transfer settles the row of its reference as the gateway says when it is asked, unless the row
     * is final already or there is no such row or transfer.
     */
    method HandleTransferWebhook(ref: Reference, answer: Option<Transfer>)
      requires answer == if ref in bank then Some(bank[ref]) else None
      modifies ledger
      ensures forall id :: id in old(ledger.withdrawals) && old(ledger.withdrawals)[id].reference == ref
                           && old(LedgerIntegrity.Inv(ledger.Snapshot())) ==>
        AsSystem() == WebhookAlone(old(AsSystem()), id)
        && var row := old(ledger.withdrawals)[id];
        && (row.status in {Successful, Failed, Rejected} || answer.None? ==> AsSystem() == old(AsSystem()))
        && (old(BeingPaid(ledger.Snapshot(), id, row)) && answer.Some? ==>
              AsReported(old(ledger.Snapshot()), ledger.Snapshot(), id, row, answer.value, true))
      ensures (forall id :: id in old(ledger.withdrawals) ==> old(ledger.withdrawals)[id].reference != ref) ==>
        AsSystem() == old(AsSystem())
    {
      hide Next, LedgerIntegrity.Inv, WebhookAlone, AppliedTo, AsReported, Sound;
      var found := WithReference(ledger.withdrawals, ref);
      assert forall id :: id in ledger.withdrawals && ledger.withdrawals[id].reference == ref ==> id in found;
      if found == {} {
        return;
      }
      var id :| id in found;
      if LedgerIntegrity.Inv(ledger.Snapshot()) {
        LedgerIntegrity.ReferenceNamesOne(ledger.Snapshot(), ref, id);
      }
      var row := ledger.withdrawals[id];
      NothingToReport(AsSystem(), id);
      if Terminal(row.status) || answer.None? {
        return;
      }
      WebhookApplies(AsSystem(), id);
      ApplyTransferState(id, row, answer.value, true);
    }

    /**
     * The poller's turn for one row in processing: a transfer whose id is known is asked about; for any other an admin
     * is called once it is overdue.
     */
    method PollOne(id: Id, overdue: bool, answer: Option<Transfer>)
      requires id in ledger.withdrawals && ledger.withdrawals[id].status == Processing
      requires var ref := ledger.withdrawals[id].reference; answer == if ref in bank then Some(bank[ref]) else None
      modifies ledger
      ensures AsSystem() == if !old(ledger.withdrawals)[id].flwKnown && overdue then OverdueAlone(old(AsSystem()), id)
        else if old(ledger.withdrawals)[id].flwKnown && answer.Some? then PollAlone(old(AsSystem()), id)
        else old(AsSystem())
      ensures var row := old(ledger.withdrawals)[id];
        if !row.flwKnown && overdue then
          && ledger.Snapshot() == old(ledger.Snapshot()).(withdrawals := ledger.withdrawals)
          && OnlyProgress(old(ledger.withdrawals), ledger.withdrawals, id, NeedsAttention, row.attempts, false)
        else if !row.flwKnown || answer.None? then AsSystem() == old(AsSystem())
        else old(Sound(ledger.Snapshot(), id)) ==>
          AsReported(old(ledger.Snapshot()), ledger.Snapshot(), id, row, answer.value, true)
    {
      hide Next, LedgerIntegrity.Inv, PollAlone, OverdueAlone, AppliedTo, AsReported, BeingPaid, Sound;
      SoundIsBeingPaid(ledger.Snapshot(), id);
      var row := ledger.withdrawals[id];
      if !row.flwKnown {
        if overdue {
          FlagsOverdue(AsSystem(), id);
          var _ := ledger.TransitionWithdrawal(id, {Processing}, NeedsAttention, false);
        }
        return;
      }
      if answer.None? {
        return;
      }
      PollApplies(AsSystem(), id);
      ApplyTransferState(id, row, answer.value, true);
    }

    /**
     * The decision that fits the row's status is one of the protocol's steps; any other is refused and changes
     * nothing.
     */
    method AdminDecideWithdrawal(id: Id, admin: Id, d: Decision) returns (e: Option<Refusal>)
      requires d.ToMarkPaid? ==> id in ledger.withdrawals && ViewOf(AsSystem(), id).transfer == Some(Paid)
      requires d.ToMarkFailed? ==>
        id in ledger.withdrawals && (ViewOf(AsSystem(), id).transfer.None?
                                     || ViewOf(AsSystem(), id).transfer == Some(NotPaid))
      modifies ledger
      ensures AsSystem() == if e.Some? then old(AsSystem()) else Next(old(AsSystem()), StepFor(id, d))
      ensures e == Some(WithdrawalNotFound) <==> id !in old(ledger.withdrawals)
      ensures e == Some(WrongState) <==>
        id in old(ledger.withdrawals) && old(ledger.withdrawals)[id].status != DecidedFrom(d)
      ensures e.None? <==>
        id in old(ledger.withdrawals) && old(ledger.withdrawals)[id].status == DecidedFrom(d)
        && (d.ToApprove? ==> old(ledger.withdrawals)[id].user != admin)
      ensures e.None? && old(Sound(ledger.Snapshot(), id)) ==>
        AsDecided(old(ledger.Snapshot()), ledger.Snapshot(), id, d)
    {
      hide Next, FinalizeFailure, FinalizeSuccess, Sound, AsDecided, PayoutLimits.Return, LateDecisions.LateDecision;
      DecisionIsCarriedOut(AsSystem(), id, d);
      DecisionIs(AsSystem(), id);
      if id !in ledger.withdrawals {
        return Some(WithdrawalNotFound);
      }
      var w := ledger.withdrawals[id];
      match d {
        case ToApprove =>
          if !w.status.PendingReview? {
            return Some(WrongState);
          }
          if w.user == admin {
            return Some(SameApprover);
          }
          var o := ledger.TransitionWithdrawal(id, {PendingReview}, Queued, false);
          if !o.Applied? {
            assert false;
          }
        case ToReject =>
          if !w.status.PendingReview? {
            return Some(WrongState);
          }
          LateDecisions.InTime(AsSystem(), id, PendingReview, Rejected);
          FailReviewed(id, w, Rejected);
        case ToMarkPaid =>
          if !w.status.NeedsAttention? {
            return Some(WrongState);
          }
          var _ := ledger.FinalizeWithdrawalSuccess(id, w.flwKnown);
        case ToMarkFailed =>
          if !w.status.NeedsAttention? {
            return Some(WrongState);
          }
          LateDecisions.InTime(AsSystem(), id, NeedsAttention, Failed);
          FailReviewed(id, w, Failed);
      }
      return None;
    }

    /** Writes back the status of the row as it was read, and returns the money. */
    method FailReviewed(id: Id, read: Withdrawal, final: WithdrawalStatus)
      requires !Terminal(read.status)
      modifies ledger
      ensures AsSystem() == LateDecisions.LateDecision(old(AsSystem()), id, read.status, final)
    {
      hide FinalizeFailure, TransitionWithdrawal;
      var _ := ledger.TransitionWithdrawal(id, LateDecisions.UNFINISHED, read.status, false);
      var _ := ledger.FinalizeWithdrawalFailure(id, final);
    }
  }
}
