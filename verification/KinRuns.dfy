/**
 * Runs of the appeal workflow that end badly, from the first event on: a cancelled appeal that is paid, and an admin
 * who approves alone.
 */
module KinRuns {
  import opened Wrappers
  import opened Ledger
  import LedgerIntegrity
  import opened Kin
  import opened KinSafety
  import opened KinLaws

  lemma OneMore(events: seq<Event>, e: Event) returns (more: seq<Event>)
    ensures more == events + [e] && After(more) == Next(After(events), e)
  {
    hide Next;
    more := events + [e];
    assert more[..|events|] == events;
  }

  /** Driver 1's appeal 1, with a document, before anybody has decided. */
  function Filed(s: State): State {
    s.(store := SetFrozen(s.store, 1, FrozenForAppeal), documents := map[1 := 1],
       appeals := map[1 := Appeal(1, 5, Submitted, None, None, None, 0, None)])
  }

  lemma Files(s: State)
    requires s == START.(store := s.store)
    ensures Next(Next(s, SubmitAppeal(1, 1, 5)), AddDocument(1)) == Filed(s)
  {
    hide SetFrozen;
  }

  /** A driver with the money to pay out, and their appeal. */
  lemma FiledRun() returns (events: seq<Event>)
    ensures var s := After(events);
      && s == Filed(START).(store := s.store) && s.store.withdrawals == map[]
      && 1 in s.store.wallets && s.store.wallets[1].balance >= 10_000 && s.store.wallets[1].freeze.FrozenForAppeal?
  {
    hide Next, LedgerIntegrity.Inv;
    LedgerIntegrity.EmptyStoreInv();
    events := TopUp(START, 1, 10_000);
    Files(After(events));
    events := OneMore(events, SubmitAppeal(1, 1, 5));
    events := OneMore(events, AddDocument(1));
  }

  // ---- cancelled and paid ----

  lemma Approves(s: State)
    requires s == Filed(START).(store := s.store)
    ensures Next(Next(s, AdminDecide(1, 2, Recommend, 0)), AdminDecide(1, 3, Approve, 0)) ==
      s.(appeals := map[1 := Appeal(1, 5, AppealStatus.Approved, Some(2), Some(3), Some(0), 0, None)])
  {
    var recommended := Next(s, AdminDecide(1, 2, Recommend, 0));
    assert recommended == s.(appeals := map[1 := Appeal(1, 5, AppealStatus.Recommended, Some(2), None, None, 0, None)]);
  }

  lemma Scans(s: State)
    requires s.calls == map[] && 1 in s.appeals && DueNow(s.appeals[1], s.clock)
    ensures Next(s, ScanDue(0, 1)) == s.(calls := map[0 := Due(1)])
  {
  }

  /** A disbursement that has read the balance of an approved appeal's driver, and has not paid yet. */
  lemma ReadyRun() returns (events: seq<Event>)
    ensures var s := After(events);
      && Calling(s, 0) && s.calls[0].Ready? && s.calls[0].appeal == 1 && s.store.withdrawals == map[]
      && s.appeals[1].status.Approved? && s.appeals[1].driver == 1
      && 1 in s.store.wallets && s.store.wallets[1].balance >= s.calls[0].amount
  {
    hide Next, After, SetFrozen;
    events := FiledRun();
    Approves(After(events));
    events := OneMore(events, AdminDecide(1, 2, Recommend, 0));
    events := OneMore(events, AdminDecide(1, 3, Approve, 0));
    Scans(After(events));
    events := OneMore(events, ScanDue(0, 1));
    DueGetsUnpaid(After(events), 0);
    events := OneMore(events, CheckReference(0));
    UnpaidGetsReady(After(events), 0);
    events := OneMore(events, ReadBalance(0));
  }

  /**
   * A run from the start at whose end the driver has cancelled the appeal and the money has left the wallet all the
   * same.
   */
  lemma CancelledAndPaidIsReachable() returns (events: seq<Event>)
    ensures 1 in After(events).appeals && After(events).appeals[1].status.Cancelled? && IsPaid(After(events), 1)
  {
    hide Next, After, Safe;
    events := ReadyRun();
    var s := After(events);
    EveryRunIsSafe(events);
    assert WithReference(s.store.withdrawals, AppealRef(1)) == {};
    CancelCanComeTooLate(s, 0, 1);
    events := OneMore(events, DriverCancel(1));
    events := OneMore(events, Create(0, 1));
    assert 1 in WithReference(After(events).store.withdrawals, AppealRef(1));
  }

  // ---- approved by one admin alone ----

  /**
   * AdminDecide's approval once the row has been read: the recommender is compared on the row read, the status on the
   * row as it is.
   */
  function LateApprove(s: State, id: Id, read: Appeal, admin: Id, coolOff: nat): State {
    if read.recommendedBy == Some(admin) then s
    else s.(appeals := Transition(s.appeals, id, {AppealStatus.Recommended},
              (a: Appeal) => a.(status := AppealStatus.Approved, approvedBy := Some(admin),
                                disbursableAfter := Some(s.clock + coolOff))))
  }

  predicate ApprovedAlone(a: Appeal) {
    a.status.Approved? && a.approvedBy == a.recommendedBy
  }

  /** With a row read in time it is the approval of module Kin. */
  lemma ApproveInTime(s: State, id: Id, admin: Id, coolOff: nat)
    requires id in s.appeals
    ensures LateApprove(s, id, s.appeals[id], admin, coolOff) == Next(s, AdminDecide(id, admin, Approve, coolOff))
  {
  }

  /**
   * Recommender and approver end up the same exactly if the approver has become the recommender since the row was
   * read.
   */
  lemma ApprovedAloneIff(s: State, id: Id, read: Appeal, admin: Id, coolOff: nat)
    requires Safe(s) && id in s.appeals
    ensures ApprovedAlone(LateApprove(s, id, read, admin, coolOff).appeals[id])
       <==> s.appeals[id].status.Recommended? && s.appeals[id].recommendedBy == Some(admin)
            && read.recommendedBy != Some(admin)
  {
    hide LedgerIntegrity.Inv, PaymentsOk, CallOk;
    assert AppealOk(s.appeals[id], DocumentsOf(s, id));
  }

  lemma RecommendedBy(s: State, admin: Id)
    requires s == Filed(START).(store := s.store)
    ensures Next(s, AdminDecide(1, admin, Recommend, 0)) ==
      s.(appeals := map[1 := Appeal(1, 5, AppealStatus.Recommended, Some(admin), None, None, 0, None)])
  {
  }

  lemma RecommendedAgain(s: State)
    requires s.appeals == map[1 := Appeal(1, 5, AppealStatus.Recommended, Some(2), None, None, 0, None)]
    requires s.documents == map[1 := 1]
    ensures Next(Next(Next(s, AdminDecide(1, 2, RequestInfo, 0)), Resubmit(1)), AdminDecide(1, 3, Recommend, 0)) ==
      s.(appeals := map[1 := Appeal(1, 5, AppealStatus.Recommended, Some(3), None, None, 0, None)])
  {
    var asked := Next(s, AdminDecide(1, 2, RequestInfo, 0));
    assert asked == s.(appeals := map[1 := Appeal(1, 5, InfoRequested, Some(2), None, None, 0, None)]);
    var resubmitted := Next(asked, Resubmit(1));
    assert resubmitted == s.(appeals := map[1 := Appeal(1, 5, Submitted, Some(2), None, None, 0, None)]);
  }

  /**
   * A run in which admin 3 reads a row that admin 2 recommended, recommends it anew after more information, and then
   * approves on the first read.
   */
  lemma ApprovedAloneIsReachable() returns (read: seq<Event>, events: seq<Event>)
    ensures read <= events && 1 in After(read).appeals && 1 in After(events).appeals
    ensures ApprovedAlone(LateApprove(After(events), 1, After(read).appeals[1], 3, 0).appeals[1])
  {
    hide Next, After;
    read := FiledRun();
    RecommendedBy(After(read), 2);
    read := OneMore(read, AdminDecide(1, 2, Recommend, 0));
    RecommendedAgain(After(read));
    events := OneMore(read, AdminDecide(1, 2, RequestInfo, 0));
    events := OneMore(events, Resubmit(1));
    events := OneMore(events, AdminDecide(1, 3, Recommend, 0));
  }
}
