/** The escrow service's batch of automatic releases, run without another call in between. */
module EscrowService {
  import opened Sets
  import opened Ledger
  import LedgerIntegrity
  import LedgerOutcomes
  import LedgerStore
  import MatchingSafety
  import Quotes

  predicate IsDue(h: Hold, now: int) {
    h.status.Held? && h.releaseAfter.Some? && h.releaseAfter.value <= now
  }

  function DueTrips(holds: map<Id, Hold>, now: int): set<Id> {
    set t | t in holds && IsDue(holds[t], now)
  }

  /** The first `limit` due holds, the longest waiting ones first. */
  ghost predicate IsScan(holds: map<Id, Hold>, now: int, limit: nat, rows: seq<Id>) {
    && |rows| <= limit && (|rows| < limit ==> forall t :: t in DueTrips(holds, now) ==> t in rows)
    && (forall i :: 0 <= i < |rows| ==> rows[i] in DueTrips(holds, now))
    && (forall i, j :: 0 <= i < j < |rows| ==> rows[i] != rows[j])
    && (forall i, t :: 0 <= i < |rows| && t in DueTrips(holds, now) && t !in rows ==>
          holds[rows[i]].releaseAfter.value <= holds[t].releaseAfter.value)
  }

  lemma {:induction false} EarliestExists(holds: map<Id, Hold>, now: int, trips: set<Id>)
    requires trips != {} && trips <= DueTrips(holds, now)
    ensures exists t :: t in trips && Earliest(holds, now, trips, t)
  {
    var x := Any(trips);
    if trips == {x} {
      assert Earliest(holds, now, trips, x);
    } else {
      EarliestExists(holds, now, trips - {x});
      var y :| y in trips - {x} && Earliest(holds, now, trips - {x}, y);
      var z := if holds[x].releaseAfter.value <= holds[y].releaseAfter.value then x else y;
      assert Earliest(holds, now, trips, z) by {
        assert forall u :: u in trips ==> u == x || u in trips - {x};
      }
    }
  }

  predicate Earliest(holds: map<Id, Hold>, now: int, trips: set<Id>, t: Id)
    requires trips <= DueTrips(holds, now) && t in trips
  {
    forall u :: u in trips ==> holds[t].releaseAfter.value <= holds[u].releaseAfter.value
  }

  /** What releasing the scanned holds leaves. */
  function AllReleased(holds: map<Id, Hold>, rows: seq<Id>): map<Id, Hold> {
    map t | t in holds :: if t in rows then holds[t].(status := Released) else holds[t]
  }

  /** What a user gets from these holds as their driver. */
  function Earned(holds: map<Id, Hold>, rows: seq<Id>, user: Id): int {
    if rows == [] then 0
    else
      var t := rows[|rows| - 1];
      Earned(holds, rows[..|rows| - 1], user) + if t in holds && holds[t].payee == user then holds[t].amount else 0
  }

  /** Every user has got their earnings, and nothing else. */
  ghost predicate ArePaid(s: Store, s': Store, rows: seq<Id>) {
    forall u :: Quotes.BalanceOf(s', u) == Quotes.BalanceOf(s, u) + Earned(s.holds, rows, u)
  }

  lemma OneMorePaid(s: Store, before: Store, after: Store, rows: seq<Id>, i: nat)
    requires i < |rows| && ArePaid(s, before, rows[..i])
    requires rows[i] in s.holds && LedgerOutcomes.OnlyBalance(before, after, s.holds[rows[i]].payee,
                                                              s.holds[rows[i]].amount)
    ensures ArePaid(s, after, rows[..i + 1])
  {
    assert rows[..i + 1][..i] == rows[..i];
  }

  /** One release takes the batch a hold further. */
  lemma ReleasesOne(s: Store, before: Store, rows: seq<Id>, i: nat)
    requires LedgerIntegrity.Inv(before) && i < |rows| && rows[i] in s.holds && s.holds[rows[i]].status.Held?
    requires forall j :: 0 <= j < i ==> rows[j] != rows[i]
    requires s.holds[rows[i]].amount >= 1
    requires before.holds == AllReleased(s.holds, rows[..i]) && ArePaid(s, before, rows[..i])
    ensures var after := ReleaseEscrow(before, rows[i]).0;
      && LedgerIntegrity.Inv(after) && after.holds == AllReleased(s.holds, rows[..i + 1])
      && ArePaid(s, after, rows[..i + 1])
  {
    hide LedgerIntegrity.Inv, SettleEscrow, ArePaid, LedgerOutcomes.OnlyBalance;
    assert rows[i] !in rows[..i];
    assert before.holds[rows[i]] == s.holds[rows[i]];
    MatchingSafety.Settles(before, rows[i], true);
    LedgerOutcomes.HoldIsSettledIff(before, rows[i], true);
    var after := ReleaseEscrow(before, rows[i]).0;
    OneMoreReleased(s.holds, rows, i, after.holds);
    OneMorePaid(s, before, after, rows, i);
  }

  class EscrowService {
    const ledger: LedgerStore.LedgerRepository

    constructor (ledger: LedgerStore.LedgerRepository)
      ensures this.ledger == ledger
    {
      this.ledger := ledger;
    }

    method DueEscrows(now: int, limit: nat) returns (rows: seq<Id>)
      ensures IsScan(ledger.holds, now, limit, rows)
    {
      var holds := ledger.holds;
      rows := [];
      var rest := DueTrips(holds, now);
      while rest != {} && |rows| < limit
        invariant |rows| <= limit && rest <= DueTrips(holds, now)
        invariant forall t :: t in DueTrips(holds, now) <==> t in rest || t in rows
        invariant forall t :: t in rest ==> t !in rows
        invariant forall i :: 0 <= i < |rows| ==> rows[i] in DueTrips(holds, now)
        invariant forall i, j :: 0 <= i < j < |rows| ==> rows[i] != rows[j]
        invariant forall i, t :: 0 <= i < |rows| && t in rest ==>
          holds[rows[i]].releaseAfter.value <= holds[t].releaseAfter.value
        decreases rest
      {
        EarliestExists(holds, now, rest);
        var t :| t in rest && Earliest(holds, now, rest, t);
        rows := rows + [t];
        rest := rest - {t};
      }
    }

    /**
     * Every scanned hold is paid to its driver and no other hold changes: a disputed one is never paid, and when
     * fewer than the limit were due, nothing due is left.
     */
    method ReleaseDue(now: int, limit: nat) returns (rows: seq<Id>)
      requires LedgerIntegrity.Inv(ledger.Snapshot())
      requires forall t :: t in ledger.holds ==> ledger.holds[t].amount >= 1
      modifies ledger
      ensures IsScan(old(ledger.holds), now, limit, rows)
      ensures ledger.holds == AllReleased(old(ledger.holds), rows)
      ensures LedgerIntegrity.Inv(ledger.Snapshot())
      ensures ArePaid(old(ledger.Snapshot()), ledger.Snapshot(), rows)
      ensures forall t :: t in old(ledger.holds) && old(ledger.holds)[t].status.Disputed? ==>
        ledger.holds[t] == old(ledger.holds)[t]
      ensures |rows| < limit ==> DueTrips(ledger.holds, now) == {}
    {
      rows := DueEscrows(now, limit);
      ghost var start := ledger.Snapshot();
      assert ArePaid(start, start, rows[..0]);
      var i := 0;
      while i < |rows|
        invariant 0 <= i <= |rows|
        invariant LedgerIntegrity.Inv(ledger.Snapshot())
        invariant ledger.holds == AllReleased(start.holds, rows[..i])
        invariant ArePaid(start, ledger.Snapshot(), rows[..i])
      {
        hide LedgerIntegrity.Inv, SettleEscrow, ArePaid, AllReleased;
        ReleasesOne(start, ledger.Snapshot(), rows, i);
        var o := ledger.ReleaseEscrow(rows[i]);
        i := i + 1;
      }
      assert rows[..|rows|] == rows;
    }
  }

  lemma OneMoreReleased(was: map<Id, Hold>, rows: seq<Id>, i: nat, holds: map<Id, Hold>)
    requires i < |rows| && rows[i] in was && was[rows[i]].status.Held?
    requires forall j :: 0 <= j < i ==> rows[j] != rows[i]
    requires var before := AllReleased(was, rows[..i]);
      && holds.Keys == before.Keys
      && MatchingSafety.Lookup(holds, rows[i]) ==
        MatchingSafety.Settled(MatchingSafety.Lookup(before, rows[i]), Released)
      && forall u :: u != rows[i] ==> MatchingSafety.Lookup(holds, u) == MatchingSafety.Lookup(before, u)
    ensures holds == AllReleased(was, rows[..i + 1])
  {
    assert rows[..i + 1] == rows[..i] + [rows[i]];
    forall t | t in was ensures t in holds && holds[t] == AllReleased(was, rows[..i + 1])[t] {
      if t != rows[i] {
        assert MatchingSafety.Lookup(holds, t) == MatchingSafety.Lookup(AllReleased(was, rows[..i]), t);
      }
    }
  }
}
