/**
 * The ledger repository as the object it is: tables updated in place, entry by entry, and
 * put back as they were when a transaction fails. Each method is proved to do to the tables
 * exactly what the matching function of module Ledger says.
 */
module LedgerStore {
  import opened Wrappers
  import opened Totals
  import opened Ledger
  import LedgerIntegrity

  /** Adds up a column, one row at a time. */
  method SumColumn<K(==)>(column: map<K, int>) returns (t: int)
    ensures t == Total(column)
  {
    t := 0;
    var rest := column;
    while rest != map[]
      invariant t + Total(rest) == Total(column)
      decreases |rest|
    {
      var k :| k in rest;
      TotalRemove(rest, k);
      t := t + rest[k];
      rest := rest - {k};
    }
  }

  class LedgerRepository {
    var wallets: map<Id, WalletRow>
    var entries: seq<Entry>
    var keys: set<Key>
    var topups: map<Id, Topup>
    var holds: map<Id, Hold>
    var withdrawals: map<Id, Withdrawal>

    function Snapshot(): Store
      reads this
    {
      Store(wallets, entries, keys, topups, holds, withdrawals)
    }

    constructor ()
      ensures Snapshot() == EMPTY
    {
      wallets, entries, keys, topups, holds, withdrawals := map[], [], {}, map[], map[], map[];
    }

    /** What the database does when a transaction returns an error. */
    method Rollback(saved: Store)
      modifies this
      ensures Snapshot() == saved
    {
      wallets, entries, keys := saved.wallets, saved.entries, saved.keys;
      topups, holds, withdrawals := saved.topups, saved.holds, saved.withdrawals;
    }

    /**
     * Writes one balanced transaction inside the caller's transaction. A duplicate key is found before
     * anything is written; any later failure leaves half-written entries for the caller to roll back.
     */
    method Post(key: Key, ps: seq<Posting>, locked: set<Id>) returns (e: Option<Error>)
      modifies this`wallets, this`entries, this`keys
      ensures match Ledger.Post(old(Snapshot()), key, ps, locked)
        case Success(s) => e.None? && Snapshot() == s
        case Failure(error) => e == Some(error)
      ensures e == Some(AlreadyProcessed) ==> Snapshot() == old(Snapshot())
    {
      var sum, i := 0, 0;
      while i < |ps|
        invariant 0 <= i <= |ps|
        invariant sum + PostingSum(ps[i..]) == PostingSum(ps)
      {
        sum, i := sum + ps[i].amount, i + 1;
      }
      if sum != 0 {
        return Some(Unbalanced);
      }
      if key in keys {
        return Some(AlreadyProcessed);
      }
      keys := keys + {key};
      i := 0;
      while i < |ps|
        invariant 0 <= i <= |ps|
        invariant ApplyPostings(wallets, entries, key, ps[i..], locked)
               == ApplyPostings(old(wallets), old(entries), key, ps, locked)
        invariant keys == old(keys) + {key}
      {
        var p := ps[i];
        var after := None;
        if p.account.WalletOf? {
          var u := p.account.owner;
          if u !in locked || u !in wallets {
            return Some(WalletNotLocked);
          }
          var balance := wallets[u].balance + p.amount;
          if balance < 0 {
            return Some(InsufficientFunds);
          }
          wallets := wallets[u := wallets[u].(balance := balance)];
          after := Some(balance);
        }
        entries := entries + [Entry(key, p.account, p.amount, after)];
        i := i + 1;
      }
      return None;
    }

    method EnsureWallet(user: Id)
      modifies this`wallets
      ensures Snapshot() == Ledger.EnsureWallet(old(Snapshot()), user)
      ensures wallets == if user in old(wallets) then old(wallets) else old(wallets)[user := WalletRow(0, NotFrozen)]
    {
      if user !in wallets {
        wallets := wallets[user := WalletRow(0, NotFrozen)];
      }
    }

    method SetWalletFrozen(user: Id, freeze: Freeze)
      modifies this`wallets
      ensures Snapshot() == SetFrozen(old(Snapshot()), user, freeze)
      ensures user in wallets && wallets[user].freeze == freeze
      ensures wallets[user].balance == if user in old(wallets) then old(wallets)[user].balance else 0
      ensures wallets - {user} == old(wallets) - {user}
    {
      EnsureWallet(user);
      wallets := wallets[user := wallets[user].(freeze := freeze)];
    }

    method CreateTopup(id: Id, user: Id, expiresAt: Option<int>) returns (o: Outcome)
      modifies this`topups
      ensures (Snapshot(), o) == Ledger.CreateTopup(old(Snapshot()), id, user, expiresAt)
      ensures o == if id in old(topups) then Refused(DuplicateRow) else Applied
      ensures o.Applied? ==> topups == old(topups)[id := Topup(user, Pending, expiresAt, 0, 0)]
    {
      if id in topups {
        return Refused(DuplicateRow);
      }
      topups := topups[id := Topup(user, Pending, expiresAt, 0, 0)];
      return Applied;
    }

    method ExpireStaleTopups(before: int)
      modifies this`topups
      ensures Snapshot() == ExpireTopups(old(Snapshot()), before)
      ensures topups.Keys == old(topups).Keys
      ensures forall id :: id in topups ==> var t := old(topups)[id];
        topups[id] == if t.status == Pending && t.expiresAt.Some? && before > t.expiresAt.value
          then t.(status := Expired) else t
    {
      var todo := topups.Keys;
      while todo != {}
        invariant todo <= topups.Keys == old(topups.Keys)
        invariant forall id :: id in topups ==>
          topups[id] == if id in todo then old(topups)[id] else ExpireTopup(old(topups)[id], before)
        decreases todo
      {
        var id :| id in todo;
        topups := topups[id := ExpireTopup(topups[id], before)];
        todo := todo - {id};
      }
      assert topups == ExpireTopups(old(Snapshot()), before).topups;
    }

    method CreditTopup(id: Id, paid: int, credit: int) returns (o: Outcome)
      modifies this
      ensures (Snapshot(), o) == Ledger.CreditTopup(old(Snapshot()), id, paid, credit)
    {
      if id !in topups {
        return Refused(NotFound);
      }
      var t := topups[id];
      if t.status.Credited? {
        return NoOp;
      }
      var saved := Snapshot();
      EnsureWallet(t.user);
      var fee := paid - credit;
      var e := Post(TopupKey(id), [Posting(ExternalIn, -paid), Posting(WalletOf(t.user), credit), Posting(Fees, fee)],
                    {t.user});
      if e == Some(AlreadyProcessed) {
        return Replayed;
      }
      if e.Some? {
        Rollback(saved);
        return Refused(e.value);
      }
      topups := topups[id := t.(status := Credited, paid := paid, credited := credit)];
      return Applied;
    }

    method HoldEscrow(trip: Id, payer: Id, payee: Id, driver: Id, amount: int) returns (o: Outcome)
      modifies this
      ensures (Snapshot(), o) == Ledger.HoldEscrow(old(Snapshot()), trip, payer, payee, driver, amount)
    {
      var saved := Snapshot();
      EnsureWallet(payer);
      var version := 1;
      if trip in holds {
        var existing := holds[trip];
        if !existing.status.Refunded? {
          if existing.driver == driver && existing.amount == amount && existing.payer == payer {
            return NoOp;
          }
          Rollback(saved);
          return Refused(HoldConflict);
        }
        version := existing.version + 1;
      }
      holds := holds[trip := Hold(payer, payee, driver, amount, Held, version, None)];
      var e := Post(HoldKey(trip, version), [Posting(WalletOf(payer), -amount), Posting(Escrow, amount)], {payer});
      if e.Some? {
        Rollback(saved);
        return Refused(e.value);
      }
      return Applied;
    }

    method MarkEscrowCompleted(trip: Id, releaseAfter: int)
      modifies this`holds
      ensures Snapshot() == Ledger.MarkEscrowCompleted(old(Snapshot()), trip, releaseAfter)
      ensures trip in old(holds) && old(holds)[trip].status == Held ==>
        holds == old(holds)[trip := old(holds)[trip].(releaseAfter := Some(releaseAfter))]
      ensures !(trip in old(holds) && old(holds)[trip].status == Held) ==> holds == old(holds)
    {
      if trip in holds && holds[trip].status.Held? {
        holds := holds[trip := holds[trip].(releaseAfter := Some(releaseAfter))];
      }
    }

    method DisputeEscrow(trip: Id) returns (o: Outcome)
      modifies this`holds
      ensures (Snapshot(), o) == Ledger.DisputeEscrow(old(Snapshot()), trip)
      ensures o.Applied? <==> trip in old(holds) && old(holds)[trip].status == Held
      ensures o.Applied? ==>
        holds == old(holds)[trip := old(holds)[trip].(status := Disputed, releaseAfter := None)]
      ensures !o.Applied? ==> o == Refused(InvalidTransition) && holds == old(holds)
    {
      if trip !in holds || !holds[trip].status.Held? {
        return Refused(InvalidTransition);
      }
      holds := holds[trip := holds[trip].(status := Disputed, releaseAfter := None)];
      return Applied;
    }

    method ReleaseEscrow(trip: Id) returns (o: Outcome)
      modifies this
      ensures (Snapshot(), o) == Ledger.ReleaseEscrow(old(Snapshot()), trip)
    {
      if trip !in holds {
        return Refused(NotFound);
      }
      var h := holds[trip];
      if !Live(h) {
        return NoOp;
      }
      var saved := Snapshot();
      EnsureWallet(h.payee);
      var e := Post(ReleaseKey(trip, h.version), [Posting(Escrow, -h.amount), Posting(WalletOf(h.payee), h.amount)],
                    {h.payee});
      if e == Some(AlreadyProcessed) {
        return Replayed;
      }
      if e.Some? {
        Rollback(saved);
        return Refused(e.value);
      }
      holds := holds[trip := h.(status := Released)];
      return Applied;
    }

    method RefundEscrow(trip: Id) returns (o: Outcome)
      modifies this
      ensures (Snapshot(), o) == Ledger.RefundEscrow(old(Snapshot()), trip)
    {
      if trip !in holds {
        return Refused(NotFound);
      }
      var h := holds[trip];
      if !Live(h) {
        return NoOp;
      }
      var saved := Snapshot();
      EnsureWallet(h.payer);
      var e := Post(RefundKey(trip, h.version), [Posting(Escrow, -h.amount), Posting(WalletOf(h.payer), h.amount)],
                    {h.payer});
      if e == Some(AlreadyProcessed) {
        return Replayed;
      }
      if e.Some? {
        Rollback(saved);
        return Refused(e.value);
      }
      holds := holds[trip := h.(status := Refunded)];
      return Applied;
    }

    method CreateWithdrawal(id: Id, w: Withdrawal, g: Guard) returns (o: Outcome)
      modifies this
      ensures (Snapshot(), o) == Ledger.CreateWithdrawal(old(Snapshot()), id, w, g)
    {
      if w.user !in wallets {
        return Refused(NotFound);
      }
      if !wallets[w.user].freeze.NotFrozen? && !w.kind.ByAppeal? {
        return Refused(WalletFrozen);
      }
      if g.cooldownCap > 0 && w.amount > g.cooldownCap {
        return Refused(OverCooldownCap);
      }
      if g.duplicateWindow > 0 && Repeats(withdrawals, w, g.now - g.duplicateWindow) != {} {
        return Refused(DuplicateWithdrawal);
      }
      if g.dailyLimit > 0 && w.kind.ByDriver? {
        var used := SumColumn(UsedSince(withdrawals, w.user, g.now - DAY));
        if used + w.amount > g.dailyLimit {
          return Refused(DailyLimitExceeded);
        }
      }
      if id in withdrawals || WithReference(withdrawals, w.reference) != {} {
        return Refused(DuplicateRow);
      }
      var saved := Snapshot();
      withdrawals := withdrawals[id := w];
      var e := Post(LockKey(id), [Posting(WalletOf(w.user), -w.amount), Posting(PayoutPending, w.amount)], {w.user});
      if e.Some? {
        Rollback(saved);
        return Refused(e.value);
      }
      return Applied;
    }

    method TransitionWithdrawal(id: Id, from: set<WithdrawalStatus>, to: WithdrawalStatus, flwKnown: bool)
      returns (o: Outcome)
      modifies this`withdrawals
      ensures (Snapshot(), o) == Ledger.TransitionWithdrawal(old(Snapshot()), id, from, to, flwKnown)
      ensures o.Applied? <==> id in old(withdrawals) && old(withdrawals)[id].status in from
      ensures o.Applied? ==> var w := old(withdrawals)[id];
        withdrawals == old(withdrawals)[id := w.(status := to, flwKnown := w.flwKnown || flwKnown,
                                                 attempts := w.attempts + if to == Processing then 1 else 0)]
      ensures !o.Applied? ==> o.NoOp? && withdrawals == old(withdrawals)
    {
      if id !in withdrawals || withdrawals[id].status !in from {
        return NoOp;
      }
      var w := withdrawals[id].(status := to);
      if to.Processing? {
        w := w.(attempts := w.attempts + 1);
      }
      if flwKnown {
        w := w.(flwKnown := true);
      }
      withdrawals := withdrawals[id := w];
      return Applied;
    }

    method FinalizeWithdrawalSuccess(id: Id, flwKnown: bool) returns (o: Outcome)
      modifies this
      ensures (Snapshot(), o) == FinalizeSuccess(old(Snapshot()), id, flwKnown)
    {
      if id !in withdrawals {
        return Refused(NotFound);
      }
      var w := withdrawals[id];
      if w.status.Successful? {
        return NoOp;
      }
      if w.status.Failed? || w.status.Rejected? || w.status.PendingReview? {
        return Refused(InvalidTransition);
      }
      var saved := Snapshot();
      var e := Post(PaidKey(id), [Posting(PayoutPending, -w.amount), Posting(ExternalOut, w.net), Posting(Fees, w.fee)],
                    {});
      if e == Some(AlreadyProcessed) {
        return Replayed;
      }
      if e.Some? {
        Rollback(saved);
        return Refused(e.value);
      }
      withdrawals := withdrawals[id := w.(status := Successful, flwKnown := w.flwKnown || flwKnown)];
      return Applied;
    }

    method FinalizeWithdrawalFailure(id: Id, final: WithdrawalStatus) returns (o: Outcome)
      modifies this
      ensures (Snapshot(), o) == FinalizeFailure(old(Snapshot()), id, final)
    {
      if !final.Failed? && !final.Rejected? {
        return Refused(BadFinalStatus);
      }
      if id !in withdrawals {
        return Refused(NotFound);
      }
      var w := withdrawals[id];
      if w.status.Failed? || w.status.Rejected? {
        return NoOp;
      }
      if w.status.Successful? {
        return Refused(InvalidTransition);
      }
      if w.user !in wallets {
        return Refused(NotFound);
      }
      var saved := Snapshot();
      var e := Post(ReturnKey(id), [Posting(PayoutPending, -w.amount), Posting(WalletOf(w.user), w.amount)], {w.user});
      if e == Some(AlreadyProcessed) {
        return Replayed;
      }
      if e.Some? {
        Rollback(saved);
        return Refused(e.value);
      }
      withdrawals := withdrawals[id := w.(status := final)];
      return Applied;
    }

    method SumEntries(a: Account) returns (t: int)
      ensures t == LedgerIntegrity.OnAccount(entries, a)
    {
      t := 0;
      for i := 0 to |entries|
        invariant t == LedgerIntegrity.OnAccount(entries[..i], a)
      {
        assert entries[..i + 1][..i] == entries[..i];
        if entries[i].account == a {
          t := t + entries[i].amount;
        }
      }
      assert entries[..|entries|] == entries;
    }

    /** The self-check, computed the way the report is: account sums over the log against sums over the tables. */
    method Integrity() returns (rep: LedgerIntegrity.Report)
      ensures rep == LedgerIntegrity.Integrity(Snapshot())
      ensures LedgerIntegrity.Inv(Snapshot()) ==> rep.Ok()
    {
      var all, onWallets := 0, 0;
      for i := 0 to |entries|
        invariant all == LedgerIntegrity.AllEntries(entries[..i])
        invariant onWallets == LedgerIntegrity.OnWallets(entries[..i])
      {
        assert entries[..i + 1][..i] == entries[..i];
        all := all + entries[i].amount;
        if entries[i].account.WalletOf? {
          onWallets := onWallets + entries[i].amount;
        }
      }
      assert entries[..|entries|] == entries;
      var escrow := SumEntries(Escrow);
      var pending := SumEntries(PayoutPending);
      var balances := SumColumn(LedgerIntegrity.Balances(wallets));
      var held := SumColumn(LedgerIntegrity.HeldAmounts(holds));
      var inFlight := SumColumn(LedgerIntegrity.InFlightAmounts(withdrawals));
      var drifted, todo := {}, wallets.Keys;
      while todo != {}
        invariant todo <= wallets.Keys
        invariant drifted == set u | u in wallets.Keys - todo
          && wallets[u].balance != LedgerIntegrity.OnAccount(entries, WalletOf(u))
        decreases todo
      {
        var u :| u in todo;
        var sum := SumEntries(WalletOf(u));
        if wallets[u].balance != sum {
          drifted := drifted + {u};
        }
        todo := todo - {u};
      }
      rep := LedgerIntegrity.Report(all, balances, onWallets, escrow, held, pending, inFlight, drifted);
    }
  }
}
