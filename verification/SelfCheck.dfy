/** What the ledger's self-check finds: damage to balances, rows or log that a run of transactions cannot cause. */
module SelfCheck {
  import opened Totals
  import opened Ledger
  import opened LedgerIntegrity

  function LiveAmounts(holds: map<Id, Hold>): map<Id, int> {
    map t | t in holds && holds[t].status in {Held, Disputed} :: holds[t].amount
  }

  function UnfinishedAmounts(ws: map<Id, Withdrawal>): map<Id, int> {
    map id | id in ws && ws[id].status !in {Successful, Failed, Rejected} :: ws[id].amount
  }

  lemma LiveTotal(holds: map<Id, Hold>)
    ensures Total(HeldAmounts(holds)) == Total(LiveAmounts(holds))
  {
    TotalSkipsZeros(HeldAmounts(holds), LiveAmounts(holds));
  }

  lemma UnfinishedTotal(ws: map<Id, Withdrawal>)
    ensures Total(InFlightAmounts(ws)) == Total(UnfinishedAmounts(ws))
  {
    TotalSkipsZeros(InFlightAmounts(ws), UnfinishedAmounts(ws));
  }

  /** Whose balance has been changed. */
  function Changed(before: map<Id, WalletRow>, after: map<Id, WalletRow>): set<Id> {
    set u | u in before && u in after && before[u].balance != after[u].balance
  }

  /**
   * Tables that were changed behind the ledger's back pass exactly if no balance is different, the open holds come to
   * the same amount, and so do the unfinished withdrawals; and the wallets reported are the ones that are different.
   */
  lemma DamagedTablesPassIff(s: Store, t: Store)
    requires Inv(s) && t.entries == s.entries && t.wallets.Keys == s.wallets.Keys
    ensures Integrity(t).mismatched == Changed(s.wallets, t.wallets)
    ensures Integrity(t).Ok() <==>
      && (forall u :: u in s.wallets ==> t.wallets[u].balance == s.wallets[u].balance)
      && Total(LiveAmounts(t.holds)) == Total(LiveAmounts(s.holds))
      && Total(UnfinishedAmounts(t.withdrawals)) == Total(UnfinishedAmounts(s.withdrawals))
  {
    hide KeysAgree, RowsValid, OnAccount, OnWallets, AllEntries, OfTransaction, RunningBalances, HeldAmounts,
         InFlightAmounts, LiveAmounts, UnfinishedAmounts;
    LiveTotal(s.holds);
    LiveTotal(t.holds);
    UnfinishedTotal(s.withdrawals);
    UnfinishedTotal(t.withdrawals);
    if Changed(s.wallets, t.wallets) == {} {
      assert forall u :: u in s.wallets && t.wallets[u].balance != s.wallets[u].balance ==>
        u in Changed(s.wallets, t.wallets);
      assert Balances(t.wallets) == Balances(s.wallets);
    } else {
      var u :| u in Changed(s.wallets, t.wallets);
    }
  }

  lemma {:induction false} SumWithout(es: seq<Entry>, i: nat)
    requires i < |es|
    ensures AllEntries(es[..i] + es[i + 1..]) == AllEntries(es) - es[i].amount
  {
    var last := |es| - 1;
    if i == last {
      assert es[..i] + es[i + 1..] == es[..last];
    } else {
      var front := es[..last];
      SumWithout(front, i);
      assert (es[..i] + es[i + 1..])[..last - 1] == front[..i] + front[i + 1..];
    }
  }

  lemma {:induction false} SumWith(es: seq<Entry>, i: nat, e: Entry)
    requires i < |es|
    ensures AllEntries(es[i := e]) == AllEntries(es) - es[i].amount + e.amount
  {
    var last := |es| - 1;
    if i == last {
      assert es[i := e][..last] == es[..last];
    } else {
      SumWith(es[..last], i, e);
      assert es[i := e][..last] == es[..last][i := e];
    }
  }

  /** A line that is lost, or whose amount is not the one that was written, is found. */
  lemma DamagedLogIsFound(s: Store, i: nat, e: Entry)
    requires Inv(s) && i < |s.entries|
    ensures s.entries[i].amount != 0 ==>
      !Integrity(s.(entries := s.entries[..i] + s.entries[i + 1..])).Ok()
    ensures e.amount != s.entries[i].amount ==> !Integrity(s.(entries := s.entries[i := e])).Ok()
  {
    hide OnAccount, OnWallets, OfTransaction, RunningBalances, Pools, KeysAgree, RowsValid;
    assert Books(s.wallets, s.entries, s.keys);
    SumWithout(s.entries, i);
    SumWith(s.entries, i, e);
  }
}
