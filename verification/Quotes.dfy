/** What a user is quoted, and what the ledger then does with the quoted amounts. */
module Quotes {
  import opened Wrappers
  import opened Ledger
  import LedgerIntegrity
  import Money

  datatype Config = Config(topupMin: int, topupMax: int, topupFeeBps: int, payoutMin: int)

  datatype QuoteError = BelowMinimum | AboveMaximum | NotWholeNaira | FeeExceedsAmount

  datatype TopupQuote = TopupQuote(requested: int, fee: int, gross: int)
  datatype PayoutQuote = PayoutQuote(amount: int, fee: int, net: int)

  // ---- top-ups ----

  function ValidateTopupAmount(cfg: Config, a: int): Option<QuoteError> {
    if a < cfg.topupMin then Some(BelowMinimum)
    else if a > cfg.topupMax then Some(AboveMaximum)
    else if a % 100 != 0 then Some(NotWholeNaira)
    else None
  }

  /** The quoted payment is the least one that leaves the requested credit, and leaves exactly that. */
  method QuoteTopup(cfg: Config, amount: int) returns (r: Result<TopupQuote, QuoteError>)
    requires cfg.topupFeeBps < Money.WHOLE
    ensures r.Success? <==> cfg.topupMin <= amount <= cfg.topupMax && amount % 100 == 0
    ensures r.Success? ==> r.value.requested == amount && r.value.gross == amount + r.value.fee
                           && Money.IsLeastGross(r.value.gross, amount, cfg.topupFeeBps)
    ensures r.Success? && amount >= 0 ==> Money.NetAfterFee(r.value.gross, cfg.topupFeeBps) == amount
    ensures r == Failure(BelowMinimum) <==> amount < cfg.topupMin
    ensures r == Failure(AboveMaximum) <==> amount >= cfg.topupMin && amount > cfg.topupMax
    ensures r == Failure(NotWholeNaira) <==> cfg.topupMin <= amount <= cfg.topupMax && amount % 100 != 0
  {
    var problem := ValidateTopupAmount(cfg, amount);
    if problem.Some? {
      return Failure(problem.value);
    }
    var gross := Money.GrossUp(amount, cfg.topupFeeBps);
    Money.EstimateIsExact(amount, cfg.topupFeeBps);
    return Success(TopupQuote(amount, gross - amount, gross));
  }

  /** What the gateway says about a payment under the top-up's reference. */
  datatype Payment = Payment(successful: bool, sameReference: bool, inNaira: bool, amount: int)

  /** The webhook and every re-check end here; None: nothing to credit. */
  function CreditIfVerified(s: Store, id: Id, p: Payment, bps: int): (Store, Option<Outcome>) {
    var credit := Money.NetAfterFee(p.amount, bps);
    if !p.successful || !p.sameReference || !p.inNaira || p.amount <= 0 || credit <= 0 then (s, None)
    else
      var (s', outcome) := CreditTopup(s, id, p.amount, credit);
      (s', Some(outcome))
  }

  function BalanceOf(s: Store, user: Id): int {
    if user in s.wallets then s.wallets[user].balance else 0
  }

  function FreezeOf(s: Store, user: Id): Freeze {
    if user in s.wallets then s.wallets[user].freeze else NotFrozen
  }

  lemma CreditPosts(s: Store, key: Key, paid: int, credit: int, user: Id)
    requires key !in s.keys && user in s.wallets && s.wallets[user].balance + credit >= 0
    ensures var ps := [Posting(ExternalIn, -paid), Posting(WalletOf(user), credit), Posting(Fees, paid - credit)];
      var r := Post(s, key, ps, {user});
      r.Success? && r.value.wallets == s.wallets[user := s.wallets[user].(balance := s.wallets[user].balance + credit)]
  {
    var ps := [Posting(ExternalIn, -paid), Posting(WalletOf(user), credit), Posting(Fees, paid - credit)];
    var qs := ps[1..];
    var rs := qs[1..];
    assert qs == [ps[1], ps[2]] && rs == [ps[2]] && rs[1..] == [];
    LedgerIntegrity.SumOfThree(ps[0], ps[1], ps[2]);
    hide PostingSum;
    var balance := s.wallets[user].balance + credit;
    var es := s.entries + [Entry(key, ExternalIn, -paid, None)];
    var fs := es + [Entry(key, WalletOf(user), credit, Some(balance))];
    var ws := s.wallets[user := s.wallets[user].(balance := balance)];
    assert ApplyPostings(ws, fs, key, rs, {user}) == Success((ws, fs + [Entry(key, Fees, paid - credit, None)]));
    assert ApplyPostings(s.wallets, es, key, qs, {user}) == ApplyPostings(ws, fs, key, rs, {user});
    assert ApplyPostings(s.wallets, s.entries, key, ps, {user}) == ApplyPostings(s.wallets, es, key, qs, {user});
  }

  /** Crediting an uncredited top-up always goes through, and adds exactly the credit to its owner's wallet. */
  lemma CreditArrives(s: Store, id: Id, paid: int, credit: int)
    requires LedgerIntegrity.Inv(s) && id in s.topups && !s.topups[id].status.Credited? && credit >= 0
    ensures var (s', outcome) := CreditTopup(s, id, paid, credit);
      var user := s.topups[id].user;
      && outcome.Applied? && BalanceOf(s', user) == BalanceOf(s, user) + credit
      && (forall u :: u != user ==> BalanceOf(s', u) == BalanceOf(s, u))
      && s'.topups == s.topups[id := s.topups[id].(status := Credited, paid := paid, credited := credit)]
      && s'.holds == s.holds && s'.withdrawals == s.withdrawals && s'.wallets.Keys == s.wallets.Keys + {user}
      && s'.wallets[user].freeze == FreezeOf(s, user)
  {
    hide ApplyPostings, PostingSum, LedgerIntegrity.Pools, LedgerIntegrity.RowsValid;
    assert LedgerIntegrity.Books(s.wallets, s.entries, s.keys);
    assert LedgerIntegrity.KeysAgree(s.keys, s.topups, s.holds, s.withdrawals);
    assert TopupKey(id) !in s.keys;
    hide Post, LedgerIntegrity.Books, LedgerIntegrity.KeysAgree;
    CreditPosts(EnsureWallet(s, s.topups[id].user), TopupKey(id), paid, credit, s.topups[id].user);
    CreditKeepsRest(s, id, paid, credit);
  }

  lemma CreditKeepsRest(s: Store, id: Id, paid: int, credit: int)
    requires id in s.topups
    ensures var (s', outcome) := CreditTopup(s, id, paid, credit);
      outcome.Applied? ==>
        && s'.topups == s.topups[id := s.topups[id].(status := Credited, paid := paid, credited := credit)]
        && s'.holds == s.holds && s'.withdrawals == s.withdrawals
  {
    hide ApplyPostings, PostingSum;
  }

  /** A wallet can be topped up at any time: a new top-up, credited in full, adds its amount to this wallet only. */
  lemma TopupArrives(s: Store, id: Id, user: Id, amount: nat)
    requires LedgerIntegrity.Inv(s) && id !in s.topups
    ensures var s' := CreditTopup(CreateTopup(s, id, user, None).0, id, amount, amount).0;
      && LedgerIntegrity.Inv(s') && s'.holds == s.holds && s'.withdrawals == s.withdrawals
      && s'.wallets.Keys == s.wallets.Keys + {user} && s'.topups.Keys == s.topups.Keys + {id}
      && BalanceOf(s', user) == BalanceOf(s, user) + amount >= amount && s'.wallets[user].freeze == FreezeOf(s, user)
      && (forall u :: u != user ==> BalanceOf(s', u) == BalanceOf(s, u))
  {
    hide LedgerIntegrity.Inv, CreditTopup;
    var created := CreateTopup(s, id, user, None).0;
    LedgerIntegrity.CreateTopupKeepsInv(s, id, user, None);
    LedgerIntegrity.CreditTopupKeepsInv(created, id, amount, amount);
    CreditArrives(created, id, amount, amount);
    BalanceNotNegative(s, user);
  }

  lemma BalanceNotNegative(s: Store, user: Id)
    requires LedgerIntegrity.Inv(s)
    ensures BalanceOf(s, user) >= 0
  {
    assert LedgerIntegrity.Books(s.wallets, s.entries, s.keys);
  }

  /**
   * A payment for a top-up that has not been credited is credited if and only if it was successful, under the same
   * reference, in naira, and leaves something after the fee; the owner's balance then grows by exactly what the fee,
   * rounded up, leaves. In every other case nothing happens.
   */
  lemma PaymentIsCreditedIff(s: Store, id: Id, p: Payment, bps: int)
    requires LedgerIntegrity.Inv(s) && id in s.topups && !s.topups[id].status.Credited?
    ensures var (s', outcome) := CreditIfVerified(s, id, p, bps);
      var net := if bps <= 0 then p.amount else p.amount * (10_000 - bps) / 10_000;
      var user := s.topups[id].user;
      if p.successful && p.sameReference && p.inNaira && p.amount > 0 && net > 0 then
        && outcome == Some(Applied) && BalanceOf(s', user) == BalanceOf(s, user) + net
        && (forall u :: u != user ==> BalanceOf(s', u) == BalanceOf(s, u))
        && s'.topups == s.topups[id := s.topups[id].(status := Credited, paid := p.amount, credited := net)]
        && s'.holds == s.holds && s'.withdrawals == s.withdrawals
      else outcome == None && s' == s
  {
    hide CreditTopup, LedgerIntegrity.Inv;
    var net := Money.NetAfterFee(p.amount, bps);
    if p.amount > 0 {
      if bps > 0 {
        Money.NetIsFloor(p.amount, bps);
      }
      if net > 0 {
        CreditArrives(s, id, p.amount, net);
      }
    }
  }

  /** A good payment of the quoted gross credits exactly the amount that was asked for, any other one nothing. */
  lemma PaidQuoteCreditsTheRequest(s: Store, id: Id, cfg: Config, amount: int, p: Payment)
    requires LedgerIntegrity.Inv(s) && id in s.topups && !s.topups[id].status.Credited?
    requires 0 <= cfg.topupFeeBps < Money.WHOLE && amount > 0 && p.amount == Money.Estimate(amount, cfg.topupFeeBps)
    ensures var (s', outcome) := CreditIfVerified(s, id, p, cfg.topupFeeBps);
      if p.successful && p.sameReference && p.inNaira then
        outcome == Some(Applied) && BalanceOf(s', s.topups[id].user) == BalanceOf(s, s.topups[id].user) + amount
      else outcome == None && s' == s
  {
    hide CreditTopup, LedgerIntegrity.Inv;
    Money.EstimateIsExact(amount, cfg.topupFeeBps);
    if p.successful && p.sameReference && p.inNaira {
      CreditArrives(s, id, p.amount, amount);
    }
  }

  /** However often and from wherever a payment is reported, a credited top-up is not credited again. */
  lemma CreditedOnce(s: Store, id: Id, p: Payment, bps: int)
    requires id in s.topups && s.topups[id].status.Credited?
    ensures CreditIfVerified(s, id, p, bps).0 == s
  {
  }

  // ---- withdrawals ----

  function QuoteWithdrawal(cfg: Config, amount: int): (r: Result<PayoutQuote, QuoteError>)
    ensures r.Success? <==> amount >= cfg.payoutMin && amount % 100 == 0 && amount > Money.TransferFee(amount)
    ensures r.Success? ==>
      r.value.amount == amount == r.value.fee + r.value.net && r.value.net > 0 && r.value.fee >= 1000
  {
    if amount < cfg.payoutMin then Failure(BelowMinimum)
    else if amount % 100 != 0 then Failure(NotWholeNaira)
    else
      var fee := Money.TransferFee(amount);
      if amount <= fee then Failure(FeeExceedsAmount) else Success(PayoutQuote(amount, fee, amount - fee))
  }
}
