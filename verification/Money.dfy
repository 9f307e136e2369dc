/** Kobo arithmetic of fees. Amounts are whole kobo, rates are basis points. */
module Money {

  const WHOLE := 10_000

  function CollectionFee(paid: int, bps: int): int {
    if paid <= 0 || bps <= 0 then 0 else (paid * bps + 9999) / WHOLE
  }

  function NetAfterFee(paid: int, bps: int): int {
    paid - CollectionFee(paid, bps)
  }

  function TransferFee(amount: int): (fee: int)
    ensures 1000 <= fee <= 5000
  {
    if amount <= 500_000 then 1000 else if amount <= 5_000_000 then 2500 else 5000
  }

  /**
   * Withdrawing more pays out more, unless the larger amount is just over 5,000 or 50,000 naira, where the fee goes up,
   * and the smaller one is not.
   */
  lemma MorePaysMoreIff(a: int, b: int)
    requires a < b
    ensures a - TransferFee(a) < b - TransferFee(b) <==>
            !(a <= 500_000 < b <= a + 1500) && !(a <= 5_000_000 < b <= a + 2500)
  {
  }

  // ---- the least payment that leaves a given net ----

  predicate Covers(paid: int, net: int, bps: int) {
    NetAfterFee(paid, bps) >= net
  }

  /** The least non-negative payment whose net reaches `net`. */
  ghost predicate IsLeastGross(g: int, net: int, bps: int) {
    g >= 0 && Covers(g, net, bps) && forall h :: 0 <= h < g ==> !Covers(h, net, bps)
  }

  /** The first estimate of GrossUp. */
  function Estimate(net: int, bps: int): int
    requires bps < WHOLE
  {
    if net <= 0 then 0 else if bps <= 0 then net else (net * WHOLE + (WHOLE - bps) - 1) / (WHOLE - bps)
  }

  lemma FloorOf(a: int, q: int)
    requires q * WHOLE <= a < q * WHOLE + WHOLE
    ensures a / WHOLE == q
  {
  }

  /** Rounding the fee up is rounding the net down. */
  lemma NetIsFloor(paid: int, bps: int)
    requires paid >= 0 && 0 <= bps
    ensures NetAfterFee(paid, bps) == paid * (WHOLE - bps) / WHOLE
  {
    var fee := (paid * bps + 9999) / WHOLE;
    assert fee * WHOLE <= paid * bps + 9999 < fee * WHOLE + WHOLE;
    assert paid * (WHOLE - bps) == paid * WHOLE - paid * bps;
    FloorOf(paid * (WHOLE - bps), paid - fee);
    if paid == 0 || bps == 0 {
      assert paid * bps == 0;
    }
  }

  /** A payment covers the net exactly when its remaining share does. */
  lemma CoversMeans(paid: int, net: int, bps: int)
    requires paid >= 0 && 0 <= bps < WHOLE
    ensures Covers(paid, net, bps) <==> paid * (WHOLE - bps) >= net * WHOLE
  {
    NetIsFloor(paid, bps);
    var x := paid * (WHOLE - bps);
    assert x / WHOLE >= net <==> x >= net * WHOLE;
  }

  lemma SmallerTimes(h: int, g: int, d: int)
    requires h <= g && d > 0
    ensures h * d <= g * d
  {
  }

  lemma NotNegative(x: int, d: int)
    requires x * d >= 0 && d > 0
    ensures x >= 0
  {
  }

  lemma EstimateBounds(net: int, bps: int)
    requires net > 0 && 0 < bps < WHOLE
    ensures var d := WHOLE - bps;
      var g := Estimate(net, bps);
      net * WHOLE <= g * d < net * WHOLE + d && g >= net
  {
    var d := WHOLE - bps;
    var g := Estimate(net, bps);
    assert g * d <= net * WHOLE + d - 1 < g * d + d;
    SmallerTimes(d, WHOLE, net);
    assert (g - net) * d == g * d - net * d;
    NotNegative(g - net, d);
  }

  /** The closed form is already minimal, and what it leaves is exactly the requested net. */
  lemma EstimateIsExact(net: int, bps: int)
    requires bps < WHOLE
    ensures IsLeastGross(Estimate(net, bps), net, bps)
    ensures net >= 0 ==> NetAfterFee(Estimate(net, bps), bps) == net
  {
    var g, d := Estimate(net, bps), WHOLE - bps;
    if net > 0 && bps > 0 {
      hide Covers, Estimate;
      EstimateBounds(net, bps);
      CoversMeans(g, net, bps);
      NetIsFloor(g, bps);
      FloorOf(g * d, net);
      forall h | 0 <= h < g ensures !Covers(h, net, bps) {
        TooLittle(h, g, net, bps);
      }
    }
  }

  lemma TooLittle(h: int, g: int, net: int, bps: int)
    requires 0 <= h < g && 0 <= bps < WHOLE && g * (WHOLE - bps) < net * WHOLE + (WHOLE - bps)
    ensures !Covers(h, net, bps)
  {
    CoversMeans(h, net, bps);
    SmallerTimes(h, g - 1, WHOLE - bps);
    assert (g - 1) * (WHOLE - bps) == g * (WHOLE - bps) - (WHOLE - bps);
  }

  lemma LeastIsUnique(g: int, h: int, net: int, bps: int)
    requires IsLeastGross(g, net, bps) && IsLeastGross(h, net, bps)
    ensures g == h
  {
  }

  /** Once a payment covers the net, every larger one does. */
  lemma CoversGrows(paid: int, more: int, net: int, bps: int)
    requires 0 <= paid <= more && 0 <= bps < WHOLE
    requires Covers(paid, net, bps)
    ensures Covers(more, net, bps)
  {
    CoversMeans(paid, net, bps);
    CoversMeans(more, net, bps);
    SmallerTimes(paid, more, WHOLE - bps);
  }

  /** The first loop: walks down to the least payment that is at least the net and covers it. */
  method WalkDown(start: int, net: int, bps: int) returns (g: int)
    requires net > 0 && 0 < bps < WHOLE && start >= net && Covers(start, net, bps)
    ensures IsLeastGross(g, net, bps)
  {
    g := start;
    while g > net && NetAfterFee(g - 1, bps) >= net
      invariant g >= net && Covers(g, net, bps)
    {
      g := g - 1;
    }
    forall h | 0 <= h < g ensures !Covers(h, net, bps) {
      if g > net {
        if Covers(h, net, bps) {
          CoversGrows(h, g - 1, net, bps);
        }
      } else {
        CoversMeans(h, net, bps);
        SmallerTimes(h, net - 1, WHOLE - bps);
        SmallerTimes(WHOLE - bps, WHOLE, net);
      }
    }
  }

  /** The second loop: walks up from a payment below which nothing covers the net. */
  method WalkUp(start: int, net: int, bps: int, ghost enough: int) returns (g: int)
    requires 0 <= start <= enough && Covers(enough, net, bps)
    requires forall h :: 0 <= h < start ==> !Covers(h, net, bps)
    ensures IsLeastGross(g, net, bps)
  {
    g := start;
    while NetAfterFee(g, bps) < net
      invariant 0 <= g <= enough
      invariant forall h :: 0 <= h < g ==> !Covers(h, net, bps)
      decreases enough - g
    {
      g := g + 1;
    }
  }

  /** The two loops find what the closed form already is, so a quoted payment is never a kobo too high or too low. */
  method GrossUp(net: int, bps: int) returns (g: int)
    requires bps < WHOLE
    ensures IsLeastGross(g, net, bps)
    ensures g == Estimate(net, bps)
  {
    EstimateIsExact(net, bps);
    if net <= 0 {
      return 0;
    }
    if bps <= 0 {
      return net;
    }
    g := (net * WHOLE + (WHOLE - bps) - 1) / (WHOLE - bps);
    EstimateBounds(net, bps);
    g := WalkDown(g, net, bps);
    g := WalkUp(g, net, bps, g);
    LeastIsUnique(g, Estimate(net, bps), net, bps);
  }

  const MAX_INT64 := 0x7FFF_FFFF_FFFF_FFFF

  lemma TwiceIsEnough(net: int, e: int, d: int)
    requires net > 0 && e >= 2 * net + 2 && d >= 5000
    ensures e * d >= net * WHOLE + d
  {
    SmallerTimes(2 * net + 2, e, d);
    assert (2 * net + 2) * d == 2 * net * d + 2 * d;
    SmallerTimes(5000, d, 2 * net);
  }

  /** For a top-up of at most 10^14 kobo at no more than 50% nothing GrossUp computes leaves the 64-bit range. */
  lemma NothingOverflows(net: int, bps: int, g: int)
    requires 0 <= net <= 100_000_000_000_000 && 0 <= bps <= 5000
    requires -1 <= g <= Estimate(net, bps)
    ensures 0 <= net * WHOLE + (WHOLE - bps) - 1 <= MAX_INT64
    ensures Estimate(net, bps) <= 2 * net + 1
    ensures -MAX_INT64 <= g * bps + 9999 <= MAX_INT64
  {
    if net > 0 && bps > 0 {
      EstimateBounds(net, bps);
      var e, d := Estimate(net, bps), WHOLE - bps;
      if e > 2 * net + 1 {
        TwiceIsEnough(net, e, d);
      }
    }
    var top := Estimate(net, bps);
    assert top <= 2 * net + 1;
    SmallerTimes(bps, 5000, 2 * net + 1);
    if g >= 0 && bps > 0 {
      SmallerTimes(g, 2 * net + 1, bps);
    }
  }
}
