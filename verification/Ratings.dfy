/** Running rating averages, in exact hundredths of a star. */
module Ratings {

  /** math.Round(x * 100) / 100 for the non-negative average t / m. */
  function Rounded(t: nat, m: nat): nat
    requires m > 0
  {
    (2 * t + m) / (2 * m)
  }

  function IncrementalAverage(current: nat, count: nat, value: nat): nat {
    Rounded(current * count + 100 * value, count + 1)
  }

  /** The rated party's two columns; a new profile starts at 5.00 with no ratings. */
  class RatedProfile {
    var average: nat
    var count: nat
    ghost var ratings: seq<nat>

    /** The columns are those of the ratings given so far. */
    ghost predicate Valid()
      reads this
    {
      count == |ratings| && average == Average(500, ratings)
    }

    constructor ()
      ensures Valid() && ratings == []
    {
      average, count, ratings := 500, 0, [];
    }

    /** The average stays close to the true mean of all ratings, as long as they are one to five stars. */
    method Rate(value: nat)
      requires Valid()
      modifies this
      ensures Valid() && ratings == old(ratings) + [value]
      ensures Stars(ratings) ==> NearMean(count, average, Sum(ratings))
    {
      average := IncrementalAverage(average, count, value);
      count := count + 1;
      ratings := ratings + [value];
      AverageAppend(500, old(ratings), value);
      if Stars(ratings) {
        AverageIsNearMean(500, ratings);
      }
    }
  }

  /** The average after the given ratings, from any starting value. */
  function Average(start: nat, ratings: seq<nat>): nat {
    if ratings == [] then start
    else IncrementalAverage(Average(start, ratings[..|ratings| - 1]), |ratings| - 1, ratings[|ratings| - 1])
  }

  function Sum(ratings: seq<nat>): nat {
    if ratings == [] then 0 else Sum(ratings[..|ratings| - 1]) + ratings[|ratings| - 1]
  }

  predicate Stars(ratings: seq<nat>) {
    forall i :: 0 <= i < |ratings| ==> 1 <= ratings[i] <= 5
  }

  lemma RoundedNear(t: nat, m: nat)
    requires m > 0
    ensures -(m as int) <= 2 * (m * Rounded(t, m) - t) <= m
  {
    var q := Rounded(t, m);
    assert 2 * m * q <= 2 * t + m < 2 * m * q + 2 * m;
    assert 2 * m * q == 2 * (m * q);
  }

  lemma RoundedBetween(t: nat, m: nat, lo: nat, hi: nat)
    requires m > 0 && lo * m <= t <= hi * m
    ensures lo <= Rounded(t, m) <= hi
  {
    var q := Rounded(t, m);
    RoundedNear(t, m);
    assert 2 * (m * (q - lo)) == 2 * (m * q) - 2 * (lo * m);
    assert 2 * (m * (hi - q)) == 2 * (hi * m) - 2 * (m * q);
    Floor(m, q - lo);
    Floor(m, hi - q);
  }

  lemma Floor(m: nat, x: int)
    requires m > 0 && 2 * (m * x) >= -(m as int)
    ensures x >= 0
  {
    assert m * (x + 1) == m * x + m;
  }

  /** Bounds of an average a of n ratings with the given total. */
  predicate NearMean(n: int, a: int, total: int) {
    100 <= a <= 500 && -(n * (n + 1)) <= 4 * (n * a - 100 * total) <= n * (n + 1)
  }

  /** The rounding of one more step adds at most n/2 hundredths to n times the error. */
  lemma ErrorGrows(n: int, before: int, total: int, value: int, a: int)
    requires n >= 1 && -(n * (n - 1)) <= 4 * ((n - 1) * before - 100 * total) <= n * (n - 1)
    requires -n <= 2 * (n * a - ((n - 1) * before + 100 * value)) <= n
    ensures -(n * (n + 1)) <= 4 * (n * a - 100 * (total + value)) <= n * (n + 1)
  {
    assert n * (n + 1) == n * (n - 1) + 2 * n;
  }

  lemma OneMoreRating(count: nat, before: nat, total: int, value: nat)
    requires 1 <= value <= 5
    requires count > 0 ==> NearMean(count, before, total)
    requires count == 0 ==> total == 0
    ensures NearMean(count + 1, IncrementalAverage(before, count, value), total + value)
  {
    var n := count + 1;
    var t := before * count + 100 * value;
    var a := IncrementalAverage(before, count, value);
    Scaled(before, count);
    RoundedBetween(t, n, 100, 500);
    RoundedNear(t, n);
    ErrorGrows(n, before, total, value, a);
  }

  lemma Scaled(before: nat, k: nat)
    requires k > 0 ==> 100 <= before <= 500
    ensures 100 * k <= before * k <= 500 * k
  {
  }

  /**
   * After n ratings of 1 to 5 stars the average lies between 1.00 and 5.00 and differs from the true mean by at
   * most (n + 1) / 400 of a star, whatever it started from: |n * average - 100 * sum| <= n * (n + 1) / 4.
   */
  lemma {:induction false} AverageIsNearMean(start: nat, ratings: seq<nat>)
    requires ratings != [] && Stars(ratings)
    ensures NearMean(|ratings|, Average(start, ratings), Sum(ratings))
  {
    hide IncrementalAverage, NearMean;
    var front := ratings[..|ratings| - 1];
    if front != [] {
      AverageIsNearMean(start, front);
    }
    OneMoreRating(|front|, Average(start, front), Sum(front), ratings[|front|]);
  }

  lemma AverageAppend(start: nat, ratings: seq<nat>, value: nat)
    ensures Average(start, ratings + [value]) == IncrementalAverage(Average(start, ratings), |ratings|, value)
    ensures Sum(ratings + [value]) == Sum(ratings) + value
  {
    assert (ratings + [value])[..|ratings|] == ratings;
  }

  lemma {:induction false} AllOnes(start: nat, ratings: seq<nat>)
    requires ratings != [] && forall i :: 0 <= i < |ratings| ==> ratings[i] == 1
    ensures Average(start, ratings) == 100 && Sum(ratings) == |ratings|
  {
    hide IncrementalAverage;
    var front := ratings[..|ratings| - 1];
    if front != [] {
      AllOnes(start, front);
    }
    OneMoreOne(Average(start, front), |front|);
  }

  lemma OneMoreOne(before: nat, count: nat)
    requires count > 0 ==> before == 100
    ensures IncrementalAverage(before, count, 1) == 100
  {
    assert before * count == 100 * count;
    RoundedBetween(before * count + 100 * 1, count + 1, 100, 100);
  }

  // ---- the folded average and the rounded mean ----

  lemma QuotientAtLeast(x: int, m: nat, q: int)
    requires m > 0 && m * q <= x
    ensures q <= x / m
  {
    assert x < m * (x / m) + m;
    Scaling(m, x / m + 1, q);
  }

  lemma Scaling(m: nat, a: int, b: int)
    ensures a <= b ==> m * a <= m * b
  {
    if a <= b {
      assert m * (b - a) >= 0;
    }
  }

  /** Adding y leaves a quotient as it is exactly if the remainder has room for it. */
  lemma SameQuotientIff(x: int, y: int, m: nat)
    requires m > 0
    ensures (x + y) / m == x / m <==> 0 <= x % m + y < m
  {
    var q := x / m;
    assert x == m * q + x % m;
    if x % m + y < 0 {
      assert x + y < m * q;
    } else if x % m + y < m {
      assert m * q <= x + y < m * q + m;
      QuotientAtLeast(x + y, m, q);
      Scaling(m, q + 1, (x + y) / m);
    } else {
      assert x + y >= m * (q + 1);
      QuotientAtLeast(x + y, m, q + 1);
    }
  }

  /** How far n times the average of n ratings is from a hundred times their sum. */
  function Carried(start: nat, ratings: seq<nat>): int {
    |ratings| * Average(start, ratings) - 100 * Sum(ratings)
  }

  /** What room the next rounding leaves, in halves of a hundredth of n. */
  function Room(total: nat, n: nat): nat
    requires n > 0
  {
    (2 * total + n) % (2 * n)
  }

  /**
   * One more rating keeps the folded average equal to the rounded mean exactly if twice the error carried so far,
   * added to the remainder of the mean's own rounding, stays between 0 and 2 * n.
   */
  lemma NextAgreesIff(start: nat, ratings: seq<nat>, value: nat)
    ensures var (n, total) := (|ratings| + 1, 100 * (Sum(ratings) + value));
      Average(start, ratings + [value]) == Rounded(total, n) <==>
        0 <= Room(total, n) + 2 * Carried(start, ratings) < 2 * n
  {
    hide Average, Sum;
    var (n, total) := (|ratings| + 1, 100 * (Sum(ratings) + value));
    AverageAppend(start, ratings, value);
    var folded := Average(start, ratings) * |ratings| + 100 * value;
    assert folded == total + Carried(start, ratings);
    assert 2 * folded + n == (2 * total + n) + 2 * Carried(start, ratings);
    SameQuotientIff(2 * total + n, 2 * Carried(start, ratings), 2 * n);
  }

  /** So the folded average need not be the rounded mean: seven ratings with the mean 8/7 = 1.142... give 1.15. */
  lemma AverageCanDrift()
    ensures var ratings := [1, 1, 1, 1, 1] + [2] + [1];
      Average(500, ratings) == 115 && Rounded(100 * Sum(ratings), |ratings|) == 114
  {
    hide Average, Sum, IncrementalAverage, Rounded;
    var ones: seq<nat> := [1, 1, 1, 1, 1];
    AllOnes(500, ones);
    AverageAppend(500, ones, 2);
    AverageAppend(500, ones + [2], 1);
    TwoSteps();
  }

  lemma TwoSteps()
    ensures IncrementalAverage(100, 5, 2) == 117 && IncrementalAverage(117, 6, 1) == 115 && Rounded(800, 7) == 114
  {
  }

  /** The starting value is forgotten with the first rating. */
  lemma {:induction false} StartDoesNotMatter(start: nat, other: nat, ratings: seq<nat>)
    requires ratings != []
    ensures Average(start, ratings) == Average(other, ratings)
  {
    if |ratings| > 1 {
      StartDoesNotMatter(start, other, ratings[..|ratings| - 1]);
    }
  }
}
