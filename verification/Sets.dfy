/** Finite sets: an element of a non-empty set, and the sizes of subsets and ranges. */
module Sets {

  ghost function Any<T>(s: set<T>): (x: T)
    requires |s| > 0
    ensures x in s
  {
    var x :| x in s;
    x
  }

  lemma {:induction false} SubsetSize<T>(a: set<T>, b: set<T>)
    requires a <= b
    ensures |a| <= |b|
  {
    if a != {} {
      var x :| x in a;
      SubsetSize(a - {x}, b - {x});
    }
  }

  ghost function Least(s: set<int>): (k: int)
    requires |s| > 0
    ensures k in s && forall n :: n in s ==> k <= n
    decreases |s|
  {
    var x := Any(s);
    if |s - {x}| == 0 then
      assert s == {x};
      x
    else
      var rest := Least(s - {x});
      assert forall n :: n in s ==> n == x || n in s - {x};
      if x <= rest then x else rest
  }

  function Range(lo: int, n: nat): (s: set<int>)
    ensures |s| == n && forall i :: i in s <==> lo <= i < lo + n
  {
    if n == 0 then {} else Range(lo, n - 1) + {lo + n - 1}
  }

  /** A number larger than all of a set. */
  ghost function Fresh(s: set<nat>): (k: nat)
    ensures forall n :: n in s ==> n < k
    decreases |s|
  {
    if |s| == 0 then 0
    else
      var x := Any(s);
      var rest := Fresh(s - {x});
      assert forall n :: n in s ==> n == x || n in s - {x};
      if x < rest then rest else x + 1
  }
}
