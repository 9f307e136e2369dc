/** What batches and verification promise about a shift's trail. */
module TrackingLaws {
  import opened Sets
  import opened Tracking

  // ---- pages ----

  function LaterSeqs(trail: Trail, after: int): set<int> {
    set n | n in trail && n > after
  }

  lemma LaterShrinks(trail: Trail, after: int)
    requires HasLater(trail, after)
    ensures LaterSeqs(trail, NextSeq(trail, after)) == LaterSeqs(trail, after) - {NextSeq(trail, after)}
    ensures |LaterSeqs(trail, NextSeq(trail, after))| == |LaterSeqs(trail, after)| - 1
  {
  }

  lemma LaterFits(trail: Trail, after: int)
    ensures |LaterSeqs(trail, after)| <= |trail|
  {
    SubsetSize(LaterSeqs(trail, after), trail.Keys);
  }

  /** A page with room for everything left is the whole rest. */
  lemma {:induction false} LongPage(trail: Trail, after: int, limit: nat)
    requires limit >= |LaterSeqs(trail, after)|
    ensures Page(trail, after, limit) == Rest(trail, after)
    decreases limit
  {
    LaterFits(trail, after);
    LongPages(trail, after, limit, |trail|);
  }

  lemma {:induction false} LongPages(trail: Trail, after: int, k: nat, l: nat)
    requires k >= |LaterSeqs(trail, after)| && l >= |LaterSeqs(trail, after)|
    ensures Page(trail, after, k) == Page(trail, after, l)
    decreases |LaterSeqs(trail, after)|
  {
    if HasLater(trail, after) {
      LaterShrinks(trail, after);
      LongPages(trail, NextSeq(trail, after), k - 1, l - 1);
    }
  }

  /** A page is the beginning of the rest, the next page starts where it ends, and only the last page is empty. */
  lemma {:induction false} PageIsPrefix(trail: Trail, after: int, limit: nat)
    ensures var page := Page(trail, after, limit);
      var rest := Rest(trail, after);
      && |page| <= |rest| && page == rest[..|page|]
      && (page != [] ==> Rest(trail, page[|page| - 1].seqNo) == rest[|page|..])
      && (limit > 0 && page == [] ==> rest == [])
    decreases limit
  {
    var page := Page(trail, after, limit);
    if page != [] {
      var k := NextSeq(trail, after);
      LaterShrinks(trail, after);
      LaterFits(trail, after);
      PageIsPrefix(trail, k, limit - 1);
      LongPage(trail, k, |trail| - 1);
      assert Rest(trail, after) == [Point(k, trail[k])] + Rest(trail, k);
    }
  }

  // ---- sorting: in counter order, and stable ----

  predicate Ordered(s: seq<Sample>) {
    forall i, j :: 0 <= i < j < |s| ==> s[i].n <= s[j].n
  }

  /** The samples with counter n, in the order they stand in. */
  function WithCounter(s: seq<Sample>, n: int): seq<Sample> {
    if s == [] then []
    else WithCounter(s[..|s| - 1], n) + if s[|s| - 1].n == n then [s[|s| - 1]] else []
  }

  lemma WithCounterAppend(s: seq<Sample>, x: Sample, n: int)
    ensures WithCounter(s + [x], n) == WithCounter(s, n) + if x.n == n then [x] else []
  {
    assert (s + [x])[..|s|] == s;
  }

  lemma {:induction false} InsertKeepsAll(s: seq<Sample>, x: Sample)
    ensures multiset(Insert(s, x)) == multiset(s) + multiset{x}
  {
    if s != [] && s[|s| - 1].n > x.n {
      InsertKeepsAll(s[..|s| - 1], x);
      assert s == s[..|s| - 1] + [s[|s| - 1]];
    }
  }

  lemma {:induction false} InsertKeepsOrder(s: seq<Sample>, x: Sample)
    requires Ordered(s)
    ensures Ordered(Insert(s, x))
  {
    if s != [] && s[|s| - 1].n > x.n {
      var front, last := s[..|s| - 1], s[|s| - 1];
      InsertKeepsOrder(front, x);
      InsertKeepsAll(front, x);
      forall i | 0 <= i < |Insert(front, x)| ensures Insert(front, x)[i].n <= last.n {
        assert Insert(front, x)[i] in multiset(Insert(front, x));
      }
    }
  }

  lemma {:induction false} InsertIsStable(s: seq<Sample>, x: Sample, n: int)
    requires Ordered(s)
    ensures WithCounter(Insert(s, x), n) == WithCounter(s, n) + if x.n == n then [x] else []
  {
    if s == [] || s[|s| - 1].n <= x.n {
      WithCounterAppend(s, x, n);
    } else {
      var front, last := s[..|s| - 1], s[|s| - 1];
      InsertIsStable(front, x, n);
      WithCounterAppend(Insert(front, x), last, n);
    }
  }

  /** The sort is a permutation in counter order that keeps samples with equal counters in their order. */
  lemma {:induction false} SortedLaw(s: seq<Sample>)
    ensures Ordered(Sorted(s)) && multiset(Sorted(s)) == multiset(s)
    ensures forall n :: WithCounter(Sorted(s), n) == WithCounter(s, n)
  {
    if s != [] {
      var front, x := s[..|s| - 1], s[|s| - 1];
      SortedLaw(front);
      InsertKeepsOrder(Sorted(front), x);
      InsertKeepsAll(Sorted(front), x);
      assert s == front + [x];
      forall n ensures WithCounter(Sorted(s), n) == WithCounter(s, n) {
        InsertIsStable(Sorted(front), x, n);
      }
    }
  }

  lemma {:induction false} NoneWithCounter(s: seq<Sample>, n: int)
    requires forall i :: 0 <= i < |s| ==> s[i].n != n
    ensures WithCounter(s, n) == []
  {
    if s != [] {
      NoneWithCounter(s[..|s| - 1], n);
    }
  }

  lemma {:induction false} SomeWithCounter(s: seq<Sample>, i: nat)
    requires i < |s|
    ensures WithCounter(s, s[i].n) != []
  {
    if i < |s| - 1 {
      SomeWithCounter(s[..|s| - 1], i);
    }
  }

  lemma CutTail<T>(a: seq<T>, b: seq<T>, tail: seq<T>)
    requires a + tail == b + tail
    ensures a == b
  {
    assert |a| == |b|;
    assert a == (a + tail)[..|a|] == (b + tail)[..|b|] == b;
  }

  /** Only one sequence is in counter order and stable: any other correct sort would store the same trail. */
  lemma {:induction false} StableSortIsUnique(s: seq<Sample>, t: seq<Sample>)
    requires Ordered(s) && Ordered(t)
    requires forall n :: WithCounter(s, n) == WithCounter(t, n)
    ensures s == t
    decreases |s|
  {
    if s == [] || t == [] {
      if s != [] { SomeWithCounter(s, 0); }
      if t != [] { SomeWithCounter(t, 0); }
    } else {
      var x, y := s[|s| - 1], t[|t| - 1];
      LargestLast(s, t);
      LargestLast(t, s);
      assert WithCounter(s, x.n)[|WithCounter(s, x.n)| - 1] == x;
      assert WithCounter(t, x.n)[|WithCounter(t, x.n)| - 1] == y;
      var s', t' := s[..|s| - 1], t[..|t| - 1];
      assert s == s' + [x] && t == t' + [y];
      forall n ensures WithCounter(s', n) == WithCounter(t', n) {
        WithCounterAppend(s', x, n);
        WithCounterAppend(t', y, n);
        CutTail(WithCounter(s', n), WithCounter(t', n), if x.n == n then [x] else []);
      }
      StableSortIsUnique(s', t');
    }
  }

  /** The last counter of s occurs in t, so it is no larger than t's last. */
  lemma LargestLast(s: seq<Sample>, t: seq<Sample>)
    requires s != [] && t != [] && Ordered(t)
    requires forall n :: WithCounter(s, n) == WithCounter(t, n)
    ensures s[|s| - 1].n <= t[|t| - 1].n
  {
    var n := s[|s| - 1].n;
    SomeWithCounter(s, |s| - 1);
    if t[|t| - 1].n < n {
      NoneWithCounter(t, n);
    }
  }

  lemma SortedOfOrdered(s: seq<Sample>)
    requires Ordered(s)
    ensures Sorted(s) == s
  {
    SortedLaw(s);
    StableSortIsUnique(Sorted(s), s);
  }
}
