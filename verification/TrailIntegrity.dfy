/** Every ingested trail verifies, and every change to a stored trail is found. */
module TrailIntegrity {
  import opened Wrappers
  import opened GpsChain
  import opened Tracking
  import opened TrackingLaws

  // ---- what a run of calls stores ----

  datatype Call = Upload(driver: nat, samples: seq<Sample>, now: int) | End(at: int)

  function Step(mac: string -> string, b: Book, c: Call): Book {
    match c
    case Upload(driver, samples, now) => Ingest(mac, b, driver, samples, now).0
    case End(at) => if b.shift.endedAt.None? then b.(shift := b.shift.(endedAt := Some(at))) else b
  }

  function After(mac: string -> string, start: Book, calls: seq<Call>): Book {
    if calls == [] then start else Step(mac, After(mac, start, calls[..|calls| - 1]), calls[|calls| - 1])
  }

  /** The samples that are kept: those whose counter has not been passed. */
  function Kept(last: int, items: seq<Sample>): seq<Sample>
    decreases |items|
  {
    if items == [] then []
    else if items[0].n <= last then Kept(last, items[1..])
    else [items[0]] + Kept(items[0].n, items[1..])
  }

  function MaxCounter(last: int, items: seq<Sample>): (m: int)
    ensures m >= last
    ensures forall i :: 0 <= i < |items| ==> items[i].n <= m
    ensures m == last || exists i :: 0 <= i < |items| && items[i].n == m
    decreases |items|
  {
    if items == [] then last
    else
      var m := MaxCounter(if items[0].n <= last then last else items[0].n, items[1..]);
      assert forall i :: 1 <= i < |items| ==> items[i] == items[1..][i - 1];
      m
  }

  function Mocks(kept: seq<Sample>): nat {
    if kept == [] then 0 else Mocks(kept[..|kept| - 1]) + if kept[|kept| - 1].mock then 1 else 0
  }

  function HashAt(trail: Trail, k: nat): string {
    if k == 0 then GENESIS_HASH else if k in trail then trail[k].hash else ""
  }

  /**
   * Point k of the trail is sample k of `kept`, signed over its fields and the hash before it. The time is signed in
   * the milliseconds that have passed and stored in the nearest millisecond.
   */
  predicate PointIntact(mac: string -> string, shift: string, trail: Trail, kept: seq<Sample>, k: int)
    requires 1 <= k <= |kept|
  {
    var x := kept[k - 1];
    && k in trail && trail[k] == Row(x.lat, x.lng, Stored(x.at), x.mock, trail[k].hash)
    && trail[k].hash == PointHash(mac, Message(HashAt(trail, k - 1), shift, k, x.lat, x.lng, Millis(x.at), x.mock))
  }

  /** The book stores exactly `kept`, numbered from 1 without gaps and chained, and its counters say so. */
  ghost predicate Intact(mac: string -> string, b: Book, kept: seq<Sample>) {
    && (forall k :: k in b.trail <==> 1 <= k <= |kept|)
    && (forall k :: 1 <= k <= |kept| ==> PointIntact(mac, b.shift.id, b.trail, kept, k))
    && b.shift.lastSeq == b.shift.points == |kept| && b.shift.mocks == Mocks(kept)
    && b.shift.lastHash == HashAt(b.trail, |kept|) && IsLatest(b.shift.lastPointAt, kept)
  }

  /** The latest time of the kept samples, whatever order they came in. */
  predicate IsLatest(at: Option<int>, kept: seq<Sample>) {
    match at
    case None => kept == []
    case Some(t) => (exists i :: 0 <= i < |kept| && kept[i].at == t) && forall i :: 0 <= i < |kept| ==> kept[i].at <= t
  }

  lemma LatestAppend(at: Option<int>, kept: seq<Sample>, x: Sample)
    requires IsLatest(at, kept)
    ensures IsLatest(Later(at, x.at), kept + [x])
  {
    var more := kept + [x];
    assert more[|kept|] == x;
    if at.Some? && x.at <= at.value {
      var i :| 0 <= i < |kept| && kept[i].at == at.value;
      assert more[i].at == at.value;
    }
  }

  lemma OldPointStays(mac: string -> string, b: Book, x: Sample, kept: seq<Sample>, k: int)
    requires Intact(mac, b, kept) && 1 <= k <= |kept|
    ensures PointIntact(mac, b.shift.id, Append(mac, b, x).trail, kept + [x], k)
  {
    hide PointHash, IsLatest, Later, Text, Mocks;
    var trail := Append(mac, b, x).trail;
    assert PointIntact(mac, b.shift.id, b.trail, kept, k);
    assert k - 1 > 0 ==> k - 1 in b.trail && trail[k - 1] == b.trail[k - 1];
    assert (kept + [x])[k - 1] == kept[k - 1] && trail[k] == b.trail[k];
  }

  lemma NewPointFits(mac: string -> string, b: Book, x: Sample, kept: seq<Sample>)
    requires Intact(mac, b, kept)
    ensures PointIntact(mac, b.shift.id, Append(mac, b, x).trail, kept + [x], |kept| + 1)
  {
    hide PointHash, IsLatest, Later, Text, Mocks;
    var trail := Append(mac, b, x).trail;
    assert HashAt(trail, |kept|) == HashAt(b.trail, |kept|);
    assert (kept + [x])[|kept|] == x;
  }

  lemma AppendKeepsIntact(mac: string -> string, b: Book, x: Sample, kept: seq<Sample>)
    requires Intact(mac, b, kept)
    ensures Intact(mac, Append(mac, b, x), kept + [x])
  {
    hide PointHash, IsLatest, Later, PointIntact;
    LatestAppend(b.shift.lastPointAt, kept, x);
    NewPointFits(mac, b, x, kept);
    assert (kept + [x])[..|kept|] == kept;
    forall k | 1 <= k <= |kept| + 1 ensures PointIntact(mac, b.shift.id, Append(mac, b, x).trail, kept + [x], k) {
      if k <= |kept| {
        OldPointStays(mac, b, x, kept, k);
      }
    }
  }

  lemma {:induction false} TakeAllKeepsIntact(mac: string -> string, t: Tally, items: seq<Sample>, kept: seq<Sample>)
    requires Intact(mac, t.book, kept)
    ensures var last := t.book.shift.lastClientSeq;
      var t' := TakeAll(mac, t, items);
      && Intact(mac, t'.book, kept + Kept(last, items))
      && t'.book.shift.lastClientSeq == MaxCounter(last, items)
      && t'.accepted == t.accepted + |Kept(last, items)|
      && t'.ignored == t.ignored + |items| - |Kept(last, items)|
      && t'.book.shift.id == t.book.shift.id && t'.book.shift.driver == t.book.shift.driver
    decreases |items|
  {
    hide Append, Intact;
    var last := t.book.shift.lastClientSeq;
    if items == [] {
      assert kept + [] == kept;
    } else if items[0].n <= last {
      TakeAllKeepsIntact(mac, Take(mac, t, items[0]), items[1..], kept);
    } else {
      var x := items[0];
      AppendKeepsIntact(mac, t.book, x, kept);
      AppendFields(mac, t.book, x);
      TakeAllKeepsIntact(mac, Take(mac, t, x), items[1..], kept + [x]);
      assert kept + [x] + Kept(x.n, items[1..]) == kept + ([x] + Kept(x.n, items[1..]));
    }
  }

  lemma AppendFields(mac: string -> string, b: Book, x: Sample)
    ensures var s := Append(mac, b, x).shift;
      s.lastClientSeq == x.n && s.id == b.shift.id && s.driver == b.shift.driver && s.endedAt == b.shift.endedAt
  {
  }

  // ---- a whole run ----

  predicate Succeeds(b: Book, c: Call) {
    c.Upload? && c.driver == b.shift.driver && !Closed(b.shift, c.now) && !InFuture(c.samples, c.now)
  }

  /** All samples of the uploads that were answered with success. */
  function Acknowledged(mac: string -> string, start: Book, calls: seq<Call>): seq<Sample> {
    if calls == [] then []
    else
      var before, c := calls[..|calls| - 1], calls[|calls| - 1];
      Acknowledged(mac, start, before) + if Succeeds(After(mac, start, before), c) then c.samples else []
  }

  /** The trail a run is meant to store. */
  function Recorded(mac: string -> string, start: Book, calls: seq<Call>): seq<Sample> {
    if calls == [] then []
    else
      var before, c := calls[..|calls| - 1], calls[|calls| - 1];
      Recorded(mac, start, before) + NewlyKept(After(mac, start, before), c)
  }

  function NewlyKept(b: Book, c: Call): seq<Sample> {
    if Succeeds(b, c) then Kept(b.shift.lastClientSeq, Sorted(c.samples)) else []
  }

  lemma MaxOfSame(last: int, s: seq<Sample>, t: seq<Sample>)
    requires multiset(s) == multiset(t)
    ensures MaxCounter(last, s) == MaxCounter(last, t)
  {
    forall i | 0 <= i < |s| ensures s[i].n <= MaxCounter(last, t) {
      assert s[i] in multiset(t);
      var j :| 0 <= j < |t| && t[j] == s[i];
    }
    forall i | 0 <= i < |t| ensures t[i].n <= MaxCounter(last, s) {
      assert t[i] in multiset(s);
      var j :| 0 <= j < |s| && s[j] == t[i];
    }
  }

  lemma {:induction false} MaxOfParts(last: int, a: seq<Sample>, b: seq<Sample>)
    ensures MaxCounter(last, a + b) == MaxCounter(MaxCounter(last, a), b)
    decreases |a|
  {
    if a == [] {
      assert a + b == b;
    } else {
      assert (a + b)[1..] == a[1..] + b;
      MaxOfParts(if a[0].n <= last then last else a[0].n, a[1..], b);
    }
  }

  lemma StepKeepsIntact(mac: string -> string, b: Book, c: Call, kept: seq<Sample>)
    requires Intact(mac, b, kept)
    ensures var b' := Step(mac, b, c);
      && Intact(mac, b', kept + NewlyKept(b, c))
      && b'.shift.id == b.shift.id && b'.shift.driver == b.shift.driver
      && b'.shift.lastClientSeq == if Succeeds(b, c) then MaxCounter(b.shift.lastClientSeq, c.samples)
        else b.shift.lastClientSeq
  {
    hide Intact, TakeAll, Kept, MaxCounter;
    assert kept + [] == kept;
    if c.End? {
      EndKeepsIntact(mac, b, c.at, kept);
    } else {
      TakeAllKeepsIntact(mac, Tally(b, 0, 0), Sorted(c.samples), kept);
      SortedLaw(c.samples);
      MaxOfSame(b.shift.lastClientSeq, Sorted(c.samples), c.samples);
    }
  }

  /** After any run of uploads the trail is exactly what was to be recorded, and the counters match it. */
  lemma {:induction false} RunIsIntact(mac: string -> string, id: string, driver: nat, calls: seq<Call>)
    ensures var start := Started(id, driver);
      var b := After(mac, start, calls);
      && Intact(mac, b, Recorded(mac, start, calls))
      && b.shift.id == id && b.shift.driver == driver
      && b.shift.lastClientSeq == MaxCounter(0, Acknowledged(mac, start, calls))
  {
    hide Intact, Step, NewlyKept, MaxCounter;
    var start := Started(id, driver);
    if calls == [] {
      FreshIsIntact(mac, id, driver);
    } else {
      var before, c := calls[..|calls| - 1], calls[|calls| - 1];
      RunIsIntact(mac, id, driver, before);
      StepKeepsIntact(mac, After(mac, start, before), c, Recorded(mac, start, before));
      var acked := Acknowledged(mac, start, before);
      assert acked + [] == acked;
      MaxOfParts(0, acked, if c.Upload? then c.samples else []);
    }
  }

  lemma FreshIsIntact(mac: string -> string, id: string, driver: nat)
    ensures Intact(mac, Started(id, driver), []) && MaxCounter(0, []) == 0
  {
  }

  lemma EndKeepsIntact(mac: string -> string, b: Book, at: int, kept: seq<Sample>)
    requires Intact(mac, b, kept)
    ensures Intact(mac, Step(mac, b, End(at)), kept)
  {
  }

  // ---- replays and cuts ----

  /** Samples whose counters were all passed before change nothing. */
  lemma {:induction false} OldSamplesAreIgnored(mac: string -> string, t: Tally, items: seq<Sample>)
    requires forall i :: 0 <= i < |items| ==> items[i].n <= t.book.shift.lastClientSeq
    ensures TakeAll(mac, t, items) == t.(ignored := t.ignored + |items|)
    decreases |items|
  {
    if items != [] {
      OldSamplesAreIgnored(mac, t.(ignored := t.ignored + 1), items[1..]);
    }
  }

  lemma {:induction false} AcknowledgedContains(mac: string -> string, start: Book, calls: seq<Call>, k: nat, x: Sample)
    requires k < |calls| && Succeeds(After(mac, start, calls[..k]), calls[k]) && x in calls[k].samples
    ensures x in Acknowledged(mac, start, calls)
  {
    var before := calls[..|calls| - 1];
    if k < |before| {
      assert before[..k] == calls[..k];
      AcknowledgedContains(mac, start, before, k, x);
    }
  }

  /** Sending an acknowledged batch again, at any later time, changes nothing and is answered as ignored. */
  lemma ReplayChangesNothing(mac: string -> string, id: string, driver: nat, calls: seq<Call>, k: nat, now: int)
    requires var start := Started(id, driver);
      && k < |calls| && Succeeds(After(mac, start, calls[..k]), calls[k])
      && Succeeds(After(mac, start, calls), calls[k].(now := now))
    ensures var b := After(mac, Started(id, driver), calls);
      var samples := calls[k].samples;
      Ingest(mac, b, driver, samples, now) == (b, Success(Response(0, |samples|, b.shift.lastClientSeq)))
  {
    hide TakeAll, Intact, After;
    var start := Started(id, driver);
    var b := After(mac, start, calls);
    var items := Sorted(calls[k].samples);
    RunIsIntact(mac, id, driver, calls);
    SortedLaw(calls[k].samples);
    forall i | 0 <= i < |items| ensures items[i].n <= b.shift.lastClientSeq {
      assert items[i] in multiset(calls[k].samples);
      AcknowledgedContains(mac, start, calls, k, items[i]);
    }
    OldSamplesAreIgnored(mac, Tally(b, 0, 0), items);
  }

  lemma {:induction false} TakeAllParts(mac: string -> string, t: Tally, a: seq<Sample>, b: seq<Sample>)
    ensures TakeAll(mac, t, a + b) == TakeAll(mac, TakeAll(mac, t, a), b)
    decreases |a|
  {
    hide Take;
    if a == [] {
      assert a + b == b;
    } else {
      assert (a + b)[1..] == a[1..] + b;
      TakeAllParts(mac, Take(mac, t, a[0]), a[1..], b);
    }
  }

  /** Counts do not influence what is stored. */
  lemma {:induction false} TakeAllFrom(mac: string -> string, t: Tally, accepted: nat, ignored: nat, items: seq<Sample>)
    ensures var t' := TakeAll(mac, t, items);
      TakeAll(mac, Tally(t.book, t.accepted + accepted, t.ignored + ignored), items)
      == Tally(t'.book, t'.accepted + accepted, t'.ignored + ignored)
    decreases |items|
  {
    hide Append;
    if items != [] {
      TakeAllFrom(mac, Take(mac, t, items[0]), accepted, ignored, items[1..]);
    }
  }

  /**
   * Every sample of a successful upload is answered as accepted or ignored, and the accepted ones are the new points.
   */
  lemma EverySampleIsAnswered(mac: string -> string, b: Book, kept: seq<Sample>, c: Call)
    requires Intact(mac, b, kept) && Succeeds(b, c)
    ensures var (b', r) := Ingest(mac, b, c.driver, c.samples, c.now);
      && r.Success? && r.value.accepted + r.value.ignored == |c.samples|
      && b'.shift.points == b.shift.points + r.value.accepted && r.value.lastClientSeq == b'.shift.lastClientSeq
  {
    hide TakeAll, Kept, MaxCounter;
    TakeAllKeepsIntact(mac, Tally(b, 0, 0), Sorted(c.samples), kept);
  }

  /**
   * A batch in counter order may be cut anywhere: sending the parts in order stores the same trail and accepts as
   * many samples.
   */
  lemma CutAnywhere(mac: string -> string, b: Book, driver: nat, samples: seq<Sample>, k: nat, now: int)
    requires k <= |samples| && Ordered(samples)
    requires driver == b.shift.driver && !Closed(b.shift, now) && !InFuture(samples, now)
    ensures var (whole, r) := Ingest(mac, b, driver, samples, now);
      var (first, r1) := Ingest(mac, b, driver, samples[..k], now);
      var (second, r2) := Ingest(mac, first, driver, samples[k..], now);
      && second == whole && r.Success? && r1.Success? && r2.Success?
      && r.value.accepted == r1.value.accepted + r2.value.accepted
      && r.value.ignored == r1.value.ignored + r2.value.ignored
      && r.value.lastClientSeq == r2.value.lastClientSeq
  {
    hide TakeAll, Intact, InFuture, Sorted, Closed;
    SortedOfOrdered(samples);
    SortedOfOrdered(samples[..k]);
    SortedOfOrdered(samples[k..]);
    assert samples == samples[..k] + samples[k..];
    var t := TakeAll(mac, Tally(b, 0, 0), samples[..k]);
    TakeAllParts(mac, Tally(b, 0, 0), samples[..k], samples[k..]);
    TakeAllFrom(mac, Tally(t.book, 0, 0), t.accepted, t.ignored, samples[k..]);
    TakeAllFields(mac, Tally(b, 0, 0), samples[..k]);
    PartsNotInFuture(samples, k, now);
    assert Closed(t.book.shift, now) == Closed(b.shift, now) by { SameEnd(b.shift, t.book.shift, now); }
  }

  lemma PartsNotInFuture(samples: seq<Sample>, k: nat, now: int)
    requires k <= |samples| && !InFuture(samples, now)
    ensures !InFuture(samples[..k], now) && !InFuture(samples[k..], now)
  {
    assert forall i :: 0 <= i < |samples| - k ==> samples[k..][i] == samples[k + i];
    assert forall i :: 0 <= i < |samples| ==> samples[i].at <= now + MAX_FUTURE_SKEW;
  }

  lemma SameEnd(a: Shift, b: Shift, now: int)
    requires a.endedAt == b.endedAt
    ensures Closed(a, now) == Closed(b, now)
  {
  }

  lemma {:induction false} TakeAllFields(mac: string -> string, t: Tally, items: seq<Sample>)
    ensures var s := TakeAll(mac, t, items).book.shift;
      s.id == t.book.shift.id && s.driver == t.book.shift.driver && s.endedAt == t.book.shift.endedAt
    decreases |items|
  {
    if items != [] {
      TakeAllFields(mac, Take(mac, t, items[0]), items[1..]);
    }
  }

  // ---- verification ----

  /** The points are numbered from expectSeq without gaps, and each is signed over the hash before it. */
  predicate Chained(mac: string -> string, shift: string, prev: string, expectSeq: int, ps: seq<Point>)
    decreases |ps|
  {
    ps == [] ||
    (var p := ps[0];
     && p.seqNo == expectSeq
     && p.row.hash == PointHash(mac, Message(prev, shift, p.seqNo, p.row.lat, p.row.lng, p.row.at, p.row.mock))
     && Chained(mac, shift, p.row.hash, expectSeq + 1, ps[1..]))
  }

  function LastHash(prev: string, ps: seq<Point>): string {
    if ps == [] then prev else ps[|ps| - 1].row.hash
  }

  lemma {:induction false} CheckAllMeansChained(mac: string -> string, shift: string, c: Cursor, ps: seq<Point>)
    ensures var c' := CheckAll(mac, shift, c, ps);
      && (c'.v.valid <==> c.v.valid && Chained(mac, shift, c.prev, c.expectSeq, ps))
      && c'.v.checked == c.v.checked + |ps| && c'.prev == LastHash(c.prev, ps)
      && (c'.v.valid ==> c'.v == c.v.(checked := c.v.checked + |ps|))
    decreases |ps|
  {
    hide PointHash;
    if ps != [] {
      CheckAllMeansChained(mac, shift, CheckPoint(mac, shift, c, ps[0]), ps[1..]);
    }
  }

  lemma VerifyMeansChained(mac: string -> string, sh: Shift, trail: Trail)
    requires sh.lastHash != ""
    ensures var ps := Rest(trail, 0);
      Verify(mac, sh, trail).valid <==>
        && Chained(mac, sh.id, GENESIS_HASH, 1, ps) && |ps| == sh.points
        && (ps != [] ==> LastHash(GENESIS_HASH, ps) == sh.lastHash)
    ensures Verify(mac, sh, trail).valid ==> Verify(mac, sh, trail) == Verdict(true, sh.points, None, None)
  {
    hide Chained, CheckAll;
    CheckAllMeansChained(mac, sh.id, BEGIN, Rest(trail, 0));
  }

  /** Points that are chained are still not valid if some are missing at the end, or if the last is not the shift's. */
  lemma ClosingProblemIsNamed(mac: string -> string, sh: Shift, trail: Trail)
    requires Chained(mac, sh.id, GENESIS_HASH, 1, Rest(trail, 0)) && !Verify(mac, sh, trail).valid
    ensures var n := |Rest(trail, 0)|;
      Verify(mac, sh, trail) ==
        Verdict(false, n, None, Some(if n != sh.points then WrongCount(sh.points, n) else WrongHead))
  {
    hide Chained, CheckAll;
    CheckAllMeansChained(mac, sh.id, BEGIN, Rest(trail, 0));
  }

  /** The sequence number reported is that of the first point that breaks the chain, with the reason it breaks it. */
  lemma {:induction false} FirstBadPointIsReported(mac: string -> string, shift: string, c: Cursor, ps: seq<Point>)
    returns (i: nat)
    requires c.v.valid && !Chained(mac, shift, c.prev, c.expectSeq, ps)
    ensures i < |ps| && Chained(mac, shift, c.prev, c.expectSeq, ps[..i])
    ensures !Chained(mac, shift, c.prev, c.expectSeq, ps[..i + 1])
    ensures var v := CheckAll(mac, shift, c, ps).v;
      && !v.valid && v.firstBad == Some(ps[i].seqNo)
      && v.problem == Some(if ps[i].seqNo != c.expectSeq + i then MissingPoint else BadSignature)
    decreases |ps|
  {
    hide PointHash;
    var p := ps[0];
    var c' := CheckPoint(mac, shift, c, p);
    if c'.v.valid {
      i := FirstBadPointIsReported(mac, shift, c', ps[1..]);
      assert ps[..i + 1][1..] == ps[1..][..i] && ps[..i + 2][1..] == ps[1..][..i + 1];
      i := i + 1;
    } else {
      i := 0;
      assert ps[..1][1..] == [];
      VerdictStays(mac, shift, c', ps[1..]);
    }
  }

  /** Later points do not change a verdict that has been reached. */
  lemma {:induction false} VerdictStays(mac: string -> string, shift: string, c: Cursor, ps: seq<Point>)
    requires !c.v.valid
    ensures CheckAll(mac, shift, c, ps).v == c.v.(checked := c.v.checked + |ps|)
    decreases |ps|
  {
    hide PointHash;
    if ps != [] {
      VerdictStays(mac, shift, CheckPoint(mac, shift, c, ps[0]), ps[1..]);
    }
  }

  // -- an untouched trail --

  /** Points k, k + 1, ... of an intact trail. */
  function From(trail: Trail, k: int, n: int): seq<Point>
    requires forall i :: k <= i <= n ==> i in trail
    decreases n + 1 - k
  {
    if k > n then [] else [Point(k, trail[k])] + From(trail, k + 1, n)
  }

  lemma {:induction false} RestIsFrom(trail: Trail, k: int, n: int)
    requires 1 <= k <= n + 1 && forall i :: i in trail <==> 1 <= i <= n
    ensures Rest(trail, k - 1) == From(trail, k, n)
    decreases n + 1 - k
  {
    if k <= n {
      assert k in trail;
      assert HasLater(trail, k - 1);
      assert NextSeq(trail, k - 1) == k;
      RestIsFrom(trail, k + 1, n);
      RestUnfolds(trail, k - 1);
    }
  }

  lemma RestUnfolds(trail: Trail, after: int)
    requires HasLater(trail, after)
    ensures var k := NextSeq(trail, after); Rest(trail, after) == [Point(k, trail[k])] + Rest(trail, k)
  {
    var k := NextSeq(trail, after);
    LaterShrinks(trail, after);
    LaterFits(trail, after);
    LongPage(trail, k, |trail| - 1);
  }

  /** The trail as it was signed. */
  function SignedTrail(b: Book, kept: seq<Sample>): Trail {
    map k | k in b.trail && 1 <= k <= |kept| :: b.trail[k].(at := Millis(kept[k - 1].at))
  }

  lemma {:induction false} FromIsChained(mac: string -> string, b: Book, kept: seq<Sample>, k: int)
    requires Intact(mac, b, kept) && 1 <= k <= |kept| + 1
    ensures var ps := From(SignedTrail(b, kept), k, |kept|);
      && Chained(mac, b.shift.id, HashAt(b.trail, k - 1), k, ps) && |ps| == |kept| + 1 - k
      && LastHash(HashAt(b.trail, k - 1), ps) == b.shift.lastHash
    decreases |kept| + 1 - k
  {
    hide PointHash;
    if k <= |kept| {
      assert PointIntact(mac, b.shift.id, b.trail, kept, k);
      FromIsChained(mac, b, kept, k + 1);
    }
  }

  lemma SignedIsChained(mac: string -> string, b: Book, kept: seq<Sample>)
    requires Intact(mac, b, kept)
    ensures var ps := Rest(SignedTrail(b, kept), 0);
      Chained(mac, b.shift.id, GENESIS_HASH, 1, ps) && |ps| == |kept| && LastHash(GENESIS_HASH, ps) == b.shift.lastHash
  {
    RestIsFrom(SignedTrail(b, kept), 1, |kept|);
    FromIsChained(mac, b, kept, 1);
  }

  // -- any stored trail --

  /**
   * Equal heads and equal lengths leave no room for a difference anywhere in the chain, by induction back from the
   * head.
   */
  lemma {:induction false} ChainsAgree(mac: string -> string, shift: string, prev: string, prev': string, k: int,
                                       ps: seq<Point>, qs: seq<Point>)
    requires Ideal(mac) && '|' !in shift
    requires Chained(mac, shift, prev, k, ps) && Chained(mac, shift, prev', k, qs)
    requires |ps| == |qs| > 0 && LastHash(prev, ps) == LastHash(prev', qs)
    ensures ps == qs && prev == prev'
    decreases |ps|
  {
    hide PointHash;
    var p, q := ps[0], qs[0];
    if |ps| > 1 {
      ChainsAgree(mac, shift, p.row.hash, q.row.hash, k + 1, ps[1..], qs[1..]);
    }
    PointHashIsInjective(mac, Message(prev, shift, p.seqNo, p.row.lat, p.row.lng, p.row.at, p.row.mock),
                         Message(prev', shift, q.seqNo, q.row.lat, q.row.lng, q.row.at, q.row.mock));
    assert ps == [p] + ps[1..] && qs == [q] + qs[1..];
  }

  /** The rows that can be read: AllPointsBySeq starts after sequence number 0. */
  function Readable(trail: Trail): Trail {
    map k | k in trail && k >= 1 :: trail[k]
  }

  lemma {:induction false} RestContains(trail: Trail, after: int, p: Point)
    ensures p in Rest(trail, after) <==> p.seqNo in trail && p.seqNo > after && trail[p.seqNo] == p.row
    decreases |LaterSeqs(trail, after)|
  {
    if HasLater(trail, after) {
      var k := NextSeq(trail, after);
      RestUnfolds(trail, after);
      LaterShrinks(trail, after);
      RestContains(trail, k, p);
    }
  }

  lemma ReadableIsWhatIsRead(a: Trail, b: Trail)
    requires Rest(a, 0) == Rest(b, 0)
    ensures Readable(a) == Readable(b)
  {
    forall k: int ensures k in Readable(a) <==> k in Readable(b)
    {
      if k in Readable(a) { RestContains(a, 0, Point(k, a[k])); RestContains(b, 0, Point(k, a[k])); }
      if k in Readable(b) { RestContains(a, 0, Point(k, b[k])); RestContains(b, 0, Point(k, b[k])); }
    }
    forall k: int | k in Readable(a) ensures Readable(a)[k] == Readable(b)[k] {
      RestContains(a, 0, Point(k, a[k]));
      RestContains(b, 0, Point(k, a[k]));
    }
  }

  lemma {:induction false} OnlyReadableIsRead(trail: Trail, after: int)
    requires after >= 0
    ensures Rest(trail, after) == Rest(Readable(trail), after)
    decreases |LaterSeqs(trail, after)|
  {
    var r := Readable(trail);
    assert HasLater(trail, after) <==> HasLater(r, after) by {
      assert forall n :: n in r && n > after <==> n in trail && n > after;
    }
    if HasLater(trail, after) {
      var k := NextSeq(trail, after);
      assert k in r && NextSeq(r, after) in trail;
      assert NextSeq(r, after) == k;
      RestUnfolds(trail, after);
      RestUnfolds(r, after);
      LaterShrinks(trail, after);
      OnlyReadableIsRead(trail, k);
    }
  }

  /**
   * Against an untouched shift record, a stored trail verifies exactly when its readable rows are the ingested ones
   * as they were signed: any edit, deletion, insertion, renumbering or reordering of them is detected.
   */
  lemma VerifyDetectsEveryChange(mac: string -> string, b: Book, kept: seq<Sample>, stored: Trail)
    requires Ideal(mac) && '|' !in b.shift.id && Intact(mac, b, kept)
    ensures Verify(mac, b.shift, stored).valid <==> Readable(stored) == SignedTrail(b, kept)
    ensures Verify(mac, b.shift, stored).valid ==> Verify(mac, b.shift, stored) == Verdict(true, |kept|, None, None)
  {
    hide Chained, Verify, PointHash, Ideal;
    var signed := SignedTrail(b, kept);
    var ps, qs := Rest(stored, 0), Rest(signed, 0);
    SignedIsChained(mac, b, kept);
    HeadIsSigned(mac, b, kept);
    VerifyMeansChained(mac, b.shift, stored);
    assert Readable(signed) == signed;
    if Verify(mac, b.shift, stored).valid {
      if ps != [] {
        ChainsAgree(mac, b.shift.id, GENESIS_HASH, GENESIS_HASH, 1, ps, qs);
      }
      ReadableIsWhatIsRead(stored, signed);
    }
    if Readable(stored) == signed {
      OnlyReadableIsRead(stored, 0);
    }
  }

  lemma HeadIsSigned(mac: string -> string, b: Book, kept: seq<Sample>)
    requires Ideal(mac) && Intact(mac, b, kept)
    ensures b.shift.lastHash != ""
  {
    if kept != [] {
      assert PointIntact(mac, b.shift.id, b.trail, kept, |kept|);
    }
  }

  /** The trail was stored as it was signed exactly if no sample's time was rounded up. */
  lemma StoredAsSignedIff(mac: string -> string, b: Book, kept: seq<Sample>)
    requires Intact(mac, b, kept)
    ensures b.trail == SignedTrail(b, kept) <==> forall i :: 0 <= i < |kept| ==> kept[i].at % 1000 < 500
  {
    hide PointHash;
    var signed := SignedTrail(b, kept);
    forall k | 1 <= k <= |kept| ensures k in b.trail && (b.trail[k] == signed[k] <==> kept[k - 1].at % 1000 < 500) {
      assert PointIntact(mac, b.shift.id, b.trail, kept, k);
      StoredIsSignedIff(kept[k - 1].at);
    }
    assert forall i :: 0 <= i < |kept| ==> kept[i] == kept[(i + 1) - 1];
    if b.trail == signed {
      forall i | 0 <= i < |kept| ensures kept[i].at % 1000 < 500 {
        assert i + 1 in b.trail;
      }
    }
  }

  /**
   * After any run of uploads the trail holds exactly the kept samples, numbered from 1 and counted, and VerifyShift
   * finds it valid, with every point checked, if and only if no kept sample's time lies half a millisecond or more
   * past its millisecond.
   */
  lemma EveryRunVerifies(mac: string -> string, id: string, driver: nat, calls: seq<Call>)
    requires Ideal(mac) && '|' !in id
    ensures var start := Started(id, driver);
      var b := After(mac, start, calls);
      var recorded := Recorded(mac, start, calls);
      && (Verify(mac, b.shift, b.trail) == Verdict(true, |recorded|, None, None)
          <==> forall i :: 0 <= i < |recorded| ==> recorded[i].at % 1000 < 500)
      && (Verify(mac, b.shift, b.trail).valid <==> forall i :: 0 <= i < |recorded| ==> recorded[i].at % 1000 < 500)
      && b.shift.points == b.shift.lastSeq == |recorded| && b.shift.mocks == Mocks(recorded)
      && (forall k :: k in b.trail <==> 1 <= k <= |recorded|)
      && (forall k :: 1 <= k <= |recorded| ==>
            var x := recorded[k - 1];
            b.trail[k] == Row(x.lat, x.lng, Stored(x.at), x.mock, b.trail[k].hash))
      && b.shift.lastClientSeq == MaxCounter(0, Acknowledged(mac, start, calls))
  {
    hide Verify, PointHash, Ideal, After, Recorded, Acknowledged, SignedTrail;
    var start := Started(id, driver);
    var b := After(mac, start, calls);
    var recorded := Recorded(mac, start, calls);
    RunIsIntact(mac, id, driver, calls);
    VerifyDetectsEveryChange(mac, b, recorded, b.trail);
    StoredAsSignedIff(mac, b, recorded);
    assert Readable(b.trail) == b.trail;
    forall k | 1 <= k <= |recorded|
      ensures var x := recorded[k - 1]; b.trail[k] == Row(x.lat, x.lng, Stored(x.at), x.mock, b.trail[k].hash)
    {
      assert PointIntact(mac, b.shift.id, b.trail, recorded, k);
    }
  }

  /** One honest sample, half a millisecond past its millisecond, is enough. */
  lemma RoundedUpFails(mac: string -> string, id: string, driver: nat)
    requires Ideal(mac) && '|' !in id
    ensures var b := After(mac, Started(id, driver), [Upload(driver, [Sample(1, 0, 0, 500, false)], 1000)]);
      b.trail.Keys == {1} && !Verify(mac, b.shift, b.trail).valid
  {
    hide Verify, PointHash, Ideal;
    var x := Sample(1, 0, 0, 500, false);
    var c := Upload(driver, [x], 1000);
    var start := Started(id, driver);
    EveryRunVerifies(mac, id, driver, [c]);
    OneIsKept(start, c, x);
    RecordedOne(mac, start, c);
    assert [x][0].at % 1000 >= 500;
  }

  lemma OneIsKept(start: Book, c: Call, x: Sample)
    requires start.shift.lastClientSeq < x.n && start.shift.endedAt.None?
    requires c.Upload? && c == Upload(start.shift.driver, [x], c.now) && x.at <= c.now + MAX_FUTURE_SKEW
    ensures NewlyKept(start, c) == [x]
  {
    assert [x][..0] == [] && [x][1..] == [];
    assert Sorted([x]) == [x] && Kept(x.n, []) == [];
  }

  lemma RecordedOne(mac: string -> string, start: Book, c: Call)
    ensures Recorded(mac, start, [c]) == NewlyKept(start, c)
  {
    assert [c][..0] == [];
    assert Recorded(mac, start, []) == [] && After(mac, start, []) == start;
  }
}
