/**
 * GPS evidence for one shift: batches of samples are sorted, appended to the trail and chained by hash;
 * the trail can be checked against the shift's record later, page by page.
 */
module Tracking {
  import opened Wrappers
  import opened GpsChain
  import opened Sets

  /** A sample as the app sends it; n is the app's own counter. Times are Unix microseconds. */
  datatype Sample = Sample(n: int, lat: int, lng: int, at: int, mock: bool)

  /**
   * A stored location point, its time in whole milliseconds; (shift, sequence number) is unique, so the sequence
   * number is the key.
   */
  datatype Row = Row(lat: int, lng: int, at: int, mock: bool, hash: string)

  type Trail = map<int, Row>

  /** The shift's record: id and driver never change, the rest moves with every accepted point. */
  datatype Shift = Shift(id: string, driver: nat, endedAt: Option<int>,
                         lastSeq: int, lastHash: string, lastClientSeq: int,
                         points: int, mocks: int, lastPointAt: Option<int>)

  datatype Book = Book(shift: Shift, trail: Trail)

  const LATE_FLUSH_GRACE := 1_800_000_000
  const MAX_FUTURE_SKEW := 120_000_000

  datatype Error = ShiftNotFound | ShiftClosed | InvalidPoint

  datatype Response = Response(accepted: nat, ignored: nat, lastClientSeq: int)

  /** StartShift's new row. */
  function Started(id: string, driver: nat): Book {
    Book(Shift(id, driver, None, 0, GENESIS_HASH, 0, 0, 0, None), map[])
  }

  // ---- sorting a batch ----

  /** Puts x behind every sample whose counter is not larger. */
  function Insert(s: seq<Sample>, x: Sample): (r: seq<Sample>)
    ensures |r| == |s| + 1
  {
    if s == [] || s[|s| - 1].n <= x.n then s + [x] else Insert(s[..|s| - 1], x) + [s[|s| - 1]]
  }

  function Sorted(s: seq<Sample>): (r: seq<Sample>)
    ensures |r| == |s|
  {
    if s == [] then [] else Insert(Sorted(s[..|s| - 1]), s[|s| - 1])
  }

  lemma InsertPastLarger(s: seq<Sample>, j: nat, x: Sample)
    requires 0 < j <= |s| && x.n < s[j - 1].n
    ensures Insert(s[..j], x) + s[j..] == Insert(s[..j - 1], x) + s[j - 1..]
  {
    assert s[..j][..j - 1] == s[..j - 1];
    assert s[j - 1..] == [s[j - 1]] + s[j..];
    assert Insert(s[..j], x) == Insert(s[..j - 1], x) + [s[j - 1]];
  }

  // ---- appending to the trail ----

  /** UnixMilli, which is signed: the milliseconds that have passed. */
  function Millis(at: int): int {
    at / 1000
  }

  /** What a column with three decimals keeps: the nearest millisecond. */
  function Stored(at: int): int {
    (at + 500) / 1000
  }

  lemma StoredIsSignedIff(at: int)
    ensures Stored(at) == Millis(at) <==> at % 1000 < 500
  {
  }

  function Later(t: Option<int>, at: int): Option<int> {
    if t.None? || at > t.value then Some(at) else t
  }

  /** What one accepted sample does to the shift and its trail. */
  function Append(mac: string -> string, b: Book, x: Sample): Book {
    var sh := b.shift;
    var seqNo := sh.lastSeq + 1;
    var hash := PointHash(mac, Message(sh.lastHash, sh.id, seqNo, x.lat, x.lng, Millis(x.at), x.mock));
    Book(sh.(lastSeq := seqNo, lastHash := hash, lastClientSeq := x.n, points := sh.points + 1,
             mocks := if x.mock then sh.mocks + 1 else sh.mocks, lastPointAt := Later(sh.lastPointAt, x.at)),
         b.trail[seqNo := Row(x.lat, x.lng, Stored(x.at), x.mock, hash)])
  }

  /** A sample whose counter was passed already is ignored. */
  datatype Tally = Tally(book: Book, accepted: nat, ignored: nat)

  function Take(mac: string -> string, t: Tally, x: Sample): Tally {
    if x.n <= t.book.shift.lastClientSeq then t.(ignored := t.ignored + 1)
    else Tally(Append(mac, t.book, x), t.accepted + 1, t.ignored)
  }

  function TakeAll(mac: string -> string, t: Tally, items: seq<Sample>): Tally
    decreases |items|
  {
    if items == [] then t else TakeAll(mac, Take(mac, t, items[0]), items[1..])
  }

  predicate InFuture(samples: seq<Sample>, now: int) {
    exists i :: 0 <= i < |samples| && samples[i].at > now + MAX_FUTURE_SKEW
  }

  predicate Closed(sh: Shift, now: int) {
    sh.endedAt.Some? && now - sh.endedAt.value > LATE_FLUSH_GRACE
  }

  function Ingest(mac: string -> string, b: Book, driver: nat, samples: seq<Sample>, now: int)
    : (Book, Result<Response, Error>) {
    if b.shift.driver != driver then (b, Failure(ShiftNotFound))
    else if Closed(b.shift, now) then (b, Failure(ShiftClosed))
    else if InFuture(samples, now) then (b, Failure(InvalidPoint))
    else
      var t := TakeAll(mac, Tally(b, 0, 0), Sorted(samples));
      (t.book, Success(Response(t.accepted, t.ignored, t.book.shift.lastClientSeq)))
  }

  // ---- reading the trail back ----

  /** The smallest stored sequence number after `after`. */
  function NextSeq(trail: Trail, after: int): (k: int)
    requires exists n :: n in trail && n > after
    ensures k in trail && k > after && forall n :: n in trail && n > after ==> k <= n
  {
    var later := set n | n in trail && n > after;
    assert forall n :: n in trail && n > after <==> n in later;
    assert Least(later) in later;
    var k :| k in later && forall n :: n in later ==> k <= n;
    k
  }

  predicate HasLater(trail: Trail, after: int) {
    exists n :: n in trail && n > after
  }

  /** A point as VerifyShift reads it. */
  datatype Point = Point(seqNo: int, row: Row)

  /** AllPointsBySeq: the first `limit` points after `after`, in order. */
  function Page(trail: Trail, after: int, limit: nat): (r: seq<Point>)
    ensures |r| <= limit
    decreases limit
  {
    if limit == 0 || !HasLater(trail, after) then []
    else
      var k := NextSeq(trail, after);
      [Point(k, trail[k])] + Page(trail, k, limit - 1)
  }

  // ---- verifying ----

  datatype Problem = MissingPoint | BadSignature | WrongCount(expected: int, found: int) | WrongHead

  datatype Verdict = Verdict(valid: bool, checked: nat, firstBad: Option<int>, problem: Option<Problem>)

  /** The loop variables of VerifyShift. */
  datatype Cursor = Cursor(v: Verdict, prev: string, expectSeq: int, after: int)

  const BEGIN := Cursor(Verdict(true, 0, None, None), GENESIS_HASH, 1, 0)

  /** Only the first bad point is reported. */
  function Bad(v: Verdict, seqNo: int, problem: Problem): Verdict {
    if v.valid then v.(valid := false, firstBad := Some(seqNo), problem := Some(problem)) else v
  }

  function CheckPoint(mac: string -> string, shift: string, c: Cursor, p: Point): Cursor {
    var v := c.v.(checked := c.v.checked + 1);
    var v1 := if p.seqNo != c.expectSeq then Bad(v, p.seqNo, MissingPoint) else v;
    var want := PointHash(mac, Message(c.prev, shift, p.seqNo, p.row.lat, p.row.lng, p.row.at, p.row.mock));
    var v2 := if want != p.row.hash then Bad(v1, p.seqNo, BadSignature) else v1;
    Cursor(v2, p.row.hash, p.seqNo + 1, p.seqNo)
  }

  function CheckAll(mac: string -> string, shift: string, c: Cursor, ps: seq<Point>): Cursor
    decreases |ps|
  {
    if ps == [] then c else CheckAll(mac, shift, CheckPoint(mac, shift, c, ps[0]), ps[1..])
  }

  function Conclude(sh: Shift, c: Cursor): Verdict {
    var v := c.v;
    var v1 := if v.valid && v.checked != sh.points
              then v.(valid := false, problem := Some(WrongCount(sh.points, v.checked))) else v;
    if v1.valid && sh.lastHash != "" && c.prev != sh.lastHash && v1.checked > 0
    then v1.(valid := false, problem := Some(WrongHead)) else v1
  }

  /** Everything after `after`, in order. */
  function Rest(trail: Trail, after: int): seq<Point> {
    Page(trail, after, |trail|)
  }

  /** One pass over the whole trail. */
  function Verify(mac: string -> string, sh: Shift, trail: Trail): Verdict {
    Conclude(sh, CheckAll(mac, sh.id, BEGIN, Rest(trail, 0)))
  }
}
