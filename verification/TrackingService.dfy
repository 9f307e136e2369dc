/**
 * The tracking service as the object it is: a batch is sorted in place, the locked shift's fields move
 * point by point, and verification reads the trail page by page. Each method is proved against module Tracking.
 */
module TrackingService {
  import opened Wrappers
  import opened GpsChain
  import opened Tracking
  import TrackingLaws

  lemma InsertAtEnd(s: seq<Sample>, x: Sample)
    requires s == [] || s[|s| - 1].n <= x.n
    ensures Insert(s, x) == s + [x]
  {
  }

  /** The items while x is on its way to its place in s. */
  function WithAt(s: seq<Sample>, j: nat, x: Sample, rest: seq<Sample>): seq<Sample>
    requires j <= |s|
  {
    s[..j] + [x] + s[j..] + rest
  }

  lemma OneSwap(s: seq<Sample>, j: nat, x: Sample, rest: seq<Sample>)
    requires 0 < j <= |s|
    ensures WithAt(s, j, x, rest)[j := s[j - 1]][j - 1 := x] == WithAt(s, j - 1, x, rest)
  {
  }

  lemma ItemsAt(s: seq<Sample>, j: nat, x: Sample, rest: seq<Sample>)
    requires j <= |s|
    ensures var items := WithAt(s, j, x, rest);
      && |items| == |s| + 1 + |rest| && items[j] == x && (j > 0 ==> items[j - 1] == s[j - 1])
      && items[..|s| + 1] == s[..j] + [x] + s[j..] && items[|s| + 1..] == rest
  {
  }

  /** Swaps item i forward until no larger counter precedes it. */
  method SwapIntoPlace(items: array<Sample>, i: nat)
    requires i < items.Length
    modifies items
    ensures items[..i + 1] == Insert(old(items[..i]), old(items[i]))
    ensures items[i + 1..] == old(items[i + 1..])
  {
    hide Insert, WithAt;
    ghost var s, x, rest := items[..i], items[i], items[i + 1..];
    var j := i;
    AllInPlace(items[..], i);
    while j > 0 && items[j].n < items[j - 1].n
      invariant 0 <= j <= i
      invariant items[..] == WithAt(s, j, x, rest)
      invariant Insert(s, x) == Insert(s[..j], x) + s[j..]
    {
      ItemsAt(s, j, x, rest);
      OneSwap(s, j, x, rest);
      InsertPastLarger(s, j, x);
      ghost var was := items[..];
      items[j], items[j - 1] := items[j - 1], items[j];
      assert items[..] == was[j := s[j - 1]][j - 1 := x];
      j := j - 1;
    }
    ItemsAt(s, j, x, rest);
    InsertAtEnd(s[..j], x);
  }

  lemma AllInPlace(items: seq<Sample>, i: nat)
    requires i < |items|
    ensures items == WithAt(items[..i], i, items[i], items[i + 1..])
    ensures Insert(items[..i], items[i]) == Insert(items[..i][..i], items[i]) + items[..i][i..]
  {
    hide Insert;
    assert items[..i][..i] == items[..i];
  }

  /** The in-place insertion sort of Ingest. */
  method Sort(items: array<Sample>)
    modifies items
    ensures items[..] == Sorted(old(items[..]))
  {
    ghost var was := items[..];
    if items.Length == 0 {
      return;
    }
    assert was[..1] == [was[0]] && Sorted(was[..1]) == [was[0]];
    var i := 1;
    while i < items.Length
      invariant 1 <= i <= items.Length
      invariant items[..i] == Sorted(was[..i])
      invariant items[i..] == was[i..]
    {
      assert items[i] == items[i..][0] == was[i];
      assert was[..i + 1][..i] == was[..i];
      assert items[i + 1..] == items[i..][1..] == was[i + 1..];
      SwapIntoPlace(items, i);
      i := i + 1;
    }
    assert was[..items.Length] == was && items[..items.Length] == items[..];
  }

  /** A driver's shift and its trail, locked by each call. */
  class ShiftLog {
    const mac: string -> string
    const id: string
    const driver: nat
    var endedAt: Option<int>
    var lastSeq: int
    var lastHash: string
    var lastClientSeq: int
    var points: int
    var mocks: int
    var lastPointAt: Option<int>
    var trail: Trail

    function Record(): Shift
      reads this
    {
      Shift(id, driver, endedAt, lastSeq, lastHash, lastClientSeq, points, mocks, lastPointAt)
    }

    function Contents(): Book
      reads this
    {
      Book(Record(), trail)
    }

    /** StartShift's new row. */
    constructor (mac: string -> string, id: string, driver: nat)
      ensures this.mac == mac && Contents() == Tracking.Started(id, driver)
    {
      this.mac, this.id, this.driver := mac, id, driver;
      endedAt, lastSeq, lastHash, lastClientSeq := None, 0, GENESIS_HASH, 0;
      points, mocks, lastPointAt, trail := 0, 0, None, map[];
    }

    /** EndShift touches an active shift only. */
    method End(at: int)
      modifies this`endedAt
      ensures endedAt == if old(endedAt).None? then Some(at) else old(endedAt)
    {
      if endedAt.None? {
        endedAt := Some(at);
      }
    }

    method AnyInFuture(samples: seq<Sample>, now: int) returns (found: bool)
      ensures found <==> InFuture(samples, now)
    {
      var i := 0;
      while i < |samples|
        invariant 0 <= i <= |samples|
        invariant forall k :: 0 <= k < i ==> samples[k].at <= now + MAX_FUTURE_SKEW
      {
        if samples[i].at > now + MAX_FUTURE_SKEW {
          return true;
        }
        i := i + 1;
      }
      return false;
    }

    /** The body of the closure that AppendPoints runs under the shift's row lock, for one sample. */
    method Extend(it: Sample) returns (took: bool)
      modifies this`lastSeq, this`lastHash, this`lastClientSeq, this`points, this`mocks, this`lastPointAt, this`trail
      ensures took <==> it.n > old(lastClientSeq)
      ensures Contents() == if took then Append(mac, old(Contents()), it) else old(Contents())
    {
      hide PointHash;
      if it.n <= lastClientSeq {
        return false;
      }
      var seqNo := lastSeq + 1;
      var hash := PointHash(mac, Message(lastHash, id, seqNo, it.lat, it.lng, Millis(it.at), it.mock));
      trail := trail[seqNo := Row(it.lat, it.lng, Stored(it.at), it.mock, hash)];
      lastSeq, lastHash, lastClientSeq, points := seqNo, hash, it.n, points + 1;
      if it.mock {
        mocks := mocks + 1;
      }
      if lastPointAt.None? || it.at > lastPointAt.value {
        lastPointAt := Some(it.at);
      }
      return true;
    }

    method Ingest(caller: nat, samples: seq<Sample>, now: int) returns (r: Result<Response, Error>)
      modifies this`lastSeq, this`lastHash, this`lastClientSeq, this`points, this`mocks, this`lastPointAt, this`trail
      ensures (Contents(), r) == Tracking.Ingest(mac, old(Contents()), caller, samples, now)
      ensures r == Failure(ShiftNotFound) <==> caller != driver
      ensures r == Failure(ShiftClosed) <==>
        caller == driver && endedAt.Some? && now > endedAt.value + 30 * 60 * 1_000_000
      ensures r == Failure(InvalidPoint) <==>
        caller == driver && !(endedAt.Some? && now > endedAt.value + 30 * 60 * 1_000_000)
        && exists i :: 0 <= i < |samples| && samples[i].at > now + 2 * 60 * 1_000_000
      ensures r.Failure? ==> Contents() == old(Contents())
    {
      hide Append, PointHash, Sorted;
      if driver != caller {
        return Failure(ShiftNotFound);
      }
      if endedAt.Some? && now - endedAt.value > LATE_FLUSH_GRACE {
        return Failure(ShiftClosed);
      }
      var future := AnyInFuture(samples, now);
      if future {
        return Failure(InvalidPoint);
      }
      var items := new Sample[|samples|](k requires 0 <= k < |samples| => samples[k]);
      assert items[..] == samples;
      Sort(items);
      var accepted, ignored := 0, 0;
      var i := 0;
      while i < items.Length
        invariant 0 <= i <= items.Length
        invariant items[..] == Sorted(samples)
        invariant TakeAll(mac, Tally(Contents(), accepted, ignored), items[i..])
               == TakeAll(mac, Tally(old(Contents()), 0, 0), Sorted(samples))
      {
        var it := items[i];
        assert items[i..][0] == it && items[i..][1..] == items[i + 1..];
        var took := Extend(it);
        if took {
          accepted := accepted + 1;
        } else {
          ignored := ignored + 1;
        }
        i := i + 1;
      }
      return Success(Response(accepted, ignored, lastClientSeq));
    }

    /** Reads the stored trail pageSize points at a time; the page size does not matter. */
    method VerifyShift(sh: Shift, pageSize: nat) returns (v: Verdict)
      requires pageSize > 0
      ensures v == Verify(mac, sh, trail)
    {
      hide PointHash, Page;
      var c := BEGIN;
      var more := true;
      while more
        invariant CheckAll(mac, sh.id, c, Rest(trail, c.after)) == CheckAll(mac, sh.id, BEGIN, Rest(trail, 0))
        invariant !more ==> Rest(trail, c.after) == []
        decreases more, |Rest(trail, c.after)|
      {
        var batch := Page(trail, c.after, pageSize);
        TrackingLaws.PageIsPrefix(trail, c.after, pageSize);
        ghost var rest := Rest(trail, c.after);
        if |batch| == 0 {
          more := false;
        } else {
          var i := 0;
          while i < |batch|
            invariant 0 <= i <= |batch|
            invariant CheckAll(mac, sh.id, c, rest[i..]) == CheckAll(mac, sh.id, BEGIN, Rest(trail, 0))
            invariant i > 0 ==> c.after == batch[i - 1].seqNo
          {
            var p := batch[i];
            assert rest[i..][0] == p && rest[i..][1..] == rest[i + 1..];
            var seen := c.v.(checked := c.v.checked + 1);
            if p.seqNo != c.expectSeq {
              seen := Bad(seen, p.seqNo, MissingPoint);
            }
            var want := PointHash(mac, Message(c.prev, sh.id, p.seqNo, p.row.lat, p.row.lng, p.row.at, p.row.mock));
            if want != p.row.hash {
              seen := Bad(seen, p.seqNo, BadSignature);
            }
            c := Cursor(seen, p.row.hash, p.seqNo + 1, p.seqNo);
            i := i + 1;
          }
        }
      }
      v := c.v;
      if v.valid && v.checked != sh.points {
        v := v.(valid := false, problem := Some(WrongCount(sh.points, v.checked)));
      }
      if v.valid && sh.lastHash != "" && c.prev != sh.lastHash && v.checked > 0 {
        v := v.(valid := false, problem := Some(WrongHead));
      }
    }
  }
}
