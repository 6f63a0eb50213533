/** The persisted segment ledger (src/resume.rs): its fixed tiling, what makes a stored ledger
    acceptable, and the ranges read off it. */
module Segments {
  import opened Ranges
  import opened Extents

  const METADATA_VERSION: nat := 2
  const DEFAULT_SEGMENT_SIZE: nat := 64 * 1024

  datatype Segment = Segment(range: Range, hash: Option<nat>)

  datatype Metadata = Metadata(version: nat, fileSize: nat, segmentSize: nat, segments: seq<Segment>)

  // ----- the tiling

  function SegmentCount(size: nat, step: nat): nat
    requires step > 0
  {
    (size + step - 1) / step
  }

  function Tile(size: nat, step: nat, i: nat): Range
    requires step > 0
  {
    Range(i * step, Min(i * step + step, size) - 1)
  }

  function Layout(size: nat, step: nat): (rs: seq<Range>)
    requires step > 0
    ensures |rs| == SegmentCount(size, step)
  {
    seq(SegmentCount(size, step), i requires i >= 0 => Tile(size, step, i))
  }

  lemma CountIff(size: nat, step: nat, i: nat)
    requires step > 0
    ensures i < SegmentCount(size, step) <==> i * step < size
  {
    var n := SegmentCount(size, step);
    assert n * step <= size + step - 1 < n * step + step;
    if i < n {
      Scale(i + 1, n, step);
    } else {
      Scale(n, i, step);
    }
  }

  lemma Scale(a: nat, b: nat, step: nat)
    requires a <= b
    ensures a * step <= b * step
    ensures (a + 1) * step == a * step + step
  {
  }

  lemma TileFacts(size: nat, step: nat, i: nat)
    requires step > 0 && i < SegmentCount(size, step)
    ensures i * step < size && Tile(size, step, i).start <= Tile(size, step, i).end < size
    ensures if i + 1 < SegmentCount(size, step) then Tile(size, step, i).end + 1 == Tile(size, step, i + 1).start
            else Tile(size, step, i).end == size - 1
  {
    CountIff(size, step, i);
    CountIff(size, step, i + 1);
    Scale(i, i, step);
  }

  lemma TileOrder(size: nat, step: nat, i: nat, j: nat)
    requires step > 0 && i < j
    ensures Tile(size, step, i).end < Tile(size, step, j).start
  {
    Scale(i + 1, j, step);
    Scale(i, i, step);
  }

  /** Every tile is nonempty and they follow one another without a gap, from 0 to the last byte. */
  lemma LayoutTiles(size: nat, step: nat)
    requires step > 0
    ensures var rs := Layout(size, step);
      && Ascending(rs)
      && (forall i | 0 <= i < |rs| :: rs[i].start <= rs[i].end < size)
      && (forall i | 0 <= i < |rs| - 1 :: rs[i].end + 1 == rs[i + 1].start)
      && (if size == 0 then rs == [] else rs != [] && rs[0].start == 0 && rs[|rs| - 1].end == size - 1)
  {
    FirstTile(size, step);
    hide Tile, SegmentCount;
    var rs := Layout(size, step);
    forall i | 0 <= i < |rs|
      ensures rs[i].start <= rs[i].end < size
      ensures if i + 1 < |rs| then rs[i].end + 1 == rs[i + 1].start else rs[i].end == size - 1
    {
      TileFacts(size, step, i);
    }
    forall i, j | 0 <= i < j < |rs| ensures rs[i].end < rs[j].start {
      TileOrder(size, step, i, j);
    }
  }

  lemma FirstTile(size: nat, step: nat)
    requires step > 0
    ensures Tile(size, step, 0).start == 0
    ensures SegmentCount(size, step) == 0 <==> size == 0
  {
    CountIff(size, step, 0);
  }

  /** A byte of the file lies in the tile its quotient names, and in no other. */
  lemma TileOf(size: nat, step: nat, x: nat, i: nat)
    requires step > 0 && x < size
    ensures In(x, Tile(size, step, i)) <==> i == x / step
    ensures x / step < SegmentCount(size, step)
  {
    var q := x / step;
    assert q * step <= x < q * step + step;
    CountIff(size, step, q);
    if i < q {
      Scale(i + 1, q, step);
      Scale(i, i, step);
    } else if i > q {
      Scale(q + 1, i, step);
      Scale(q, q, step);
    }
  }

  /** The positions that a write starting inside the file is looked up at are exactly the tiles it
      touches. */
  lemma OverlapIff(size: nat, step: nat, first: nat, last: nat, i: nat)
    requires step > 0 && first <= last && first < size && i < SegmentCount(size, step)
    ensures first / step <= i <= Min(last / step, SegmentCount(size, step) - 1)
            <==> exists x :: first <= x <= last && In(x, Tile(size, step, i))
  {
    var t := Tile(size, step, i);
    CountIff(size, step, i);
    QuotientIff(first, step, i);
    QuotientIff(last, step, i);
    if first < i * step + step && i * step <= last {
      assert In(Max(first, t.start), t);
    }
  }

  lemma QuotientIff(x: nat, step: nat, i: nat)
    requires step > 0
    ensures x / step <= i <==> x < i * step + step
    ensures x / step >= i <==> i * step <= x
  {
    var q := x / step;
    assert q * step <= x < q * step + step;
    if q < i {
      Scale(q + 1, i, step);
      Scale(q, i, step);
    } else {
      Scale(i, q, step);
      if q > i {
        Scale(i + 1, q, step);
        Scale(i, i, step);
      }
    }
  }

  // ----- a new ledger, and which stored ones are accepted

  function Unhashed(rs: seq<Range>): seq<Segment> {
    seq(|rs|, i requires 0 <= i < |rs| => Segment(rs[i], None))
  }

  function New(size: nat, segmentSize: nat): Metadata {
    var step := Max(segmentSize, 1);
    Metadata(METADATA_VERSION, size, step, Unhashed(Layout(size, step)))
  }

  method BuildMetadata(size: nat, segmentSize: nat) returns (m: Metadata)
    ensures m == New(size, segmentSize)
  {
    hide Layout;
    var step := Max(segmentSize, 1);
    ghost var layout := Layout(size, step);
    LayoutTiles(size, step);
    var segments: seq<Segment> := [];
    var start := 0;
    while start < size
      invariant |segments| <= |layout| && segments == Unhashed(layout)[..|segments|]
      invariant start == if segments == [] then 0 else layout[|segments| - 1].end + 1
      decreases size - start
    {
      NextTile(size, step, |segments|);
      var end := Min(start + step - 1, size - 1);
      segments := segments + [Segment(Range(start, end), None)];
      start := end + 1;
    }
    m := Metadata(METADATA_VERSION, size, step, segments);
  }

  /** The tile after the first n, as both loops over the tiling compute it. */
  lemma NextTile(size: nat, step: nat, n: nat)
    requires step > 0 && n <= |Layout(size, step)|
    ensures var start := if n == 0 then 0 else Layout(size, step)[n - 1].end + 1;
      && (n < |Layout(size, step)| <==> start < size)
      && (n < |Layout(size, step)| ==> Layout(size, step)[n] == Range(start, Min(start + step - 1, size - 1)))
  {
    LayoutTiles(size, step);
    if n == |Layout(size, step)| {
    } else if n > 0 {
      assert Layout(size, step)[n - 1].end + 1 == Layout(size, step)[n].start;
    }
  }

  function RangesOf(m: Metadata): seq<Range> {
    seq(|m.segments|, i requires 0 <= i < |m.segments| => m.segments[i].range)
  }

  /** The current version, for this file size, with exactly the ranges a new ledger would have. */
  ghost predicate Shaped(m: Metadata, fileSize: nat) {
    && m.version == METADATA_VERSION && m.fileSize == fileSize && m.segmentSize > 0
    && RangesOf(m) == Layout(fileSize, m.segmentSize)
  }

  datatype ShapeError =
    | UnsupportedVersion
    | OtherFileSize
    | ZeroSegmentSize
    | ExtraSegment(index: nat)
    | WrongRange(index: nat)
    | EndsAt(start: nat)

  method ValidateShape(m: Metadata, fileSize: nat) returns (error: Option<ShapeError>)
    ensures error == None <==> Shaped(m, fileSize)
    ensures error == Some(UnsupportedVersion) <==> m.version != METADATA_VERSION
  {
    if m.version != METADATA_VERSION {
      return Some(UnsupportedVersion);
    }
    if m.fileSize != fileSize {
      return Some(OtherFileSize);
    }
    if m.segmentSize == 0 {
      return Some(ZeroSegmentSize);
    }
    hide Layout;
    ghost var layout := Layout(fileSize, m.segmentSize);
    var expectedStart := 0;
    var index := 0;
    while index < |m.segments|
      invariant index <= |m.segments| && index <= |layout|
      invariant forall k | 0 <= k < index :: m.segments[k].range == layout[k]
      invariant expectedStart == if index == 0 then 0 else layout[index - 1].end + 1
    {
      NextTile(fileSize, m.segmentSize, index);
      if expectedStart >= fileSize {
        return Some(ExtraSegment(index));
      }
      var expectedEnd := Min(expectedStart + (m.segmentSize - 1), fileSize - 1);
      if m.segments[index].range != Range(expectedStart, expectedEnd) {
        assert RangesOf(m)[index] != layout[index];
        return Some(WrongRange(index));
      }
      expectedStart := expectedEnd + 1;
      index := index + 1;
    }
    NextTile(fileSize, m.segmentSize, index);
    EndOfLayout(fileSize, m.segmentSize, index);
    if expectedStart != fileSize {
      return Some(EndsAt(expectedStart));
    }
    assert RangesOf(m) == layout;
    return None;
  }

  lemma EndOfLayout(size: nat, step: nat, n: nat)
    requires step > 0 && n <= |Layout(size, step)|
    ensures (if n == 0 then 0 else Layout(size, step)[n - 1].end + 1) <= size
    ensures n == |Layout(size, step)| <==> (if n == 0 then 0 else Layout(size, step)[n - 1].end + 1) == size
  {
    NextTile(size, step, n);
    LayoutTiles(size, step);
  }

  /** A stored ledger is accepted if and only if it is a new one with other hashes. */
  lemma ShapedIffNewWithHashes(m: Metadata, fileSize: nat)
    ensures Shaped(m, fileSize)
        <==> (m.segmentSize > 0 && m.(segments := Unhashed(RangesOf(m))) == New(fileSize, m.segmentSize))
  {
    if m.segmentSize > 0 {
      var layout := Layout(fileSize, m.segmentSize);
      if Unhashed(RangesOf(m)) == Unhashed(layout) {
        forall i | 0 <= i < |layout| ensures RangesOf(m)[i] == layout[i] {
          assert Unhashed(RangesOf(m))[i].range == Unhashed(layout)[i].range;
        }
        assert |Unhashed(RangesOf(m))| == |Unhashed(layout)|;
        assert RangesOf(m) == layout;
      }
    }
  }

  // ----- the ranges read off a ledger

  /** The ranges of the segments that have a hash, or of those that have none. */
  function Picked(segments: seq<Segment>, hashed: bool): seq<Range> {
    if segments == [] then []
    else (if segments[0].hash.Some? == hashed then [segments[0].range] else []) + Picked(segments[1..], hashed)
  }

  function VerifiedRanges(m: Metadata): seq<Range> {
    MergeRuns(Picked(m.segments, true))
  }

  function RemainingRanges(m: Metadata): seq<Range> {
    MergeRuns(Picked(m.segments, false))
  }

  function CompletedBytes(m: Metadata): nat {
    TotalLength(Picked(m.segments, true))
  }

  function TotalLength(rs: seq<Range>): nat {
    if rs == [] then 0 else Len(rs[0]) + TotalLength(rs[1..])
  }

  lemma {:induction false} TotalIsSum(rs: seq<Range>)
    ensures TotalLength(rs) == Sum(rs, Length())
  {
    if rs != [] {
      TotalIsSum(rs[1..]);
    }
  }

  lemma {:induction false} PickedSum(segments: seq<Segment>, rs: seq<Range>, f: Range -> int)
    requires |segments| == |rs| && forall i | 0 <= i < |rs| :: segments[i].range == rs[i]
    ensures Sum(Picked(segments, true), f) + Sum(Picked(segments, false), f) == Sum(rs, f)
  {
    if segments != [] {
      PickedSum(segments[1..], rs[1..], f);
      var hashed := segments[0].hash.Some?;
      SumAppend([segments[0].range], Picked(segments[1..], hashed), f);
      SumOne(segments[0].range, f);
      assert Picked(segments, !hashed) == Picked(segments[1..], !hashed);
    }
  }

  lemma {:induction false} PickedAscends(segments: seq<Segment>, rs: seq<Range>, hashed: bool)
    requires |segments| == |rs| && forall i | 0 <= i < |rs| :: segments[i].range == rs[i]
    requires Ascending(rs)
    ensures Ascending(Picked(segments, hashed))
    ensures forall r :: r in Picked(segments, hashed) ==> r in rs
  {
    assert segments != [] ==> Ascending(rs[1..]);
    hide Ascending;
    if segments != [] {
      PickedAscends(segments[1..], rs[1..], hashed);
      HeadAscends(rs, Picked(segments[1..], hashed));
    }
  }

  /** In front of ranges taken from the tail, the head keeps the order. */
  lemma HeadAscends(rs: seq<Range>, tail: seq<Range>)
    requires rs != [] && Ascending(rs) && Ascending(tail) && forall r :: r in tail ==> r in rs[1..]
    ensures Ascending([rs[0]] + tail)
    ensures forall r :: r in [rs[0]] + tail ==> r in rs
    ensures forall r :: r in tail ==> r in rs
  {
    forall k | 0 <= k < |tail| ensures rs[0].end < tail[k].start {
      assert tail[k] in rs[1..];
    }
  }

  ghost predicate SplitsAt(f: Range -> int, a: nat, m: int, b: int)
    requires a <= m < b
  {
    f(Range(a, m)) + f(Range(m + 1, b)) == f(Range(a, b))
  }

  /** Worth the same over a range and over its two parts, wherever it is cut. */
  ghost predicate Splits(f: Range -> int) {
    forall a: nat, m: int, b: int | a <= m < b :: SplitsAt(f, a, m, b)
  }

  lemma {:induction false} MergeEnds(rs: seq<Range>)
    requires Ascending(rs)
    ensures MergeRuns(rs) == [] <==> rs == []
    ensures rs != [] ==> MergeRuns(rs)[|MergeRuns(rs)| - 1].end == rs[|rs| - 1].end
    ensures forall i | 0 <= i < |MergeRuns(rs)| :: MergeRuns(rs)[i].start <= MergeRuns(rs)[i].end
    decreases |rs|
  {
    hide Absorb;
    if rs != [] {
      MergeEnds(rs[..|rs| - 1]);
      assert |rs| > 1 ==> rs[|rs| - 2].end < rs[|rs| - 1].start;
      AbsorbEnds(MergeRuns(rs[..|rs| - 1]), rs[|rs| - 1]);
    }
  }

  lemma AbsorbEnds(m: seq<Range>, r: Range)
    requires r.start <= r.end && (m != [] ==> m[|m| - 1].end < r.start)
    requires forall i | 0 <= i < |m| :: m[i].start <= m[i].end
    ensures var t := Absorb(m, r);
      t != [] && t[|t| - 1].end == r.end && forall i | 0 <= i < |t| :: t[i].start <= t[i].end
  {
  }

  lemma {:induction false} MergeKeepsSum(rs: seq<Range>, f: Range -> int)
    requires Ascending(rs) && Splits(f)
    ensures Sum(MergeRuns(rs), f) == Sum(rs, f)
    decreases |rs|
  {
    hide Splits;
    if rs != [] {
      var front, last := rs[..|rs| - 1], rs[|rs| - 1];
      MergeKeepsSum(front, f);
      MergeEnds(front);
      assert rs == front + [last];
      SumSnoc(front, last, f);
      assert front != [] ==> front[|front| - 1].end < last.start;
      AbsorbSum(MergeRuns(front), last, f);
    }
  }

  lemma AbsorbSum(m: seq<Range>, r: Range, f: Range -> int)
    requires Splits(f) && r.start <= r.end
    requires m != [] ==> m[|m| - 1].start <= m[|m| - 1].end < r.start
    ensures Sum(Absorb(m, r), f) == Sum(m, f) + f(r)
  {
    hide Sum;
    if m != [] && r.start <= m[|m| - 1].end + 1 {
      var front, last := m[..|m| - 1], m[|m| - 1];
      assert m == front + [last] && Absorb(m, r) == front + [Range(last.start, r.end)];
      SumSnoc(front, last, f);
      SumSnoc(front, Range(last.start, r.end), f);
      assert SplitsAt(f, last.start, last.end, r.end);
      assert Range(last.start, last.end) == last && Range(last.end + 1, r.end) == r;
    } else {
      SumSnoc(m, r, f);
    }
  }

  lemma {:induction false} LayoutSum(rs: seq<Range>, f: Range -> int, start: nat, end: int)
    requires Splits(f) && rs != [] && Ascending(rs)
    requires forall i | 0 <= i < |rs| - 1 :: rs[i].end + 1 == rs[i + 1].start
    requires rs[0].start == start && rs[|rs| - 1].end == end
    ensures Sum(rs, f) == f(Range(start, end)) && start <= end
    decreases |rs|
  {
    var front, last := rs[..|rs| - 1], rs[|rs| - 1];
    assert rs == front + [last];
    SumSnoc(front, last, f);
    if front == [] {
      assert Range(start, end) == last;
    } else {
      LayoutSum(front, f, start, front[|front| - 1].end);
      assert SplitsAt(f, start, front[|front| - 1].end, end);
      assert Range(front[|front| - 1].end + 1, end) == last;
    }
  }

  /** Whatever splits over ranges, the verified and the remaining ranges share out the whole file. */
  lemma LedgerBalances(m: Metadata, fileSize: nat, f: Range -> int)
    requires Shaped(m, fileSize) && Splits(f)
    ensures Sum(VerifiedRanges(m), f) + Sum(RemainingRanges(m), f)
         == if fileSize == 0 then 0 else f(Range(0, fileSize - 1))
    ensures Sum(VerifiedRanges(m), f) == Sum(Picked(m.segments, true), f)
  {
    hide Splits, Layout, MergeRuns, Picked;
    var rs := RangesOf(m);
    LayoutTiles(fileSize, m.segmentSize);
    PickedSum(m.segments, rs, f);
    PickedAscends(m.segments, rs, true);
    PickedAscends(m.segments, rs, false);
    MergeKeepsSum(Picked(m.segments, true), f);
    MergeKeepsSum(Picked(m.segments, false), f);
    if fileSize > 0 {
      LayoutSum(rs, f, 0, fileSize - 1);
    }
  }

  /** Completed and remaining bytes add up to the file, and every byte of the file is in exactly one
      verified or remaining range. */
  lemma LedgerPartitions(m: Metadata, fileSize: nat, x: int)
    requires Shaped(m, fileSize)
    ensures CompletedBytes(m) + Sum(RemainingRanges(m), Length()) == fileSize
    ensures Sum(VerifiedRanges(m), Holds(x)) + Sum(RemainingRanges(m), Holds(x)) == if 0 <= x < fileSize then 1 else 0
  {
    hide VerifiedRanges, RemainingRanges, Splits, Shaped;
    LengthsSplit(x);
    LedgerBalances(m, fileSize, Length());
    LedgerBalances(m, fileSize, Holds(x));
    TotalIsSum(Picked(m.segments, true));
  }

  lemma LengthsSplit(x: int)
    ensures Splits(Length()) && Splits(Holds(x))
  {
  }
}
