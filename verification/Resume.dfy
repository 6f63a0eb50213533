/** What a session starts from (src/resume.rs, ResumePlan): the stored ledger checked against the
    file, and the ranges that are left. */
module Resume {
  import opened Ranges
  import opened Extents
  import opened Files
  import opened Segments
  import opened Protocol
  import opened Split
  import opened Lanes

  // ----- checking a ledger against the file

  function Recheck(s: Segment, file: seq<Byte>, h: Hash): Segment {
    if s.hash.Some? && s.range.start <= s.range.end
       && (|file| <= s.range.end || h(Slice(file, s.range)) != s.hash.value)
    then s.(hash := None) else s
  }

  function Rechecked(m: Metadata, file: seq<Byte>, h: Hash): Metadata {
    m.(segments := seq(|m.segments|, i requires 0 <= i < |m.segments| => Recheck(m.segments[i], file, h)))
  }

  method VerifyAgainstFile(m: Metadata, file: seq<Byte>, h: Hash) returns (r: Metadata)
    requires forall i | 0 <= i < |m.segments| :: m.segments[i].range.start <= m.segments[i].range.end
    ensures r == Rechecked(m, file, h)
  {
    var segments := m.segments;
    var i := 0;
    while i < |segments|
      invariant i <= |segments| == |m.segments|
      invariant forall k | 0 <= k < i :: segments[k] == Recheck(m.segments[k], file, h)
      invariant forall k | i <= k < |segments| :: segments[k] == m.segments[k]
    {
      var s := segments[i];
      if s.hash.Some? {
        if |file| <= s.range.end {
          segments := segments[i := s.(hash := None)];
        } else if h(Slice(file, s.range)) != s.hash.value {
          segments := segments[i := s.(hash := None)];
        }
      }
      i := i + 1;
    }
    r := m.(segments := segments);
  }

  /** What a hash in a stored ledger promises: it is the hash of the source's bytes there. */
  ghost predicate Honest(m: Metadata, source: seq<Byte>, h: Hash) {
    forall i | 0 <= i < |m.segments| && m.segments[i].hash.Some? ::
      && m.segments[i].range.start <= m.segments[i].range.end < |source|
      && m.segments[i].hash.value == h(Slice(source, m.segments[i].range))
  }

  /** No other content of a segment's length has the hash of the source's segment. */
  ghost predicate CollisionFree(h: Hash, source: seq<Byte>, rs: seq<Range>) {
    forall i, data: seq<Byte> | 0 <= i < |rs| && rs[i].start <= rs[i].end < |source|
      && |data| == Len(rs[i]) && h(data) == h(Slice(source, rs[i])) :: data == Slice(source, rs[i])
  }

  /** After the check a segment has a hash exactly if it had one that still fits the file; what is
      verified then is on disk, byte for byte. */
  lemma RecheckedIsRight(m: Metadata, fileSize: nat, file: seq<Byte>, source: seq<Byte>, h: Hash)
    requires Shaped(m, fileSize) && |source| == fileSize
    requires Honest(m, source, h) && CollisionFree(h, source, RangesOf(m))
    ensures Shaped(Rechecked(m, file, h), fileSize) && Honest(Rechecked(m, file, h), source, h)
    ensures forall x | Covered(VerifiedRanges(Rechecked(m, file, h)), x) :: Right(file, source, x)
  {
    var r := Rechecked(m, file, h);
    LayoutTiles(fileSize, m.segmentSize);
    assert RangesOf(r) == RangesOf(m);
    VerifiedAre(r, fileSize);
    forall x | Covered(VerifiedRanges(r), x) ensures Right(file, source, x) {
      var i :| 0 <= i < |r.segments| && r.segments[i].hash.Some? && In(x, r.segments[i].range);
      SegmentOnDisk(r.segments[i], RangesOf(m), i, file, source, h, x);
    }
  }

  lemma SegmentOnDisk(s: Segment, rs: seq<Range>, i: nat, file: seq<Byte>, source: seq<Byte>, h: Hash, x: int)
    requires i < |rs| && s.range == rs[i] && s.hash.Some? && s.range.start <= s.range.end < |source|
    requires s.range.end < |file| && h(Slice(file, s.range)) == s.hash.value == h(Slice(source, s.range))
    requires CollisionFree(h, source, rs) && In(x, s.range)
    ensures Right(file, source, x)
  {
    assert Slice(file, s.range) == Slice(source, s.range);
    assert Slice(file, s.range)[x - s.range.start] == Slice(source, s.range)[x - s.range.start];
  }

  // ----- verified and remaining ranges

  ghost predicate InSegment(segments: seq<Segment>, hashed: bool, x: int) {
    exists i :: 0 <= i < |segments| && segments[i].hash.Some? == hashed && In(x, segments[i].range)
  }

  lemma {:induction false} PickedCovers(segments: seq<Segment>, hashed: bool, x: int)
    ensures Covered(Picked(segments, hashed), x) <==> InSegment(segments, hashed, x)
  {
    if segments != [] {
      PickedCovers(segments[1..], hashed, x);
      var head := if segments[0].hash.Some? == hashed then [segments[0].range] else [];
      CoveredAppend(head, Picked(segments[1..], hashed), x);
      assert head != [] ==> (In(x, head[0]) <==> Covered(head, x));
      if InSegment(segments[1..], hashed, x) {
        var i :| 0 <= i < |segments[1..]| && segments[1..][i].hash.Some? == hashed && In(x, segments[1..][i].range);
        assert segments[i + 1] == segments[1..][i];
      }
      if exists i :: 0 < i < |segments| && segments[i].hash.Some? == hashed && In(x, segments[i].range) {
        var i :| 0 < i < |segments| && segments[i].hash.Some? == hashed && In(x, segments[i].range);
        assert segments[i] == segments[1..][i - 1];
      }
    }
  }

  lemma RangesAre(m: Metadata, fileSize: nat, hashed: bool)
    requires Shaped(m, fileSize)
    ensures Canonical(MergeRuns(Picked(m.segments, hashed)))
    ensures forall x :: Covered(MergeRuns(Picked(m.segments, hashed)), x) <==> InSegment(m.segments, hashed, x)
  {
    LayoutTiles(fileSize, m.segmentSize);
    PickedAscends(m.segments, RangesOf(m), hashed);
    MergeCanonical(Picked(m.segments, hashed));
    forall x ensures Covered(Picked(m.segments, hashed), x) <==> InSegment(m.segments, hashed, x) {
      PickedCovers(m.segments, hashed, x);
    }
  }

  lemma VerifiedAre(m: Metadata, fileSize: nat)
    requires Shaped(m, fileSize)
    ensures Canonical(VerifiedRanges(m))
    ensures forall x :: Covered(VerifiedRanges(m), x) <==> InSegment(m.segments, true, x)
  {
    RangesAre(m, fileSize, true);
  }

  /** What is left of [0, size) besides `remaining`, from `cursor` on, as the plan computes it. */
  function Complement(remaining: seq<Range>, size: nat, cursor: nat): seq<Range>
    decreases |remaining|
  {
    if size == 0 then []
    else if remaining == [] then (if cursor < size then [Range(cursor, size - 1)] else [])
    else
      var start, end := Min(remaining[0].start, size - 1), Min(remaining[0].end, size - 1);
      var head := if start > cursor then [Range(cursor, start - 1)] else [];
      var next := Max(cursor, end + 1);
      if next >= size then head else head + Complement(remaining[1..], size, next)
  }

  lemma ComplementUnfolds(remaining: seq<Range>, size: nat, cursor: nat)
    requires remaining != [] && size > 0
    ensures var start, end := Min(remaining[0].start, size - 1), Min(remaining[0].end, size - 1);
      var next := Max(cursor, end + 1);
      Complement(remaining, size, cursor)
      == (if start > cursor then [Range(cursor, start - 1)] else [])
         + if next >= size then [] else Complement(remaining[1..], size, next)
  {
  }

  lemma ComplementEnds(remaining: seq<Range>, size: nat, cursor: nat)
    requires remaining == [] || size == 0
    ensures Complement(remaining, size, cursor) == if size > 0 && cursor < size then [Range(cursor, size - 1)] else []
  {
  }

  method PlanVerifiedRanges(remaining: seq<Range>, size: nat) returns (covered: seq<Range>)
    ensures covered == Complement(remaining, size, 0)
  {
    hide Complement;
    covered := [];
    var cursor := 0;
    var i := 0;
    while i < |remaining|
      invariant 0 <= i <= |remaining| && 0 <= cursor && (size > 0 ==> cursor < size)
      invariant covered + Complement(remaining[i..], size, cursor) == Complement(remaining, size, 0)
    {
      if size == 0 {
        break;
      }
      ComplementUnfolds(remaining[i..], size, cursor);
      var start, end := Min(remaining[i].start, size - 1), Min(remaining[i].end, size - 1);
      ghost var rest := if Max(cursor, end + 1) >= size then []
                        else Complement(remaining[i..][1..], size, Max(cursor, end + 1));
      if start > cursor {
        assert covered + ([Range(cursor, start - 1)] + rest) == (covered + [Range(cursor, start - 1)]) + rest;
        covered := covered + [Range(cursor, start - 1)];
      } else {
        assert [] + rest == rest;
      }
      cursor := Max(cursor, end + 1);
      assert remaining[i..][1..] == remaining[i + 1..];
      if cursor >= size {
        return;
      }
      i := i + 1;
    }
    ComplementEnds(remaining[i..], size, cursor);
    if size > 0 && cursor < size {
      covered := covered + [Range(cursor, size - 1)];
    }
  }

  lemma GapInFront(cursor: nat, start: nat, later: seq<Range>)
    requires cursor <= start && Canonical(later)
    requires forall i | 0 <= i < |later| :: start < later[i].start
    ensures var c := (if start > cursor then [Range(cursor, start - 1)] else []) + later;
      Canonical(c) && (forall i | 0 <= i < |c| :: cursor <= c[i].start)
  {
    if start == cursor {
      assert [] + later == later;
    }
  }

  lemma {:induction false} ComplementCanonical(remaining: seq<Range>, size: nat, cursor: nat)
    requires Canonical(remaining)
    requires forall i | 0 <= i < |remaining| :: cursor <= remaining[i].start && remaining[i].end < size
    ensures var c := Complement(remaining, size, cursor);
      Canonical(c) && (forall i | 0 <= i < |c| :: cursor <= c[i].start)
    decreases |remaining|
  {
    hide Complement;
    if remaining == [] {
      ComplementEnds(remaining, size, cursor);
    } else {
      var r, tail := remaining[0], remaining[1..];
      assert forall i | 0 <= i < |tail| :: tail[i] == remaining[i + 1];
      ComplementUnfolds(remaining, size, cursor);
      if r.end + 1 < size {
        ComplementCanonical(tail, size, r.end + 1);
        GapInFront(cursor, r.start, Complement(tail, size, r.end + 1));
      } else {
        GapInFront(cursor, r.start, []);
      }
    }
  }

  lemma {:induction false} ComplementCovers(remaining: seq<Range>, size: nat, cursor: nat, x: int)
    requires Canonical(remaining)
    requires forall i | 0 <= i < |remaining| :: cursor <= remaining[i].start && remaining[i].end < size
    ensures Covered(Complement(remaining, size, cursor), x) <==> cursor <= x < size && !Covered(remaining, x)
    decreases |remaining|
  {
    hide Covered, Canonical;
    if remaining == [] {
      CoveredOne(Range(cursor, size - 1), x);
      NoneCovered(x);
    } else {
      var r, tail := remaining[0], remaining[1..];
      SplitsOff(remaining, x);
      NoneCovered(x);
      if r.start > cursor {
        CoveredOne(Range(cursor, r.start - 1), x);
      }
      if r.end + 1 < size {
        ComplementCovers(tail, size, r.end + 1, x);
        var head := if r.start > cursor then [Range(cursor, r.start - 1)] else [];
        CoveredAppend(head, Complement(tail, size, r.end + 1), x);
      } else if Covered(tail, x) {
        CoveredSomewhere(tail, x);
      }
    }
  }

  lemma CoveredOne(r: Range, x: int)
    ensures Covered([r], x) <==> In(x, r)
  {
    assert In(x, r) ==> In(x, [r][0]);
  }

  lemma CoveredSomewhere(rs: seq<Range>, x: int)
    requires Covered(rs, x)
    ensures exists i :: 0 <= i < |rs| && In(x, rs[i])
  {
  }

  lemma SplitsOff(rs: seq<Range>, x: int)
    requires rs != [] && Canonical(rs)
    ensures Canonical(rs[1..]) && rs[0].start <= rs[0].end
    ensures Covered(rs, x) <==> In(x, rs[0]) || Covered(rs[1..], x)
    ensures Covered(rs[1..], x) ==> x > rs[0].end
    ensures forall i | 0 <= i < |rs[1..]| :: rs[1..][i] == rs[i + 1] && rs[0].end + 1 < rs[1..][i].start
  {
    CanonicalTail(rs, x);
    if In(x, rs[0]) {
      HeadCovers(rs, x);
    }
  }

  /** The two ways of finding the verified ranges, merging the hashed segments and complementing the
      remaining ranges, give the same list for every ledger of the right shape. */
  lemma VerifiedRangesAgree(m: Metadata, fileSize: nat)
    requires Shaped(m, fileSize)
    ensures Complement(RemainingRanges(m), fileSize, 0) == VerifiedRanges(m)
  {
    RangesAre(m, fileSize, true);
    RangesAre(m, fileSize, false);
    LayoutTiles(fileSize, m.segmentSize);
    RemainingInside(m, fileSize);
    ComplementCanonical(RemainingRanges(m), fileSize, 0);
    forall x ensures Covered(VerifiedRanges(m), x) <==> Covered(Complement(RemainingRanges(m), fileSize, 0), x) {
      ComplementCovers(RemainingRanges(m), fileSize, 0, x);
      OneSegment(m, fileSize, x);
    }
    CanonicalUnique(Complement(RemainingRanges(m), fileSize, 0), VerifiedRanges(m));
  }

  lemma RemainingInside(m: Metadata, fileSize: nat)
    requires Shaped(m, fileSize)
    ensures forall i | 0 <= i < |RemainingRanges(m)| :: RemainingRanges(m)[i].end < fileSize
  {
    RangesAre(m, fileSize, false);
    LayoutTiles(fileSize, m.segmentSize);
    var rs := RemainingRanges(m);
    forall i | 0 <= i < |rs| ensures rs[i].end < fileSize {
      assert In(rs[i].end, rs[i]) && Covered(rs, rs[i].end);
      var k :| 0 <= k < |m.segments| && m.segments[k].hash.Some? == false && In(rs[i].end, m.segments[k].range);
      assert RangesOf(m)[k] == m.segments[k].range;
    }
  }

  /** Every byte of the file lies in exactly one segment. */
  lemma OneSegment(m: Metadata, fileSize: nat, x: int)
    requires Shaped(m, fileSize)
    ensures 0 <= x < fileSize <==> (exists i :: 0 <= i < |m.segments| && In(x, m.segments[i].range))
    ensures forall i, j | 0 <= i < |m.segments| && 0 <= j < |m.segments|
      && In(x, m.segments[i].range) && In(x, m.segments[j].range) :: i == j
  {
    SegmentsAreTiles(m, fileSize);
    SegmentsNonempty(m, fileSize);
    hide Shaped, Tile, SegmentCount;
    if 0 <= x < fileSize {
      forall i: nat ensures In(x, Tile(fileSize, m.segmentSize, i)) <==> i == x / m.segmentSize {
        TileOf(fileSize, m.segmentSize, x, i);
      }
      TileOf(fileSize, m.segmentSize, x, 0);
      assert In(x, m.segments[x / m.segmentSize].range);
    }
  }

  lemma SegmentsAreTiles(m: Metadata, fileSize: nat)
    requires Shaped(m, fileSize)
    ensures m.segmentSize > 0 && |m.segments| == SegmentCount(fileSize, m.segmentSize)
    ensures forall i | 0 <= i < |m.segments| :: m.segments[i].range == Tile(fileSize, m.segmentSize, i)
  {
    hide Tile, SegmentCount;
    assert |RangesOf(m)| == |m.segments|;
    forall i | 0 <= i < |m.segments| ensures m.segments[i].range == Tile(fileSize, m.segmentSize, i) {
      assert RangesOf(m)[i] == m.segments[i].range;
    }
  }

  // ----- preparing a session

  /** What is found at the sidecar's path; Corrupt does not decode. */
  datatype Sidecar = Absent | Corrupt | Stored(meta: Metadata)

  datatype Plan = Plan(metadata: Option<Metadata>, truncate: bool, remaining: seq<Range>, completed: nat)

  /** Which of the two ways of touching the sidecar succeed. */
  datatype SidecarIo = SidecarIo(removes: bool, saves: bool)

  /** No plan means that preparing failed and the session does not start. */
  datatype Prepared = Prepared(plan: Option<Plan>, sidecar: Sidecar)

  function FullRanges(size: nat): seq<Range> {
    if size == 0 then [] else [Range(0, size - 1)]
  }

  function FromScratch(metadata: Option<Metadata>, size: nat): Plan {
    Plan(metadata, true, FullRanges(size), 0)
  }

  /** A plan that goes on from a checked ledger. */
  function GoOn(m: Metadata): Plan {
    Plan(Some(m), false, RemainingRanges(m), CompletedBytes(m))
  }

  ghost function Prepare(enabled: bool, sidecar: Sidecar, file: Option<seq<Byte>>, size: nat, io: SidecarIo, h: Hash)
    : Prepared
  {
    var removed := if io.removes then Absent else sidecar;
    var rebuilt := New(size, DEFAULT_SEGMENT_SIZE);
    if !enabled then Prepared(Some(FromScratch(None, size)), removed)
    else if file.Some? && sidecar.Stored? && Shaped(sidecar.meta, size) then
      var checked := Rechecked(sidecar.meta, file.value, h);
      if io.saves then Prepared(Some(GoOn(checked)), Stored(checked))
      else Prepared(None, sidecar)
    else Prepared(Some(FromScratch(Some(rebuilt), size)), if io.saves then Stored(rebuilt) else removed)
  }

  method PrepareSession(enabled: bool, sidecar: Sidecar, file: Option<seq<Byte>>, size: nat, io: SidecarIo, h: Hash)
    returns (r: Prepared)
    ensures r == Prepare(enabled, sidecar, file, size, io, h)
  {
    var removed := if io.removes then Absent else sidecar;
    if !enabled {
      return Prepared(Some(FromScratch(None, size)), removed);
    }
    if file.Some? && sidecar.Stored? {
      var error := ValidateShape(sidecar.meta, size);
      if error == None {
        SegmentsNonempty(sidecar.meta, size);
        var checked := VerifyAgainstFile(sidecar.meta, file.value, h);
        if !io.saves {
          return Prepared(None, sidecar);
        }
        return Prepared(Some(GoOn(checked)), Stored(checked));
      }
    }
    var rebuilt := BuildMetadata(size, DEFAULT_SEGMENT_SIZE);
    r := Prepared(Some(FromScratch(Some(rebuilt), size)), if io.saves then Stored(rebuilt) else removed);
  }

  lemma SegmentsNonempty(m: Metadata, size: nat)
    requires Shaped(m, size)
    ensures forall i | 0 <= i < |m.segments| :: m.segments[i].range.start <= m.segments[i].range.end < size
  {
    LayoutTiles(size, m.segmentSize);
    assert forall i | 0 <= i < |m.segments| :: RangesOf(m)[i] == m.segments[i].range;
  }

  function Trusted(plan: Plan, size: nat): seq<Range> {
    Complement(plan.remaining, size, 0)
  }

  function StartFile(plan: Plan, file: Option<seq<Byte>>): seq<Byte> {
    if plan.truncate || file == None then [] else file.value
  }

  ghost predicate HonestSidecar(sidecar: Sidecar, source: seq<Byte>, h: Hash) {
    sidecar.Stored? && Shaped(sidecar.meta, |source|) ==> Honest(sidecar.meta, source, h)
  }

  /** The hash has no collision on the segments of the stored ledger. */
  ghost predicate SafeHash(sidecar: Sidecar, source: seq<Byte>, h: Hash) {
    sidecar.Stored? && Shaped(sidecar.meta, |source|) ==> CollisionFree(h, source, RangesOf(sidecar.meta))
  }

  lemma NewIsHonest(size: nat, source: seq<Byte>, h: Hash)
    ensures Shaped(New(size, DEFAULT_SEGMENT_SIZE), size) && Honest(New(size, DEFAULT_SEGMENT_SIZE), source, h)
  {
    var m := New(size, DEFAULT_SEGMENT_SIZE);
    assert RangesOf(m) == Layout(size, m.segmentSize);
  }

  lemma FullLeavesNothing(size: nat)
    ensures Complement(FullRanges(size), size, 0) == []
    ensures Ascending(FullRanges(size))
  {
  }

  /** Whatever a crash left on disk, a plan trusts only bytes that are on disk and right; and the
      sidecar stays honest. */
  lemma PlanIsRight(enabled: bool, sidecar: Sidecar, file: Option<seq<Byte>>, io: SidecarIo, source: seq<Byte>, h: Hash)
    requires HonestSidecar(sidecar, source, h) && SafeHash(sidecar, source, h)
    ensures var r := Prepare(enabled, sidecar, file, |source|, io, h);
      && HonestSidecar(r.sidecar, source, h)
      && (r.plan.Some? ==>
            && (r.plan.value.metadata.Some? ==>
                  Shaped(r.plan.value.metadata.value, |source|) && Honest(r.plan.value.metadata.value, source, h)
                  && VerifiedRanges(r.plan.value.metadata.value) == Trusted(r.plan.value, |source|))
            && forall x | Covered(Trusted(r.plan.value, |source|), x) ::
                 Right(StartFile(r.plan.value, file), source, x))
  {
    hide Complement, Shaped, Honest, CollisionFree, Covered, Right, RemainingRanges, VerifiedRanges, Rechecked, New;
    NewIsHonest(|source|, source, h);
    FullLeavesNothing(|source|);
    NewVerifiesNothing(|source|);
    forall x ensures !Covered([], x) {
      NoneCovered(x);
    }
    if file.Some? && sidecar.Stored? && Shaped(sidecar.meta, |source|) {
      RecheckedIsRight(sidecar.meta, |source|, file.value, source, h);
      VerifiedRangesAgree(Rechecked(sidecar.meta, file.value, h), |source|);
    }
  }

  // ----- and nothing that still fits is given up

  /** The file has the bytes that the segment's hash stands for. */
  predicate Stands(s: Segment, file: seq<Byte>, h: Hash) {
    s.hash.Some? && s.range.start <= s.range.end < |file| && h(Slice(file, s.range)) == s.hash.value
  }

  ghost predicate InStanding(m: Metadata, file: seq<Byte>, h: Hash, x: int) {
    exists i :: 0 <= i < |m.segments| && Stands(m.segments[i], file, h) && In(x, m.segments[i].range)
  }

  lemma RecheckedStands(m: Metadata, size: nat, file: seq<Byte>, h: Hash, x: int)
    requires Shaped(m, size)
    ensures InSegment(Rechecked(m, file, h).segments, true, x) <==> InStanding(m, file, h, x)
  {
    SegmentsNonempty(m, size);
    var r := Rechecked(m, file, h);
    if InSegment(r.segments, true, x) {
      var i :| 0 <= i < |r.segments| && r.segments[i].hash.Some? && In(x, r.segments[i].range);
      assert Stands(m.segments[i], file, h);
    }
    if InStanding(m, file, h, x) {
      var i :| 0 <= i < |m.segments| && Stands(m.segments[i], file, h) && In(x, m.segments[i].range);
      assert r.segments[i] == m.segments[i];
    }
  }

  /** A session goes on from what is there: if the ledger has the right shape and can be saved, the file is
      kept, exactly the segments that it still holds are trusted, exactly the others are fetched, and the
      sidecar keeps their hashes. */
  lemma PlanKeepsWhatStands(m: Metadata, file: seq<Byte>, size: nat, io: SidecarIo, h: Hash)
    requires Shaped(m, size) && io.saves
    ensures var r := Prepare(true, Stored(m), Some(file), size, io, h);
      && r.plan.Some? && StartFile(r.plan.value, Some(file)) == file
      && r.sidecar.Stored? && r.plan.value.metadata == Some(r.sidecar.meta)
      && |r.sidecar.meta.segments| == |m.segments|
      && (forall i | 0 <= i < |m.segments| ::
            r.sidecar.meta.segments[i] == if Stands(m.segments[i], file, h) then m.segments[i]
                                          else Segment(m.segments[i].range, None))
      && (forall x :: Covered(Trusted(r.plan.value, size), x) <==> InStanding(m, file, h, x))
      && (forall x :: Covered(r.plan.value.remaining, x) <==> 0 <= x < size && !InStanding(m, file, h, x))
      && r.plan.value.completed == Sum(Trusted(r.plan.value, size), Length())
  {
    hide Complement, RemainingRanges, VerifiedRanges, Covered, InStanding, Shaped, CompletedBytes, Canonical, Stands;
    var checked := Rechecked(m, file, h);
    RecheckedShape(m, size, file, h);
    VerifiedRangesAgree(checked, size);
    CheckedSegments(m, size, file, h);
    forall x
      ensures Covered(VerifiedRanges(checked), x) <==> InStanding(m, file, h, x)
      ensures Covered(RemainingRanges(checked), x) <==> 0 <= x < size && !InStanding(m, file, h, x)
    {
      StandingShares(m, size, file, h, x);
    }
    CompletedIsVerified(checked, size);
  }

  lemma CheckedSegments(m: Metadata, size: nat, file: seq<Byte>, h: Hash)
    requires Shaped(m, size)
    ensures forall i | 0 <= i < |m.segments| ::
      Rechecked(m, file, h).segments[i] == if Stands(m.segments[i], file, h) then m.segments[i]
                                           else Segment(m.segments[i].range, None)
  {
    SegmentsNonempty(m, size);
  }

  lemma StandingShares(m: Metadata, size: nat, file: seq<Byte>, h: Hash, x: int)
    requires Shaped(m, size)
    ensures var checked := Rechecked(m, file, h);
      && (Covered(VerifiedRanges(checked), x) <==> InStanding(m, file, h, x))
      && (Covered(RemainingRanges(checked), x) <==> 0 <= x < size && !InStanding(m, file, h, x))
  {
    hide Covered, Shaped, InStanding;
    var checked := Rechecked(m, file, h);
    RecheckedShape(m, size, file, h);
    RecheckedStands(m, size, file, h, x);
    RangesAre(checked, size, true);
    RangesAre(checked, size, false);
    OneSegment(checked, size, x);
  }

  lemma CompletedIsVerified(m: Metadata, size: nat)
    requires Shaped(m, size)
    ensures CompletedBytes(m) == Sum(VerifiedRanges(m), Length())
  {
    hide VerifiedRanges, Shaped;
    LengthsSplit(0);
    LedgerBalances(m, size, Length());
    TotalIsSum(Picked(m.segments, true));
  }

  /** Otherwise a session starts from an empty file and fetches everything, with a new ledger if it is to
      be resumable; and it does not start at all exactly when a ledger to go on from cannot be saved. */
  lemma ScratchIff(enabled: bool, sidecar: Sidecar, file: Option<seq<Byte>>, size: nat, io: SidecarIo, h: Hash)
    ensures var r := Prepare(enabled, sidecar, file, size, io, h);
      var goesOn := enabled && file.Some? && sidecar.Stored? && Shaped(sidecar.meta, size);
      && (r.plan == None <==> goesOn && !io.saves)
      && (r.plan == None ==> r.sidecar == sidecar)
      && (r.plan.Some? && !goesOn ==>
            && StartFile(r.plan.value, file) == [] && Trusted(r.plan.value, size) == [] && r.plan.value.completed == 0
            && (forall x :: Covered(r.plan.value.remaining, x) <==> 0 <= x < size)
            && (r.plan.value.metadata.Some? <==> enabled)
            && (enabled ==> Shaped(r.plan.value.metadata.value, size)
                            && Hashes(r.plan.value.metadata.value) == 0))
      && (r.plan.Some? && enabled && io.saves ==> r.sidecar == Stored(r.plan.value.metadata.value))
      && (!enabled && io.removes ==> r.sidecar == Absent)
  {
    hide Shaped, Rechecked, RemainingRanges, CompletedBytes, Covered, New, Complement;
    FullLeavesNothing(size);
    NewIsBare(size);
    forall x ensures Covered(FullRanges(size), x) <==> 0 <= x < size {
      NoneCovered(x);
      CoveredOne(Range(0, size - 1), x);
    }
  }

  ghost function HasHash(): Segment -> int {
    (s: Segment) => if s.hash.Some? then 1 else 0
  }

  ghost function Hashes(m: Metadata): int {
    Sum(m.segments, HasHash())
  }

  lemma NewIsBare(size: nat)
    ensures Shaped(New(size, DEFAULT_SEGMENT_SIZE), size)
    ensures Hashes(New(size, DEFAULT_SEGMENT_SIZE)) == 0
  {
    var m := New(size, DEFAULT_SEGMENT_SIZE);
    assert RangesOf(m) == Layout(size, m.segmentSize);
    SumZero(m.segments, HasHash());
  }

  lemma {:induction false} UnhashedPicksNone(rs: seq<Range>)
    ensures Picked(Unhashed(rs), true) == []
  {
    if rs != [] {
      UnhashedPicksNone(rs[1..]);
      assert Unhashed(rs)[1..] == Unhashed(rs[1..]);
    }
  }

  lemma NewVerifiesNothing(size: nat)
    ensures VerifiedRanges(New(size, DEFAULT_SEGMENT_SIZE)) == []
  {
    UnhashedPicksNone(Layout(size, DEFAULT_SEGMENT_SIZE));
  }

  /** A prepared plan, its remaining ranges split for any number of workers, is a proper start of a
      session: trusted and remaining ranges partition the file, and the byte count fits. */
  lemma PlanIsProper(enabled: bool, sidecar: Sidecar, file: Option<seq<Byte>>, size: nat, io: SidecarIo, h: Hash,
                     workers: nat, lanes: Option<Schedule>, now: int)
    requires Prepare(enabled, sidecar, file, size, io, h).plan.Some?
    requires Proper(Session(0, 0, [], [], lanes, now))
    ensures var plan := Prepare(enabled, sidecar, file, size, io, h).plan.value;
      Proper(Session(size, plan.completed, Trusted(plan, size), SplitTo(plan.remaining, Max(workers, 1)), lanes, now))
  {
    hide Complement, RemainingRanges, VerifiedRanges, Shaped, Rechecked, SplitTo;
    var plan := Prepare(enabled, sidecar, file, size, io, h).plan.value;
    PlanShares(enabled, sidecar, file, size, io, h, 0);
    forall x: int
      ensures Sum(Trusted(plan, size), Holds(x)) + Sum(plan.remaining, Holds(x)) == if 0 <= x < size then 1 else 0
    {
      PlanShares(enabled, sidecar, file, size, io, h, x);
    }
    SplitKeepsProper(Session(size, plan.completed, Trusted(plan, size), plan.remaining, lanes, now), workers);
  }

  lemma PlanShares(enabled: bool, sidecar: Sidecar, file: Option<seq<Byte>>, size: nat, io: SidecarIo, h: Hash, x: int)
    requires Prepare(enabled, sidecar, file, size, io, h).plan.Some?
    ensures var plan := Prepare(enabled, sidecar, file, size, io, h).plan.value;
      && Sum(Trusted(plan, size), Holds(x)) + Sum(plan.remaining, Holds(x)) == (if 0 <= x < size then 1 else 0)
      && plan.completed + Sum(plan.remaining, Length()) == size
      && Ascending(plan.remaining)
  {
    hide Complement, RemainingRanges, VerifiedRanges, Shaped, Rechecked;
    var plan := Prepare(enabled, sidecar, file, size, io, h).plan.value;
    if plan.truncate {
      FullLeavesNothing(size);
      FullSums(size, x);
    } else {
      RecheckedShape(sidecar.meta, size, file.value, h);
      ShareOut(Rechecked(sidecar.meta, file.value, h), size, x);
    }
  }

  lemma FullSums(size: nat, x: int)
    ensures Sum(FullRanges(size), Length()) == size
    ensures Sum(FullRanges(size), Holds(x)) == if 0 <= x < size then 1 else 0
  {
    if size > 0 {
      SumOne(Range(0, size - 1), Length());
      SumOne(Range(0, size - 1), Holds(x));
    }
  }

  lemma RecheckedShape(m: Metadata, size: nat, file: seq<Byte>, h: Hash)
    requires Shaped(m, size)
    ensures Shaped(Rechecked(m, file, h), size)
  {
    assert RangesOf(Rechecked(m, file, h)) == RangesOf(m);
  }

  lemma ShareOut(m: Metadata, size: nat, x: int)
    requires Shaped(m, size)
    ensures Sum(Complement(RemainingRanges(m), size, 0), Holds(x)) + Sum(RemainingRanges(m), Holds(x))
         == if 0 <= x < size then 1 else 0
    ensures CompletedBytes(m) + Sum(RemainingRanges(m), Length()) == size
    ensures Ascending(RemainingRanges(m))
  {
    VerifiedRangesAgree(m, size);
    LedgerPartitions(m, size, x);
    RangesAre(m, size, false);
  }
}
