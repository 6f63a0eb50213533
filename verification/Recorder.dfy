/** The resume recorder (src/resume.rs, ResumeRecorder): after every flushed write it notes the bytes
    per segment, hashes a segment from disk once it is complete, and saves the ledger in batches. */
module Recorder {
  import opened Ranges
  import opened Extents
  import opened Files
  import opened Segments
  import opened Resume

  const SAVE_BATCH: nat := 16

  datatype Ledger = Ledger(meta: Metadata, covered: seq<seq<Range>>, unsaved: nat, sidecar: Sidecar)

  /** The environment of one record_write: a segment that cannot be read back, whether the last save
      is a second old, and whether saving works. */
  datatype Fate = Fate(unreadable: Option<nat>, due: bool, saves: bool)

  function OpenLedger(meta: Metadata, sidecar: Sidecar): Ledger {
    Ledger(meta, seq(|meta.segments|, i requires 0 <= i < |meta.segments| =>
      if meta.segments[i].hash.Some? then [meta.segments[i].range] else []), 0, sidecar)
  }

  predicate CoversSegment(ranges: seq<Range>, r: Range) {
    exists i :: 0 <= i < |ranges| && ranges[i].start <= r.start && ranges[i].end >= r.end
  }

  datatype Touch = Nothing | Hashed | Unreadable

  /** One segment that a write first..last reaches. */
  function TouchSegment(l: Ledger, i: nat, file: seq<Byte>, first: nat, last: nat, fate: Fate, h: Hash): (Ledger, Touch)
    requires i < |l.meta.segments| == |l.covered|
  {
    var s := l.meta.segments[i];
    if s.hash.Some? then (l, Nothing)
    else
      var overlap := Range(Max(first, s.range.start), Min(last, s.range.end));
      var noted := l.(covered := l.covered[i := AddRange(l.covered[i], overlap)]);
      if !CoversSegment(noted.covered[i], s.range) || |file| <= s.range.end || s.range.start > s.range.end then
        (noted, Nothing)
      else if fate.unreadable == Some(i) then (noted, Unreadable)
      else
        (noted.(meta := l.meta.(segments := l.meta.segments[i := s.(hash := Some(h(Slice(file, s.range))))])), Hashed)
  }

  datatype Pass = Pass(ledger: Ledger, completed: nat, ok: bool)

  /** The segments at positions lo..hi, in order, until one cannot be read. */
  function TouchAll(l: Ledger, lo: nat, hi: int, file: seq<Byte>, first: nat, last: nat, fate: Fate, h: Hash): (p: Pass)
    requires hi < |l.meta.segments| == |l.covered|
    ensures |p.ledger.meta.segments| == |p.ledger.covered| == |l.covered|
    decreases hi + 1 - lo
  {
    if lo > hi then Pass(l, 0, true)
    else
      var (next, touch) := TouchSegment(l, lo, file, first, last, fate, h);
      if touch.Unreadable? then Pass(next, 0, false)
      else
        var p := TouchAll(next, lo + 1, hi, file, first, last, fate, h);
        p.(completed := p.completed + if touch.Hashed? then 1 else 0)
  }

  lemma PassUnfolds(l: Ledger, lo: nat, hi: int, file: seq<Byte>, first: nat, last: nat, fate: Fate, h: Hash)
    requires hi < |l.meta.segments| == |l.covered|
    ensures TouchAll(l, lo, hi, file, first, last, fate, h) ==
      if lo > hi then Pass(l, 0, true)
      else
        var (next, touch) := TouchSegment(l, lo, file, first, last, fate, h);
        assert |next.meta.segments| == |next.covered| == |l.covered|;
        if touch.Unreadable? then Pass(next, 0, false)
        else
          var p := TouchAll(next, lo + 1, hi, file, first, last, fate, h);
          p.(completed := p.completed + if touch.Hashed? then 1 else 0)
  {
  }

  function FirstIndex(m: Metadata, first: nat): nat {
    first / Max(m.segmentSize, 1)
  }

  function LastIndex(m: Metadata, last: nat): (i: int)
    ensures i < |m.segments|
  {
    Min(last / Max(m.segmentSize, 1), |m.segments| - 1)
  }

  /** Saves after enough new hashes or enough time; a failed save is an error. */
  function SaveWhenDue(p: Pass, fate: Fate): (Ledger, bool) {
    if !p.ok then (p.ledger, false)
    else if p.completed == 0 then (p.ledger, true)
    else
      var l := p.ledger.(unsaved := p.ledger.unsaved + p.completed);
      if l.unsaved < SAVE_BATCH && !fate.due then (l, true)
      else if fate.saves then (l.(sidecar := Stored(l.meta), unsaved := 0), true)
      else (l, false)
  }

  function Record(l: Ledger, file: seq<Byte>, offset: nat, len: nat, fate: Fate, h: Hash): (Ledger, bool)
    requires |l.meta.segments| == |l.covered|
  {
    if len == 0 || l.meta.fileSize == 0 then (l, true)
    else
      var last := offset + len - 1;
      SaveWhenDue(TouchAll(l, FirstIndex(l.meta, offset), LastIndex(l.meta, last), file, offset, last, fate, h), fate)
  }

  function FlushLedger(l: Ledger, saves: bool): (Ledger, bool) {
    if l.unsaved == 0 then (l, true)
    else if saves then (l.(sidecar := Stored(l.meta), unsaved := 0), true)
    else (l, false)
  }

  // ----- the single-interval test

  /** In a separated list one interval holds the whole segment if and only if every byte of the
      segment is in some interval. */
  lemma CoversIff(ranges: seq<Range>, r: Range)
    requires Canonical(ranges) && r.start <= r.end
    ensures CoversSegment(ranges, r) <==> forall x | In(x, r) :: Covered(ranges, x)
  {
    if CoversSegment(ranges, r) {
      var i :| 0 <= i < |ranges| && ranges[i].start <= r.start && ranges[i].end >= r.end;
      forall x | In(x, r) ensures Covered(ranges, x) {
        assert In(x, ranges[i]);
      }
    }
    if forall x | In(x, r) :: Covered(ranges, x) {
      assert In(r.start, r);
      var i :| 0 <= i < |ranges| && In(r.start, ranges[i]);
      if ranges[i].end < r.end {
        assert In(ranges[i].end + 1, r);
      }
    }
  }

  // ----- what the ledger knows

  /** Segment i, its covered list and the bytes written so far: without a hash, the list holds exactly
      the written bytes of the segment, and some byte of it is missing. */
  ghost predicate TracksOne(s: Segment, covered: seq<Range>, seen: iset<int>) {
    s.range.start <= s.range.end &&
    (s.hash == None ==>
       && Canonical(covered)
       && (forall x :: Covered(covered, x) <==> x in seen && In(x, s.range))
       && (exists x :: In(x, s.range) && x !in seen))
  }

  ghost predicate Tracks(l: Ledger, size: nat, seen: iset<int>) {
    && Shaped(l.meta, size) && |l.covered| == |l.meta.segments|
    && forall i | 0 <= i < |l.covered| :: TracksOne(l.meta.segments[i], l.covered[i], seen)
  }

  /** The written bytes are on disk. */
  ghost predicate OnDisk(seen: iset<int>, file: seq<Byte>) {
    forall x | x in seen :: 0 <= x < |file|
  }

  ghost function Stretch(first: nat, last: int): iset<int> {
    iset x | In(x, Range(first, last))
  }

  /** A touched segment gets its hash exactly when its last missing byte was written, and then it is
      the hash of what is on disk; the file is never too short to read it. */
  ghost predicate TouchedRight(s: Segment, t: Segment, file: seq<Byte>, seen: iset<int>, h: Hash) {
    && t.range == s.range
    && (s.hash.Some? ==> t == s)
    && (s.hash == None && t.hash.Some? ==>
          && (forall x | In(x, s.range) :: x in seen)
          && s.range.start <= s.range.end < |file| && t.hash.value == h(Slice(file, s.range)))
  }

  lemma TouchRight(l: Ledger, i: nat, file: seq<Byte>, first: nat, last: nat, fate: Fate, h: Hash, seen: iset<int>)
    requires i < |l.meta.segments| == |l.covered|
    requires TracksOne(l.meta.segments[i], l.covered[i], seen)
    requires l.meta.segments[i].range.start <= last && first <= l.meta.segments[i].range.end && first <= last
    requires OnDisk(seen + Stretch(first, last), file)
    ensures var (m, touch) := TouchSegment(l, i, file, first, last, fate, h);
      && m == l.(covered := l.covered[i := m.covered[i]],
                 meta := l.meta.(segments := l.meta.segments[i := m.meta.segments[i]]))
      && TouchedRight(l.meta.segments[i], m.meta.segments[i], file, seen + Stretch(first, last), h)
      && (!touch.Unreadable? ==> TracksOne(m.meta.segments[i], m.covered[i], seen + Stretch(first, last)))
      && (touch.Hashed? <==> m.meta.segments[i].hash != l.meta.segments[i].hash)
  {
    var s := l.meta.segments[i];
    if s.hash == None {
      var overlap := Range(Max(first, s.range.start), Min(last, s.range.end));
      var grown := AddRange(l.covered[i], overlap);
      CanonicalGrows(l.covered[i], overlap);
      CoversIff(grown, s.range);
      if CoversSegment(grown, s.range) {
        assert In(s.range.end, s.range) && Covered(grown, s.range.end);
      }
      assert l.meta.(segments := l.meta.segments[i := s]) == l.meta;
    } else {
      assert l.covered[i := l.covered[i]] == l.covered && l.meta.segments[i := s] == l.meta.segments;
    }
  }

  lemma CanonicalGrows(rs: seq<Range>, r: Range)
    requires Canonical(rs) && r.start <= r.end
    ensures Canonical(AddRange(rs, r))
    ensures forall x :: Covered(AddRange(rs, r), x) <==> Covered(rs, x) || In(x, r)
  {
    AddDenotes(rs, r);
    var all := rs + [r];
    SortKeeps(all);
    forall i | 0 <= i < |SortByStart(all)| ensures SortByStart(all)[i].start <= SortByStart(all)[i].end {
      assert SortByStart(all)[i] in all;
    }
    MergeNonempty(SortByStart(all));
  }

  ghost predicate SameBut(a: Ledger, b: Ledger, lo: nat, hi: int) {
    && |a.meta.segments| == |b.meta.segments| == |a.covered| == |b.covered|
    && b == a.(meta := a.meta.(segments := b.meta.segments), covered := b.covered)
    && forall i | 0 <= i < |a.covered| && !(lo <= i <= hi) ::
         b.meta.segments[i] == a.meta.segments[i] && b.covered[i] == a.covered[i]
  }

  ghost predicate Reached(l: Ledger, lo: nat, hi: int, first: nat, last: nat, seen: iset<int>) {
    && hi < |l.meta.segments| == |l.covered|
    && forall i | lo <= i <= hi ::
         && TracksOne(l.meta.segments[i], l.covered[i], seen)
         && l.meta.segments[i].range.start <= last && first <= l.meta.segments[i].range.end
  }

  lemma {:induction false} PassRight(l: Ledger, lo: nat, hi: int, file: seq<Byte>, first: nat, last: nat, fate: Fate,
                                     h: Hash, seen: iset<int>)
    requires Reached(l, lo, hi, first, last, seen) && first <= last && OnDisk(seen + Stretch(first, last), file)
    ensures var p := TouchAll(l, lo, hi, file, first, last, fate, h);
      && SameBut(l, p.ledger, lo, hi)
      && (forall i | lo <= i <= hi ::
            TouchedRight(l.meta.segments[i], p.ledger.meta.segments[i], file, seen + Stretch(first, last), h))
      && (p.ok ==> forall i | lo <= i <= hi ::
            TracksOne(p.ledger.meta.segments[i], p.ledger.covered[i], seen + Stretch(first, last)))
      && (p.ok && p.completed == 0 ==> p.ledger.meta == l.meta)
    decreases hi + 1 - lo
  {
    hide TracksOne, TouchedRight, TouchSegment, OnDisk;
    if lo <= hi {
      var (next, touch) := TouchSegment(l, lo, file, first, last, fate, h);
      TouchRight(l, lo, file, first, last, fate, h, seen);
      if !touch.Unreadable? {
        PassRight(next, lo + 1, hi, file, first, last, fate, h, seen);
      } else {
        forall i | lo < i <= hi
          ensures TouchedRight(l.meta.segments[i], l.meta.segments[i], file, seen + Stretch(first, last), h)
        {
          Untouched(l.meta.segments[i], file, seen + Stretch(first, last), h);
        }
      }
    }
  }

  lemma Untouched(s: Segment, file: seq<Byte>, seen: iset<int>, h: Hash)
    ensures TouchedRight(s, s, file, seen, h)
  {
  }

  lemma StillTracks(s: Segment, covered: seq<Range>, seen: iset<int>, first: nat, last: nat)
    requires TracksOne(s, covered, seen) && !(s.range.start <= last && first <= s.range.end)
    ensures TracksOne(s, covered, seen + Stretch(first, last))
  {
  }

  /** The positions the recorder looks at are exactly the segments the write reaches. */
  lemma LookedUp(m: Metadata, size: nat, first: nat, last: nat, i: nat)
    requires Shaped(m, size) && first <= last && first < size && i < |m.segments|
    ensures FirstIndex(m, first) <= i <= LastIndex(m, last)
        <==> m.segments[i].range.start <= last && first <= m.segments[i].range.end
  {
    SegmentsNonempty(m, size);
    assert RangesOf(m)[i] == m.segments[i].range && |RangesOf(m)| == |m.segments|;
    OverlapIff(size, m.segmentSize, first, last, i);
    var r := m.segments[i].range;
    if r.start <= last && first <= r.end {
      assert In(Max(first, r.start), r);
    }
  }

  /** Recording a write of the bytes first..last keeps every segment's list exact: if it succeeds, a
      segment has a hash if and only if it had one or all its bytes are written by now, and a new hash
      is that of the bytes on disk. Even if it fails, no hash is wrong. */
  lemma RecordRight(l: Ledger, size: nat, file: seq<Byte>, offset: nat, len: nat, fate: Fate, h: Hash, seen: iset<int>)
    requires Tracks(l, size, seen) && len > 0 && offset < size
    requires OnDisk(seen + Stretch(offset, offset + len - 1), file)
    ensures var (m, ok) := Record(l, file, offset, len, fate, h);
      && |m.meta.segments| == |l.meta.segments| && m.meta == l.meta.(segments := m.meta.segments)
      && (forall i | 0 <= i < |m.meta.segments| ::
            TouchedRight(l.meta.segments[i], m.meta.segments[i], file, seen + Stretch(offset, offset + len - 1), h))
      && (ok ==> Tracks(m, size, seen + Stretch(offset, offset + len - 1)))
      && (m.sidecar == l.sidecar || m.sidecar == Stored(m.meta))
  {
    hide TracksOne, TouchedRight, TouchAll, OnDisk, Stretch, FirstIndex, LastIndex;
    var last := offset + len - 1;
    var all := seen + Stretch(offset, last);
    var lo, hi := FirstIndex(l.meta, offset), LastIndex(l.meta, last);
    forall i | 0 <= i < |l.meta.segments|
      ensures lo <= i <= hi <==> l.meta.segments[i].range.start <= last && offset <= l.meta.segments[i].range.end
      ensures !(lo <= i <= hi) ==> TracksOne(l.meta.segments[i], l.covered[i], all)
      ensures TouchedRight(l.meta.segments[i], l.meta.segments[i], file, all, h)
    {
      LookedUp(l.meta, size, offset, last, i);
      Untouched(l.meta.segments[i], file, all, h);
      if !(lo <= i <= hi) {
        StillTracks(l.meta.segments[i], l.covered[i], seen, offset, last);
      }
    }
    PassRight(l, lo, hi, file, offset, last, fate, h, seen);
    var p := TouchAll(l, lo, hi, file, offset, last, fate, h);
    ShapeKept(l, p.ledger, lo, hi, size, file, all, h);
  }

  lemma ShapeKept(l: Ledger, m: Ledger, lo: nat, hi: int, size: nat, file: seq<Byte>, all: iset<int>, h: Hash)
    requires Shaped(l.meta, size) && SameBut(l, m, lo, hi)
    requires forall i | 0 <= i < |l.meta.segments| && lo <= i <= hi ::
      TouchedRight(l.meta.segments[i], m.meta.segments[i], file, all, h)
    ensures Shaped(m.meta, size)
  {
    assert RangesOf(m.meta) == RangesOf(l.meta);
  }

  // ----- the mutable recorder

  class ResumeRecorder {
    const hash: Hash
    var metadata: Metadata
    var coveredRanges: seq<seq<Range>>
    var pendingSegments: nat
    var stored: Sidecar      // what the metadata path holds

    predicate Valid()
      reads this
    {
      |coveredRanges| == |metadata.segments|
    }

    function View(): Ledger
      reads this
    {
      Ledger(metadata, coveredRanges, pendingSegments, stored)
    }

    constructor (metadata: Metadata, stored: Sidecar, hash: Hash)
      ensures Valid() && View() == OpenLedger(metadata, stored) && this.hash == hash
    {
      this.hash, this.metadata, this.stored, pendingSegments := hash, metadata, stored, 0;
      coveredRanges := OpenLedger(metadata, stored).covered;
    }

    method Touch(index: nat, file: seq<Byte>, first: nat, last: nat, fate: Fate) returns (touch: Touch)
      requires Valid() && index < |coveredRanges|
      modifies this`metadata, this`coveredRanges
      ensures Valid() && (View(), touch) == TouchSegment(old(View()), index, file, first, last, fate, hash)
    {
      var segment := metadata.segments[index];
      if segment.hash.Some? {
        return Nothing;
      }
      var start, end := segment.range.start, segment.range.end;
      var grown := AddCoveredRange(coveredRanges[index], Range(Max(first, start), Min(last, end)));
      coveredRanges := coveredRanges[index := grown];
      if !CoversSegment(grown, segment.range) {
        return Nothing;
      }
      if |file| <= end || start > end {
        return Nothing;
      }
      if fate.unreadable == Some(index) {
        return Unreadable;
      }
      var hashed := segment.(hash := Some(hash(Slice(file, segment.range))));
      metadata := metadata.(segments := metadata.segments[index := hashed]);
      return Hashed;
    }

    method RecordWrite(file: seq<Byte>, offset: nat, len: nat, fate: Fate) returns (ok: bool)
      requires Valid()
      modifies this
      ensures Valid() && (View(), ok) == Record(old(View()), file, offset, len, fate, hash)
    {
      hide TouchAll, TouchSegment, CoversSegment;
      if len == 0 || metadata.fileSize == 0 {
        return true;
      }
      var last := offset + len - 1;
      var index := FirstIndex(metadata, offset);
      var end := LastIndex(metadata, last);
      ghost var all := TouchAll(View(), index, end, file, offset, last, fate, hash);
      var newlyCompleted := 0;
      while index <= end
        invariant Valid() && end < |metadata.segments|
        invariant unchanged(`pendingSegments, `stored)
        invariant var rest := TouchAll(View(), index, end, file, offset, last, fate, hash);
          all == rest.(completed := newlyCompleted + rest.completed)
        decreases end + 1 - index
      {
        PassUnfolds(View(), index, end, file, offset, last, fate, hash);
        var touch := Touch(index, file, offset, last, fate);
        if touch.Unreadable? {
          return false;
        }
        if touch.Hashed? {
          newlyCompleted := newlyCompleted + 1;
        }
        index := index + 1;
      }
      PassUnfolds(View(), index, end, file, offset, last, fate, hash);
      if newlyCompleted > 0 {
        pendingSegments := pendingSegments + newlyCompleted;
        if pendingSegments >= SAVE_BATCH || fate.due {
          if !fate.saves {
            return false;
          }
          stored := Stored(metadata);
          pendingSegments := 0;
        }
      }
      return true;
    }

    method Flush(saves: bool) returns (ok: bool)
      modifies this`stored, this`pendingSegments
      ensures (View(), ok) == FlushLedger(old(View()), saves)
    {
      if pendingSegments > 0 {
        if !saves {
          return false;
        }
        stored := Stored(metadata);
        pendingSegments := 0;
      }
      return true;
    }
  }
}
