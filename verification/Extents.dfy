/** The writer's interval ledger and the gate that refuses a file with holes (src/util.rs). */
module Extents {
  import opened Ranges

  ghost predicate Covered(rs: seq<Range>, x: int) {
    exists i :: 0 <= i < |rs| && In(x, rs[i])
  }

  // ----- sorting by start, stably

  ghost predicate StartSorted(rs: seq<Range>) {
    forall i, j | 0 <= i < j < |rs| :: rs[i].start <= rs[j].start
  }

  function InsertByStart(rs: seq<Range>, r: Range): (t: seq<Range>)
    ensures |t| == |rs| + 1
  {
    if rs == [] then [r]
    else if rs[0].start <= r.start then [rs[0]] + InsertByStart(rs[1..], r)
    else [r] + rs
  }

  function SortByStart(rs: seq<Range>): (t: seq<Range>)
    ensures |t| == |rs|
    decreases |rs|
  {
    if rs == [] then [] else InsertByStart(SortByStart(rs[..|rs| - 1]), rs[|rs| - 1])
  }

  lemma {:induction false} InsertKeeps(rs: seq<Range>, r: Range)
    ensures forall q :: q in InsertByStart(rs, r) <==> q in rs || q == r
    ensures StartSorted(rs) ==> StartSorted(InsertByStart(rs, r))
  {
    if rs != [] && rs[0].start <= r.start {
      InsertKeeps(rs[1..], r);
      var t := InsertByStart(rs[1..], r);
      assert forall q :: q in rs <==> q == rs[0] || q in rs[1..];
      if StartSorted(rs) {
        assert StartSorted(rs[1..]);
        forall k | 0 <= k < |t| ensures rs[0].start <= t[k].start {
          assert t[k] in rs[1..] || t[k] == r;
        }
      }
    }
  }

  lemma {:induction false} SortKeeps(rs: seq<Range>)
    ensures forall q :: q in SortByStart(rs) <==> q in rs
    ensures StartSorted(SortByStart(rs))
    decreases |rs|
  {
    if rs != [] {
      var front, last := rs[..|rs| - 1], rs[|rs| - 1];
      SortKeeps(front);
      InsertKeeps(SortByStart(front), last);
      assert rs == front + [last];
    }
  }

  lemma SameMembersCover(a: seq<Range>, b: seq<Range>, x: int)
    requires forall q :: q in a <==> q in b
    ensures Covered(a, x) <==> Covered(b, x)
  {
    if Covered(a, x) {
      var i :| 0 <= i < |a| && In(x, a[i]);
      assert a[i] in b;
    }
    if Covered(b, x) {
      var i :| 0 <= i < |b| && In(x, b[i]);
      assert b[i] in a;
    }
  }

  // ----- merging

  /** Ranges that overlap or touch the one before them are melted into it. */
  function Absorb(merged: seq<Range>, r: Range): seq<Range> {
    if merged != [] && r.start <= merged[|merged| - 1].end + 1 then
      var last := merged[|merged| - 1];
      merged[..|merged| - 1] + [Range(last.start, Max(last.end, r.end))]
    else merged + [r]
  }

  function MergeRuns(rs: seq<Range>): seq<Range>
    decreases |rs|
  {
    if rs == [] then [] else Absorb(MergeRuns(rs[..|rs| - 1]), rs[|rs| - 1])
  }

  /** At worst empty, as a zero-length write is. */
  ghost predicate WellFormed(rs: seq<Range>) {
    forall i | 0 <= i < |rs| :: rs[i].start <= rs[i].end + 1
  }

  /** Sorted, and a byte at least lies between any two. */
  ghost predicate Separated(rs: seq<Range>) {
    forall i, j | 0 <= i < j < |rs| :: rs[i].end + 1 < rs[j].start
  }

  lemma AbsorbKeeps(m: seq<Range>, r: Range)
    requires WellFormed(m) && Separated(m) && r.start <= r.end + 1
    requires forall i | 0 <= i < |m| :: m[i].start <= r.start
    ensures WellFormed(Absorb(m, r)) && Separated(Absorb(m, r))
    ensures forall i | 0 <= i < |Absorb(m, r)| :: Absorb(m, r)[i].start <= r.start
    ensures forall x :: Covered(Absorb(m, r), x) <==> Covered(m, x) || In(x, r)
  {
    var t := Absorb(m, r);
    forall x ensures Covered(t, x) <==> Covered(m, x) || In(x, r) {
      if In(x, r) {
        assert In(x, t[|t| - 1]);
      }
      if Covered(m, x) {
        var i :| 0 <= i < |m| && In(x, m[i]);
        assert In(x, t[i]);
      }
      if Covered(t, x) {
        var i :| 0 <= i < |t| && In(x, t[i]);
        assert i < |m| ==> In(x, m[i]) || In(x, r);
      }
    }
  }

  /** Merging sorted ranges changes nothing about which bytes they hold and leaves them separated. */
  lemma {:induction false} MergeExact(rs: seq<Range>)
    requires StartSorted(rs) && WellFormed(rs)
    ensures WellFormed(MergeRuns(rs)) && Separated(MergeRuns(rs))
    ensures forall x :: Covered(MergeRuns(rs), x) <==> Covered(rs, x)
    ensures rs != [] ==> forall i | 0 <= i < |MergeRuns(rs)| :: MergeRuns(rs)[i].start <= rs[|rs| - 1].start
    decreases |rs|
  {
    hide Covered, Absorb, Separated;
    if rs == [] {
      NothingSeparated();
    } else {
      var front, last := rs[..|rs| - 1], rs[|rs| - 1];
      MergeExact(front);
      AbsorbKeeps(MergeRuns(front), last);
      LastCovers(rs);
    }
  }

  lemma NothingSeparated()
    ensures Separated([])
  {
  }

  lemma LastCovers(rs: seq<Range>)
    requires rs != []
    ensures forall x :: Covered(rs, x) <==> Covered(rs[..|rs| - 1], x) || In(x, rs[|rs| - 1])
  {
    hide Covered;
    var front, last := rs[..|rs| - 1], rs[|rs| - 1];
    assert rs == front + [last];
    forall x ensures Covered(rs, x) <==> Covered(front, x) || In(x, last) {
      CoveredSnoc(front, last, x);
    }
  }

  lemma CoveredSnoc(rs: seq<Range>, r: Range, x: int)
    ensures Covered(rs + [r], x) <==> Covered(rs, x) || In(x, r)
  {
    if Covered(rs, x) {
      var i :| 0 <= i < |rs| && In(x, rs[i]);
      assert In(x, (rs + [r])[i]);
    }
    if In(x, r) {
      assert In(x, (rs + [r])[|rs|]);
    }
  }

  /** Nonempty, sorted, and with a gap between any two: the one list of its bytes. */
  ghost predicate Canonical(rs: seq<Range>) {
    Separated(rs) && forall i | 0 <= i < |rs| :: rs[i].start <= rs[i].end
  }

  lemma CanonicalTail(rs: seq<Range>, x: int)
    requires rs != [] && Canonical(rs)
    ensures Canonical(rs[1..])
    ensures Covered(rs[1..], x) <==> Covered(rs, x) && !In(x, rs[0])
    ensures Covered(rs, x) ==> rs[0].start <= x
  {
    if Covered(rs, x) {
      var i :| 0 <= i < |rs| && In(x, rs[i]);
      if i > 0 {
        assert In(x, rs[1..][i - 1]);
      }
    }
    if Covered(rs[1..], x) {
      var i :| 0 <= i < |rs[1..]| && In(x, rs[1..][i]);
      assert In(x, rs[i + 1]);
    }
  }

  lemma HeadCovers(rs: seq<Range>, x: int)
    requires rs != [] && In(x, rs[0])
    ensures Covered(rs, x)
  {
  }

  /** Two canonical lists that hold the same bytes are the same list. */
  lemma {:induction false} CanonicalUnique(a: seq<Range>, b: seq<Range>)
    requires Canonical(a) && Canonical(b)
    requires forall x :: Covered(a, x) <==> Covered(b, x)
    ensures a == b
  {
    hide Covered;
    if a == [] {
      if b != [] {
        HeadCovers(b, b[0].start);
        NoneCovered(b[0].start);
      }
    } else if b == [] {
      HeadCovers(a, a[0].start);
      NoneCovered(a[0].start);
    } else {
      SameHead(a, b);
      SameHead(b, a);
      forall x ensures Covered(a[1..], x) <==> Covered(b[1..], x) {
        CanonicalTail(a, x);
        CanonicalTail(b, x);
      }
      CanonicalTail(a, 0);
      CanonicalTail(b, 0);
      CanonicalUnique(a[1..], b[1..]);
    }
  }

  lemma NoneCovered(x: int)
    ensures !Covered([], x)
  {
  }

  lemma SameHead(a: seq<Range>, b: seq<Range>)
    requires a != [] && b != [] && Canonical(a) && Canonical(b)
    requires forall x :: Covered(a, x) <==> Covered(b, x)
    ensures a[0].start <= b[0].start && b[0].end <= a[0].end
  {
    HeadCovers(b, b[0].start);
    CanonicalTail(a, b[0].start);
    HeadCovers(a, a[0].start);
    CanonicalTail(b, a[0].start);
    if a[0].end < b[0].end {
      HeadCovers(b, a[0].end + 1);
      CanonicalTail(a, a[0].end + 1);
    }
  }

  lemma MergeCanonical(rs: seq<Range>)
    requires StartSorted(rs) && forall i | 0 <= i < |rs| :: rs[i].start <= rs[i].end
    ensures Canonical(MergeRuns(rs))
    ensures forall x :: Covered(MergeRuns(rs), x) <==> Covered(rs, x)
  {
    MergeExact(rs);
    MergeNonempty(rs);
  }

  lemma {:induction false} MergeNonempty(rs: seq<Range>)
    requires forall i | 0 <= i < |rs| :: rs[i].start <= rs[i].end
    ensures forall i | 0 <= i < |MergeRuns(rs)| :: MergeRuns(rs)[i].start <= MergeRuns(rs)[i].end
    decreases |rs|
  {
    if rs != [] {
      MergeNonempty(rs[..|rs| - 1]);
    }
  }

  // ----- adding a range

  function AddRange(rs: seq<Range>, r: Range): seq<Range> {
    MergeRuns(SortByStart(rs + [r]))
  }

  method AddCoveredRange(ranges: seq<Range>, r: Range) returns (merged: seq<Range>)
    ensures merged == AddRange(ranges, r)
  {
    var extents := SortByStart(ranges + [r]);
    merged := MergeInOrder(extents);
  }

  method MergeInOrder(extents: seq<Range>) returns (merged: seq<Range>)
    ensures merged == MergeRuns(extents)
  {
    merged := [];
    var i := 0;
    while i < |extents|
      invariant i <= |extents| && merged == MergeRuns(extents[..i])
    {
      var r := extents[i];
      assert extents[..i + 1][..i] == extents[..i];
      if merged != [] && r.start <= merged[|merged| - 1].end + 1 {
        var last := merged[|merged| - 1];
        merged := merged[..|merged| - 1] + [last.(end := Max(last.end, r.end))];
      } else {
        merged := merged + [r];
      }
      i := i + 1;
    }
    assert extents[..i] == extents;
  }

  /** The list stays separated and gains exactly the bytes of the range. */
  lemma AddDenotes(rs: seq<Range>, r: Range)
    requires WellFormed(rs) && r.start <= r.end + 1
    ensures WellFormed(AddRange(rs, r)) && Separated(AddRange(rs, r))
    ensures forall x :: Covered(AddRange(rs, r), x) <==> Covered(rs, x) || In(x, r)
  {
    var all := rs + [r];
    var sorted := SortByStart(all);
    SortKeeps(all);
    forall i | 0 <= i < |sorted| ensures sorted[i].start <= sorted[i].end + 1 {
      assert sorted[i] in all;
    }
    MergeExact(sorted);
    forall x ensures Covered(sorted, x) <==> Covered(rs, x) || In(x, r) {
      SameMembersCover(sorted, all, x);
      CoveredSnoc(rs, r, x);
    }
  }

  // ----- mark_written

  /** The saturating last byte of a write, which for a zero-length write at offset 0 is byte 0. */
  function LastByte(offset: nat, len: nat): int {
    if offset + len == 0 then 0 else offset + len - 1
  }

  function Mark(written: seq<Range>, offset: nat, len: nat): seq<Range> {
    AddRange(written, Range(offset, LastByte(offset, len)))
  }

  /** Marking is exact but for one input: a zero-length write at offset 0 claims byte 0, which is
      right only if that byte was written already. */
  lemma MarkExactIff(written: seq<Range>, offset: nat, len: nat)
    requires WellFormed(written)
    ensures (forall x :: Covered(Mark(written, offset, len), x) <==> Covered(written, x) || offset <= x < offset + len)
            <==> len > 0 || offset > 0 || Covered(written, 0)
  {
    AddDenotes(written, Range(offset, LastByte(offset, len)));
    if len == 0 && offset == 0 {
      assert Covered(Mark(written, offset, len), 0);
    }
  }

  /** The input itself: nothing was written, yet the ledger of a one-byte file is full. */
  lemma EmptyWriteClaimsByteZero()
    ensures Mark([], 0, 0) == [Range(0, 0)]
  {
    var r := [Range(0, 0)];
    assert [] + r == r && r[..0] == [];
    assert SortByStart(r) == r;
    assert MergeRuns(r[..0]) == [];
    assert MergeRuns(r) == r;
  }

  // ----- the coverage gate

  /** The part of the ranges inside [0, size), without the empty ones. */
  function Clamped(rs: seq<Range>, size: nat): seq<Range> {
    if rs == [] then []
    else (if rs[0].start <= rs[0].end && rs[0].start < size then [rs[0].(end := Min(rs[0].end, size - 1))] else [])
         + Clamped(rs[1..], size)
  }

  lemma {:induction false} ClampedCovers(rs: seq<Range>, size: nat)
    ensures forall x :: Covered(Clamped(rs, size), x) <==> x < size && Covered(rs, x)
    ensures forall i | 0 <= i < |Clamped(rs, size)| ::
      Clamped(rs, size)[i].start <= Clamped(rs, size)[i].end < size
  {
    if rs != [] {
      ClampedCovers(rs[1..], size);
      var head := if rs[0].start <= rs[0].end && rs[0].start < size
                  then [rs[0].(end := Min(rs[0].end, size - 1))] else [];
      forall x ensures Covered(Clamped(rs, size), x) <==> x < size && Covered(rs, x) {
        CoveredAppend(head, Clamped(rs[1..], size), x);
        CoveredAppend([rs[0]], rs[1..], x);
        assert rs == [rs[0]] + rs[1..];
        CoveredSnoc([], rs[0], x);
        if head != [] {
          CoveredSnoc([], head[0], x);
          assert [] + [head[0]] == head;
        }
        assert [] + [rs[0]] == [rs[0]];
      }
    }
  }

  lemma CoveredAppend(a: seq<Range>, b: seq<Range>, x: int)
    ensures Covered(a + b, x) <==> Covered(a, x) || Covered(b, x)
  {
    if Covered(a, x) {
      var i :| 0 <= i < |a| && In(x, a[i]);
      assert In(x, (a + b)[i]);
    }
    if Covered(b, x) {
      var i :| 0 <= i < |b| && In(x, b[i]);
      assert In(x, (a + b)[|a| + i]);
    }
    if Covered(a + b, x) {
      var i :| 0 <= i < |a + b| && In(x, (a + b)[i]);
      assert i < |a| ==> In(x, a[i]);
      assert i >= |a| ==> In(x, b[i - |a|]);
    }
  }

  ghost predicate Written(written: seq<Range>, trusted: seq<Range>, x: int) {
    Covered(written, x) || Covered(trusted, x)
  }

  /** The first maximal hole of [0, size). */
  ghost predicate FirstHole(written: seq<Range>, trusted: seq<Range>, size: nat, gap: Range) {
    && 0 <= gap.start <= gap.end < size
    && (forall x | 0 <= x < gap.start :: Written(written, trusted, x))
    && (forall x | gap.start <= x <= gap.end :: !Written(written, trusted, x))
    && (gap.end + 1 == size || Written(written, trusted, gap.end + 1))
  }

  /** The gate is exact for any lists, overlapping, unsorted or reaching past the end: it passes
      when every byte is covered and otherwise names the first hole. */
  method CoverageGap(written: seq<Range>, trusted: seq<Range>, size: nat) returns (gap: Option<Range>)
    ensures gap == None <==> forall x | 0 <= x < size :: Written(written, trusted, x)
    ensures gap.Some? ==> FirstHole(written, trusted, size, gap.value)
  {
    var extents := SortByStart(Clamped(written + trusted, size));
    ExtentsDenote(written, trusted, size);
    var cursor := 0;
    var i := 0;
    while i < |extents|
      invariant 0 <= i <= |extents| && 0 <= cursor <= size
      invariant forall x | 0 <= x < cursor :: Covered(extents, x)
      invariant forall k | 0 <= k < i :: extents[k].end < cursor
      invariant size > 0 ==> cursor < size
    {
      var r := extents[i];
      assert In(r.start, r) && forall x | r.start <= x <= r.end :: In(x, extents[i]);
      if r.start > cursor {
        assert forall x | cursor <= x < r.start :: !Covered(extents, x);
        assert !Written(written, trusted, cursor);
        return Some(Range(cursor, r.start - 1));
      }
      cursor := Max(cursor, r.end + 1);
      if cursor >= size {
        return None;
      }
      i := i + 1;
    }
    assert forall x | cursor <= x < size :: !Covered(extents, x);
    if cursor < size {
      gap := Some(Range(cursor, size - 1));
      assert !Written(written, trusted, cursor);
    } else {
      gap := None;
    }
  }

  lemma ExtentsDenote(written: seq<Range>, trusted: seq<Range>, size: nat)
    ensures var extents := SortByStart(Clamped(written + trusted, size));
      && StartSorted(extents)
      && (forall i | 0 <= i < |extents| :: extents[i].start <= extents[i].end < size)
      && (forall x :: Covered(extents, x) <==> x < size && Written(written, trusted, x))
  {
    var clamped := Clamped(written + trusted, size);
    var extents := SortByStart(clamped);
    SortKeeps(clamped);
    ClampedCovers(written + trusted, size);
    forall i | 0 <= i < |extents| ensures extents[i].start <= extents[i].end < size {
      assert extents[i] in clamped;
    }
    forall x ensures Covered(extents, x) <==> x < size && Written(written, trusted, x) {
      SameMembersCover(extents, clamped, x);
      CoveredAppend(written, trusted, x);
    }
  }
}
