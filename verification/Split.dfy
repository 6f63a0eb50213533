/** How the ranges left to fetch are cut up for the workers at the start of a session
    (src/downloader.rs, split_resume_ranges). */
module Split {
  import opened Ranges
  import opened Chunk
  import opened Protocol

  /** The last of the widest ranges, as max_by_key returns it. */
  function Widest(rs: seq<Range>): (i: nat)
    requires rs != []
    ensures i < |rs|
    ensures forall k | 0 <= k < |rs| :: Size(rs[k]) <= Size(rs[i])
    ensures forall k | i < k < |rs| :: Size(rs[k]) < Size(rs[i])
  {
    if |rs| == 1 then 0
    else
      var rest := Widest(rs[1..]);
      assert forall k | 1 <= k < |rs| :: rs[k] == rs[1..][k - 1];
      if Size(rs[0]) > Size(rs[1..][rest]) then 0 else rest + 1
  }

  function LeftHalf(r: Range): Range {
    Range(r.start, r.start + Size(r) / 2 - 1)
  }

  function RightHalf(r: Range): Range {
    Range(r.start + Size(r) / 2, r.end)
  }

  function Cut(rs: seq<Range>, i: nat): seq<Range>
    requires i < |rs|
  {
    rs[..i] + [LeftHalf(rs[i]), RightHalf(rs[i])] + rs[i + 1..]
  }

  function SplitTo(rs: seq<Range>, target: nat): seq<Range>
    decreases target - |rs|
  {
    if |rs| >= target || rs == [] || Size(rs[Widest(rs)]) < MIN_CHUNK_SIZE * 2 then rs
    else SplitTo(Cut(rs, Widest(rs)), target)
  }

  method FindWidest(rs: seq<Range>) returns (index: nat)
    requires rs != []
    ensures index == Widest(rs)
  {
    index := 0;
    var i := 1;
    while i < |rs|
      invariant index < i <= |rs|
      invariant forall k | 0 <= k < i :: Size(rs[k]) <= Size(rs[index])
      invariant forall k | index < k < i :: Size(rs[k]) < Size(rs[index])
    {
      if Size(rs[i]) >= Size(rs[index]) {
        index := i;
      }
      i := i + 1;
    }
  }

  lemma SplitUnfolds(rs: seq<Range>, target: nat)
    ensures SplitTo(rs, target)
         == if |rs| >= target || rs == [] || Size(rs[Widest(rs)]) < MIN_CHUNK_SIZE * 2 then rs
            else SplitTo(Cut(rs, Widest(rs)), target)
  {
  }

  method SplitResumeRanges(ranges: seq<Range>, workers: nat) returns (r: seq<Range>)
    ensures r == SplitTo(ranges, Max(workers, 1))
  {
    hide SplitTo, Widest;
    var target := Max(workers, 1);
    r := ranges;
    while |r| < target && r != []
      invariant SplitTo(r, target) == SplitTo(ranges, target)
      decreases target - |r|
    {
      var index := FindWidest(r);
      SplitUnfolds(r, target);
      var len := Size(r[index]);
      if len < MIN_CHUNK_SIZE * 2 {
        return;
      }
      var mid := r[index].start + len / 2 - 1;
      assert LeftHalf(r[index]) == Range(r[index].start, mid) && RightHalf(r[index]) == Range(mid + 1, r[index].end);
      r := r[..index] + [Range(r[index].start, mid), Range(mid + 1, r[index].end)] + r[index + 1..];
    }
    SplitUnfolds(r, target);
  }

  // ----- what splitting keeps

  /** Cutting a range that is worth its two halves changes no sum. */
  lemma CutSum(rs: seq<Range>, i: nat, f: Range -> int)
    requires i < |rs| && f(LeftHalf(rs[i])) + f(RightHalf(rs[i])) == f(rs[i])
    ensures Sum(Cut(rs, i), f) == Sum(rs, f)
  {
    var halves := [LeftHalf(rs[i]), RightHalf(rs[i])];
    SumAppend(rs[..i] + halves, rs[i + 1..], f);
    SumAppend(rs[..i], halves, f);
    SumTwo(LeftHalf(rs[i]), RightHalf(rs[i]), f);
    SumSplit(rs, i, f);
  }

  /** The union, counted byte by byte, and the total length stay what they were. */
  lemma {:induction false} SplitKeepsBytes(rs: seq<Range>, target: nat, x: int)
    ensures Sum(SplitTo(rs, target), Holds(x)) == Sum(rs, Holds(x))
    ensures Sum(SplitTo(rs, target), Length()) == Sum(rs, Length())
    decreases target - |rs|
  {
    if !(|rs| >= target || rs == [] || Size(rs[Widest(rs)]) < MIN_CHUNK_SIZE * 2) {
      CutSum(rs, Widest(rs), Holds(x));
      CutSum(rs, Widest(rs), Length());
      SplitKeepsBytes(Cut(rs, Widest(rs)), target, x);
    }
  }

  lemma CutAscending(rs: seq<Range>, i: nat)
    requires i < |rs| && Ascending(rs) && Size(rs[i]) >= MIN_CHUNK_SIZE * 2
    ensures Ascending(Cut(rs, i))
  {
    var c := Cut(rs, i);
    forall k | 0 <= k < |c|
      ensures c[k] == if k < i then rs[k]
                      else if k == i then LeftHalf(rs[i]) else if k == i + 1 then RightHalf(rs[i]) else rs[k - 1]
    {
    }
  }

  /** Order and disjointness are kept; the number of ranges stays within what was asked for; and
      fewer than asked for come out only when no range could give two halves of MIN_CHUNK_SIZE. */
  lemma {:induction false} SplitShape(rs: seq<Range>, target: nat)
    ensures var r := SplitTo(rs, target);
      && (Ascending(rs) ==> Ascending(r))
      && |rs| <= |r| <= Max(|rs|, target)
      && (|r| < target ==> forall k | 0 <= k < |r| :: Size(r[k]) < MIN_CHUNK_SIZE * 2)
      && (rs == [] <==> r == [])
    decreases target - |rs|
  {
    if !(|rs| >= target || rs == [] || Size(rs[Widest(rs)]) < MIN_CHUNK_SIZE * 2) {
      if Ascending(rs) {
        CutAscending(rs, Widest(rs));
      }
      SplitShape(Cut(rs, Widest(rs)), target);
    }
  }

  /** The widest range is at most twice the narrowest and one more. */
  ghost predicate Balanced(rs: seq<Range>) {
    forall i, j | 0 <= i < |rs| && 0 <= j < |rs| :: Size(rs[i]) <= 2 * Size(rs[j]) + 1
  }

  /** A cut leaves the other ranges and two halves that differ by a byte at most. */
  lemma CutMembers(rs: seq<Range>, w: nat)
    requires w < |rs| && Size(rs[w]) >= MIN_CHUNK_SIZE * 2
    ensures forall k | 0 <= k < |Cut(rs, w)| ::
      Cut(rs, w)[k] in rs || Size(rs[w]) / 2 <= Size(Cut(rs, w)[k]) <= Size(rs[w]) / 2 + 1
  {
    var c := Cut(rs, w);
    var half := Size(rs[w]) / 2;
    assert Size(LeftHalf(rs[w])) == half && Size(RightHalf(rs[w])) == Size(rs[w]) - half;
    hide LeftHalf, RightHalf, Size;
    forall k | 0 <= k < |c| ensures c[k] in rs || c[k] in {LeftHalf(rs[w]), RightHalf(rs[w])} {
      assert c[k] == if k < w then rs[k]
                     else if k == w then LeftHalf(rs[w]) else if k == w + 1 then RightHalf(rs[w]) else rs[k - 1];
    }
  }

  lemma CutBalanced(rs: seq<Range>)
    requires rs != [] && Balanced(rs) && Size(rs[Widest(rs)]) >= MIN_CHUNK_SIZE * 2
    ensures Balanced(Cut(rs, Widest(rs)))
  {
    var w := Widest(rs);
    var c := Cut(rs, w);
    var half := Size(rs[w]) / 2;
    CutMembers(rs, w);
    hide Widest, Cut, Size;
    forall i, j | 0 <= i < |c| && 0 <= j < |c| ensures Size(c[i]) <= 2 * Size(c[j]) + 1 {
      assert c[i] in rs ==> Size(c[i]) <= Size(rs[w]);
      assert c[j] in rs ==> Size(rs[w]) <= 2 * Size(c[j]) + 1;
    }
  }

  /** Balance is kept, so a single range, the usual start, is cut into balanced ones. */
  lemma {:induction false} SplitBalanced(rs: seq<Range>, target: nat)
    requires Balanced(rs)
    ensures Balanced(SplitTo(rs, target))
    decreases target - |rs|
  {
    if !(|rs| >= target || rs == [] || Size(rs[Widest(rs)]) < MIN_CHUNK_SIZE * 2) {
      CutBalanced(rs);
      SplitBalanced(Cut(rs, Widest(rs)), target);
    }
  }

  /** A session may start from the cut ranges wherever it could from the uncut ones. */
  lemma SplitKeepsProper(p: Session, workers: nat)
    requires Proper(p) && Ascending(p.ranges)
    ensures Proper(p.(ranges := SplitTo(p.ranges, Max(workers, 1))))
  {
    forall x: int
      ensures Sum(SplitTo(p.ranges, Max(workers, 1)), Holds(x)) == Sum(p.ranges, Holds(x))
      ensures Sum(SplitTo(p.ranges, Max(workers, 1)), Length()) == Sum(p.ranges, Length())
    {
      SplitKeepsBytes(p.ranges, Max(workers, 1), x);
    }
    SplitKeepsBytes(p.ranges, Max(workers, 1), 0);
    SplitShape(p.ranges, Max(workers, 1));
  }
}
