/** What one session hands on to the next: a segment that was written completely is in the sidecar after a
    clean exit, or among the last few after a crash, and while the disk still has it, it is trusted and
    not fetched again. */
module Carryover {
  import opened Ranges
  import opened Extents
  import opened Files
  import opened Segments
  import opened Resume
  import opened Recorder
  import opened Writer
  import opened EndToEnd
  import Chunk
  import EmptyAttempts
  import Finish
  import Lanes
  import Partition
  import Protocol

  // ----- the recorder's saves

  lemma TouchCounts(l: Ledger, i: nat, file: seq<Byte>, first: nat, last: nat, fate: Fate, h: Hash)
    requires i < |l.meta.segments| == |l.covered|
    ensures var (m, touch) := TouchSegment(l, i, file, first, last, fate, h);
      && m.sidecar == l.sidecar && m.unsaved == l.unsaved
      && Hashes(m.meta) == Hashes(l.meta) + (if touch.Hashed? then 1 else 0)
      && (!touch.Hashed? ==> m.meta == l.meta)
      && (touch.Unreadable? ==> fate.unreadable.Some?)
  {
    var s := l.meta.segments[i];
    if s.hash == None {
      forall v: nat ensures Sum(l.meta.segments[i := s.(hash := Some(v))], HasHash())
                         == Hashes(l.meta) + 1 {
        SumUpdate(l.meta.segments, i, s.(hash := Some(v)), HasHash());
      }
    }
  }

  lemma {:induction false} PassCounts(l: Ledger, lo: nat, hi: int, file: seq<Byte>, first: nat, last: nat, fate: Fate,
                                      h: Hash)
    requires hi < |l.meta.segments| == |l.covered|
    ensures var p := TouchAll(l, lo, hi, file, first, last, fate, h);
      && p.ledger.sidecar == l.sidecar && p.ledger.unsaved == l.unsaved
      && Hashes(p.ledger.meta) == Hashes(l.meta) + p.completed
      && (p.completed == 0 ==> p.ledger.meta == l.meta)
      && (!p.ok ==> fate.unreadable.Some?)
    decreases hi + 1 - lo
  {
    hide TouchSegment;
    if lo <= hi {
      var (next, touch) := TouchSegment(l, lo, file, first, last, fate, h);
      TouchCounts(l, lo, file, first, last, fate, h);
      TouchShape(l, lo, file, first, last, fate, h);
      if !touch.Unreadable? {
        PassCounts(next, lo + 1, hi, file, first, last, fate, h);
      }
    }
  }

  lemma TouchShape(l: Ledger, i: nat, file: seq<Byte>, first: nat, last: nat, fate: Fate, h: Hash)
    requires i < |l.meta.segments| == |l.covered|
    ensures var m := TouchSegment(l, i, file, first, last, fate, h).0;
      |m.meta.segments| == |m.covered| == |l.covered|
  {
  }

  /** The hashes that the sidecar does not have yet. */
  ghost function NewHashes(l: Ledger, m: Ledger): int {
    Hashes(m.meta) - Hashes(l.meta)
  }

  /** Sixteen hashes that wait, or a second since the last save, with a new hash among them. */
  ghost predicate SaveDue(l: Ledger, m: Ledger, fate: Fate) {
    NewHashes(l, m) > 0 && (l.unsaved + NewHashes(l, m) >= SAVE_BATCH || fate.due)
  }

  /** A recorded write saves the ledger exactly when a save is due; it is an error exactly if a segment
      cannot be read back or a due save fails; and the hashes that wait are counted. */
  lemma RecordSaves(l: Ledger, file: seq<Byte>, offset: nat, len: nat, fate: Fate, h: Hash)
    requires |l.meta.segments| == |l.covered|
    ensures var (m, ok) := Record(l, file, offset, len, fate, h);
      && NewHashes(l, m) >= 0 && (NewHashes(l, m) == 0 ==> m.meta == l.meta)
      && (ok && SaveDue(l, m, fate) ==> fate.saves && m.sidecar == Stored(m.meta) && m.unsaved == 0)
      && (ok && !SaveDue(l, m, fate) ==> m.sidecar == l.sidecar && m.unsaved == l.unsaved + NewHashes(l, m))
      && (!ok ==> fate.unreadable.Some? || (SaveDue(l, m, fate) && !fate.saves))
  {
    hide TouchAll;
    if len > 0 && l.meta.fileSize > 0 {
      var last := offset + len - 1;
      PassCounts(l, FirstIndex(l.meta, offset), LastIndex(l.meta, last), file, offset, last, fate, h);
    }
  }

  /** How far the sidecar is behind the ledger: by the hashes that are counted as waiting, fewer than a
      batch; and if none waits it is the ledger, or, when the first save failed, there is nothing new. */
  ghost predicate Behind(l: Ledger, base: Metadata, synced: bool) {
    && (l.unsaved == 0 ==> l.sidecar == Stored(l.meta) || (!synced && l.meta == base))
    && l.unsaved < SAVE_BATCH
    && (synced ==> l.sidecar.Stored?
                   && Hashes(l.sidecar.meta) + l.unsaved == Hashes(l.meta))
  }

  lemma RecordBehind(l: Ledger, file: seq<Byte>, offset: nat, len: nat, fate: Fate, h: Hash, base: Metadata,
                     synced: bool)
    requires |l.meta.segments| == |l.covered| && Behind(l, base, synced)
    ensures var (m, ok) := Record(l, file, offset, len, fate, h); ok ==> Behind(m, base, synced)
  {
    hide Record;
    RecordSaves(l, file, offset, len, fate, h);
  }

  // ----- what the ledger has to show for the writes

  /** A hash is one the ledger was opened with, or stands for a segment that was written completely. */
  ghost predicate Earned(base: Metadata, m: Metadata, seen: iset<int>) {
    && |m.segments| == |base.segments|
    && forall i | 0 <= i < |m.segments| ::
         && m.segments[i].range == base.segments[i].range
         && (base.segments[i].hash.Some? ==> m.segments[i] == base.segments[i])
         && (m.segments[i].hash.Some? && base.segments[i].hash == None ==>
               forall x | In(x, m.segments[i].range) :: x in seen)
  }

  ghost predicate Kept(s: State, base: Metadata, synced: bool) {
    s.ledger.Some? ==>
      Behind(s.ledger.value, base, synced) && Earned(base, s.ledger.value.meta, WrittenSet(s.written))
  }

  lemma EarnedMore(base: Metadata, l: Metadata, m: Metadata, seen: iset<int>, all: iset<int>, file: seq<Byte>, h: Hash)
    requires Earned(base, l, seen) && seen <= all && |m.segments| == |l.segments|
    requires forall i | 0 <= i < |m.segments| :: TouchedRight(l.segments[i], m.segments[i], file, all, h)
    ensures Earned(base, m, all)
  {
    forall i | 0 <= i < |m.segments| && m.segments[i].hash.Some? && base.segments[i].hash == None
      ensures forall x | In(x, m.segments[i].range) :: x in all
    {
      assert TouchedRight(l.segments[i], m.segments[i], file, all, h);
    }
  }

  lemma BookKept(s: State, p: Piece, fate: Fate, h: Hash, trusted: seq<Range>, source: seq<Byte>, base: Metadata,
                 synced: bool)
    requires Sound(s, trusted, source, h) && !s.failed && s.pending == None && Genuine(p, source)
    requires Kept(s, base, synced)
    ensures !Book(s, p, fate, h).failed ==> Kept(Book(s, p, fate, h), base, synced)
  {
    hide Record, Behind, Earned, Tracks, Mark, Covered, Honest, HonestSidecar;
    if s.ledger.Some? {
      var l := s.ledger.value;
      var file := Patch(s.file, p.offset, p.data);
      MarkGrows(s.written, p, source);
      RecordBehind(l, file, p.offset, |p.data|, fate, h, base, synced);
      if p.data == [] {
        EmptyRecord(l, file, p.offset, fate, h);
        assert WrittenSet(Mark(s.written, p.offset, |p.data|)) == WrittenSet(s.written);
      } else {
        RecordEarned(s, p, fate, h, trusted, source, base);
      }
    }
  }

  lemma RecordEarned(s: State, p: Piece, fate: Fate, h: Hash, trusted: seq<Range>, source: seq<Byte>, base: Metadata)
    requires InStep(s, trusted, source) && Genuine(p, source) && p.data != [] && s.ledger.Some?
    requires Earned(base, s.ledger.value.meta, WrittenSet(s.written))
    ensures var m := Record(s.ledger.value, Patch(s.file, p.offset, p.data), p.offset, |p.data|, fate, h).0;
      Earned(base, m.meta, WrittenSet(Mark(s.written, p.offset, |p.data|)))
  {
    hide Record, Earned, Tracks, Mark, Covered;
    var l, seen := s.ledger.value, WrittenSet(s.written);
    var file := Patch(s.file, p.offset, p.data);
    var all := seen + Stretch(p.offset, p.offset + |p.data| - 1);
    MarkGrows(s.written, p, source);
    forall x | x in all ensures 0 <= x < |file| {
      PatchRight(s.file, p.offset, p.data, source, x);
    }
    TracksLengths(l, |source|, seen);
    RecordRight(l, |source|, file, p.offset, |p.data|, fate, h, seen);
    EarnedMore(base, l.meta, Record(l, file, p.offset, |p.data|, fate, h).0.meta, seen, all, file, h);
  }

  lemma TracksLengths(l: Ledger, size: nat, seen: iset<int>)
    requires Tracks(l, size, seen)
    ensures |l.meta.segments| == |l.covered|
  {
  }

  lemma LandKept(s: State, fate: FlushFate, h: Hash, trusted: seq<Range>, source: seq<Byte>, base: Metadata,
                 synced: bool)
    requires Sound(s, trusted, source, h) && !s.failed && Kept(s, base, synced)
    ensures !Land(s, fate, h).failed ==> Kept(Land(s, fate, h), base, synced)
    ensures !LandLast(s, fate, h).failed ==> Kept(LandLast(s, fate, h), base, synced)
  {
    hide Book, InStep, Behind, Earned;
    if s.pending.Some? && fate.Fine? {
      Taken(s, trusted, source);
      BookKept(s.(pending := None), s.pending.value, fate.record, h, trusted, source, base, synced);
    }
  }

  lemma ReceiveKept(s: State, p: Piece, fate: FlushFate, h: Hash, trusted: seq<Range>, source: seq<Byte>,
                    base: Metadata, synced: bool)
    requires Sound(s, trusted, source, h) && !s.failed && Kept(s, base, synced)
    ensures !Receive(s, p, fate, h).failed ==> Kept(Receive(s, p, fate, h), base, synced)
  {
    hide Land, Behind, Earned, Sound;
    LandKept(s, fate, h, trusted, source, base, synced);
  }

  lemma {:induction false} LoopKept(s: State, steps: seq<Step>, h: Hash, trusted: seq<Range>, source: seq<Byte>,
                                    base: Metadata, synced: bool)
    requires Sound(s, trusted, source, h) && AllGenuine(Pieces(steps), source) && !s.failed && Kept(s, base, synced)
    ensures !Loop(s, steps, h).failed ==> Kept(Loop(s, steps, h), base, synced)
    decreases |steps|
  {
    hide InStep, LedgerHonest, Receive, LandLast, Land, Kept, Genuine;
    if steps != [] {
      match steps[0].command
      case Other => LoopKept(s, steps[1..], h, trusted, source, base, synced);
      case TerminateAll => LandKept(s, steps[0].fate, h, trusted, source, base, synced);
      case WriteFile(p) =>
        var r := Receive(s, p, steps[0].fate, h);
        assert p in Pieces(steps);
        ReceiveSound(s, p, steps[0].fate, h, trusted, source);
        ReceiveKept(s, p, steps[0].fate, h, trusted, source, base, synced);
        if !r.failed {
          LoopKept(r, steps[1..], h, trusted, source, base, synced);
        } else {
          FailedStops(r, steps[1..], h);
        }
    }
  }

  lemma FailedStops(s: State, steps: seq<Step>, h: Hash)
    requires Fits(s) && s.failed
    ensures Loop(s, steps, h) == s
  {
  }

  /** While a session whose first save worked goes on without failure, fewer than 16 of the ledger's hashes
      are missing in the sidecar: that many segments a crash costs at most. */
  lemma CrashCostsLessThanABatch(s: State, steps: seq<Step>, h: Hash, trusted: seq<Range>, source: seq<Byte>,
                                 base: Metadata)
    requires Sound(s, trusted, source, h) && AllGenuine(Pieces(steps), source) && !s.failed
    requires s.written == [] && s.ledger == Some(OpenLedger(base, Stored(base)))
    requires !Loop(s, steps, h).failed
    ensures var l := Loop(s, steps, h).ledger;
      && l.Some? && l.value.sidecar.Stored?
      && Hashes(l.value.meta) - Hashes(l.value.sidecar.meta) < SAVE_BATCH
      && Hashes(l.value.meta) >= Hashes(l.value.sidecar.meta)
  {
    hide Loop, Sound, Genuine;
    LoopKept(s, steps, h, trusted, source, base, true);
    LoopKeepsLedger(s, steps, h);
  }

  lemma {:induction false} LoopKeepsLedger(s: State, steps: seq<Step>, h: Hash)
    requires Fits(s)
    ensures Loop(s, steps, h).ledger.Some? <==> s.ledger.Some?
    decreases |steps|
  {
    hide Record, Mark;
    if steps != [] && !s.failed {
      match steps[0].command
      case Other => LoopKeepsLedger(s, steps[1..], h);
      case TerminateAll =>
      case WriteFile(p) => LoopKeepsLedger(Receive(s, p, steps[0].fate, h), steps[1..], h);
    }
  }

  // ----- from session to session

  /** How the writer's task ends in a session that reaches its exit. */
  ghost function Ended(d: Disk, r: Run, size: nat, h: Hash): State
    requires Prepare(r.resume, d.sidecar, d.file, size, r.io, h).plan.Some? && r.close.Exit?
  {
    var prepared := Prepare(r.resume, d.sidecar, d.file, size, r.io, h);
    var plan := prepared.plan.value;
    var looped := Loop(StartWriter(plan, d, prepared.sidecar), r.steps, h);
    Writer.Finish(looped, r.close.ending, Trusted(plan, size), size, h).0
  }

  /** A resumable session that reaches its exit without a failed disk operation, finished or not. */
  ghost predicate EndsCleanly(d: Disk, r: Run, size: nat, h: Hash) {
    && r.resume && r.close.Exit? && Prepare(r.resume, d.sidecar, d.file, size, r.io, h).plan.Some?
    && !Ended(d, r, size, h).failed
  }

  /** As every resumable session on a working disk does. */
  lemma WorkingDiskEndsCleanly(d: Disk, r: Run, size: nat, h: Hash)
    requires r.resume && WorkingDisk(r) && Prepare(r.resume, d.sidecar, d.file, size, r.io, h).plan.Some?
    ensures EndsCleanly(d, r, size, h)
  {
    hide Prepare, Loop, Land, Trusted, Smooth;
    var prepared := Prepare(r.resume, d.sidecar, d.file, size, r.io, h);
    var s := StartWriter(prepared.plan.value, d, prepared.sidecar);
    LoopKeeps(s, r.steps, h, 0);
    LandKeeps(Loop(s, r.steps, h), r.close.ending.land, h, 0);
    SaveWorks(Land(Loop(s, r.steps, h), r.close.ending.land, h));
  }

  /** The ledger that is left, and what it has to show. */
  ghost predicate Saved(t: State, base: Metadata, synced: bool, trusted: seq<Range>, source: seq<Byte>, h: Hash) {
    && !t.failed && t.ledger.Some? && InStep(t, trusted, source) && LedgerHonest(t, source, h)
    && Earned(base, t.ledger.value.meta, WrittenSet(t.written))
    && (t.ledger.value.sidecar == Stored(t.ledger.value.meta) || (!synced && t.ledger.value.meta == base))
  }

  lemma FinishSaved(s: State, e: Ending, h: Hash, trusted: seq<Range>, source: seq<Byte>, base: Metadata, synced: bool)
    requires Sound(s, trusted, source, h) && (!s.failed ==> Kept(s, base, synced)) && s.ledger.Some?
    requires !Writer.Finish(s, e, trusted, |source|, h).0.failed
    ensures Saved(Writer.Finish(s, e, trusted, |source|, h).0, base, synced, trusted, source, h)
  {
    hide Land, InStep, Earned, Honest, HonestSidecar;
    if !s.failed {
      LandSound(s, e.land, h, trusted, source);
      LandKept(s, e.land, h, trusted, source, base, synced);
      LandKeepsLedger(s, e.land, h);
    }
    var emptied := if s.failed then s.(pending := None) else Land(s, e.land, h);
    assert !emptied.failed;
    FlushSaves(emptied, e.saves, base, synced, trusted, source, h);
  }

  lemma LandKeepsLedger(s: State, fate: FlushFate, h: Hash)
    requires Fits(s)
    ensures Land(s, fate, h).ledger.Some? <==> s.ledger.Some?
  {
    hide Record, Mark;
  }

  lemma FlushSaves(s: State, saves: bool, base: Metadata, synced: bool, trusted: seq<Range>, source: seq<Byte>, h: Hash)
    requires InStep(s, trusted, source) && LedgerHonest(s, source, h) && Kept(s, base, synced) && s.ledger.Some?
    requires !SaveLedger(s, saves).failed
    ensures Saved(SaveLedger(s, saves), base, synced, trusted, source, h)
  {
    hide Honest, Earned, Covered, TracksOne, Shaped;
  }

  /** Byte x is in a segment all of which was trusted or written. */
  ghost predicate Whole(base: Metadata, written: seq<Range>, trusted: seq<Range>, x: int) {
    exists i :: 0 <= i < |base.segments| && In(x, base.segments[i].range)
                && forall y | In(y, base.segments[i].range) :: Written(written, trusted, y)
  }

  /** A segment that is whole has a hash in the ledger. */
  lemma WholeIsHashed(t: State, base: Metadata, trusted: seq<Range>, source: seq<Byte>, i: nat)
    requires InStep(t, trusted, source) && t.ledger.Some? && Shaped(base, |source|)
    requires Earned(base, t.ledger.value.meta, WrittenSet(t.written)) && trusted == VerifiedRanges(base)
    requires i < |base.segments| && forall y | In(y, base.segments[i].range) :: Written(t.written, trusted, y)
    ensures t.ledger.value.meta.segments[i].hash.Some?
  {
    hide VerifiedRanges, Shaped, Covered;
    var l := t.ledger.value;
    if l.meta.segments[i].hash == None {
      TracksSegment(l, |source|, WrittenSet(t.written), i);
      var y :| In(y, l.meta.segments[i].range) && y !in WrittenSet(t.written);
      assert Written(t.written, trusted, y);
      VerifiedAre(base, |source|);
      OneSegment(base, |source|, y);
    }
  }

  lemma TracksSegment(l: Ledger, size: nat, seen: iset<int>, i: nat)
    requires Tracks(l, size, seen) && i < |l.meta.segments| && l.meta.segments[i].hash == None
    ensures exists y :: In(y, l.meta.segments[i].range) && y !in seen
  {
    assert TracksOne(l.meta.segments[i], l.covered[i], seen);
  }

  /** What the ledger has a hash for was trusted or written, and stands on the disk. */
  lemma HashedIsWhole(t: State, base: Metadata, trusted: seq<Range>, source: seq<Byte>, h: Hash, i: nat)
    requires InStep(t, trusted, source) && LedgerHonest(t, source, h) && t.ledger.Some? && Shaped(base, |source|)
    requires Earned(base, t.ledger.value.meta, WrittenSet(t.written)) && trusted == VerifiedRanges(base)
    requires i < |base.segments| && t.ledger.value.meta.segments[i].hash.Some?
    ensures forall y | In(y, base.segments[i].range) :: Written(t.written, trusted, y)
    ensures Stands(t.ledger.value.meta.segments[i], t.file, h)
  {
    hide VerifiedRanges, Shaped, Covered, Tracks, Right, HonestSidecar;
    var s := t.ledger.value.meta.segments[i];
    VerifiedAre(base, |source|);
    forall y | In(y, s.range) ensures Written(t.written, trusted, y) {
      if base.segments[i].hash.Some? {
        assert InSegment(base.segments, true, y);
      }
    }
    SliceRight(t.file, source, s.range);
  }

  /** So the segments that stand are exactly the whole ones. */
  lemma StandingIffWhole(t: State, base: Metadata, synced: bool, trusted: seq<Range>, source: seq<Byte>, h: Hash,
                         x: int)
    requires Saved(t, base, synced, trusted, source, h) && Shaped(base, |source|) && trusted == VerifiedRanges(base)
    ensures InStanding(t.ledger.value.meta, t.file, h, x) <==> Whole(base, t.written, trusted, x)
  {
    hide VerifiedRanges, Shaped, InStep, LedgerHonest, Stands;
    var m := t.ledger.value.meta;
    if InStanding(m, t.file, h, x) {
      var i :| 0 <= i < |m.segments| && Stands(m.segments[i], t.file, h) && In(x, m.segments[i].range);
      StandsHashed(m.segments[i], t.file, h);
      HashedIsWhole(t, base, trusted, source, h, i);
    }
    if Whole(base, t.written, trusted, x) {
      var i :| 0 <= i < |base.segments| && In(x, base.segments[i].range)
               && forall y | In(y, base.segments[i].range) :: Written(t.written, trusted, y);
      WholeIsHashed(t, base, trusted, source, i);
      HashedIsWhole(t, base, trusted, source, h, i);
    }
  }

  lemma StandsHashed(s: Segment, file: seq<Byte>, h: Hash)
    requires Stands(s, file, h)
    ensures s.hash.Some?
  {
  }

  lemma SavedShape(t: State, base: Metadata, synced: bool, trusted: seq<Range>, source: seq<Byte>, h: Hash)
    requires Saved(t, base, synced, trusted, source, h)
    ensures Shaped(t.ledger.value.meta, |source|)
  {
  }

  /** Nothing is whole when the ledger is still the one without hashes that the session began with. */
  lemma BareIsNotWhole(t: State, base: Metadata, synced: bool, trusted: seq<Range>, source: seq<Byte>, h: Hash, x: int)
    requires Saved(t, base, synced, trusted, source, h) && Shaped(base, |source|) && trusted == VerifiedRanges(base)
    requires t.ledger.value.meta == base && Hashes(base) == 0
    ensures !Whole(base, t.written, trusted, x)
  {
    hide VerifiedRanges, Shaped, InStep, LedgerHonest;
    if Whole(base, t.written, trusted, x) {
      var i :| 0 <= i < |base.segments| && In(x, base.segments[i].range)
               && forall y | In(y, base.segments[i].range) :: Written(t.written, trusted, y);
      WholeIsHashed(t, base, trusted, source, i);
      SumAtLeast(base.segments, i, HasHash());
    }
  }

  lemma EndedSaved(d: Disk, r: Run, source: seq<Byte>, h: Hash)
    requires HonestSidecar(d.sidecar, source, h) && SafeHash(d.sidecar, source, h) && FromSource(r, source)
    requires EndsCleanly(d, r, |source|, h)
    ensures var plan := Prepare(r.resume, d.sidecar, d.file, |source|, r.io, h).plan.value;
      && plan.metadata.Some? && Shaped(plan.metadata.value, |source|)
      && Trusted(plan, |source|) == VerifiedRanges(plan.metadata.value)
      && (!r.io.saves ==> Hashes(plan.metadata.value) == 0)
      && Saved(Ended(d, r, |source|, h), plan.metadata.value, r.io.saves, Trusted(plan, |source|), source, h)
  {
    hide Prepare, Loop, Writer.Finish, HonestSidecar, SafeHash, Sound, Honest, Trusted, Shaped, VerifiedRanges, Kept,
         Genuine;
    PlanIsRight(r.resume, d.sidecar, d.file, r.io, source, h);
    ScratchIff(r.resume, d.sidecar, d.file, |source|, r.io, h);
    var prepared := Prepare(r.resume, d.sidecar, d.file, |source|, r.io, h);
    var plan := prepared.plan.value;
    PlanHasLedger(d, r, |source|, h);
    var base, trusted := plan.metadata.value, Trusted(plan, |source|);
    var s := StartWriter(plan, d, prepared.sidecar);
    OpensSound(plan, d, prepared.sidecar, source, h);
    OpensKept(base, prepared.sidecar, r.io.saves);
    assert s.ledger == Some(OpenLedger(base, prepared.sidecar)) && s.written == [] && !s.failed;
    assert Kept(s, base, r.io.saves) by { KeptFrom(s, base, r.io.saves); }
    LoopSound(s, r.steps, h, trusted, source);
    LoopKept(s, r.steps, h, trusted, source, base, r.io.saves);
    LoopKeepsLedger(s, r.steps, h);
    FinishSaved(Loop(s, r.steps, h), r.close.ending, h, trusted, source, base, r.io.saves);
  }

  lemma PlanHasLedger(d: Disk, r: Run, size: nat, h: Hash)
    requires r.resume && Prepare(r.resume, d.sidecar, d.file, size, r.io, h).plan.Some?
    ensures var p := Prepare(r.resume, d.sidecar, d.file, size, r.io, h);
      && p.plan.value.metadata.Some? && (r.io.saves ==> p.sidecar == Stored(p.plan.value.metadata.value))
      && (!r.io.saves ==> Hashes(p.plan.value.metadata.value) == 0)
  {
    hide Shaped, Rechecked, New, RemainingRanges, CompletedBytes;
    NewIsBare(size);
  }

  lemma OpensKept(base: Metadata, sidecar: Sidecar, synced: bool)
    requires synced ==> sidecar == Stored(base)
    ensures Behind(OpenLedger(base, sidecar), base, synced)
    ensures Earned(base, base, WrittenSet([]))
  {
  }

  lemma KeptFrom(s: State, base: Metadata, synced: bool)
    requires s.ledger.Some? && Behind(s.ledger.value, base, synced)
    requires Earned(base, s.ledger.value.meta, WrittenSet(s.written))
    ensures Kept(s, base, synced)
  {
  }

  /** The next session trusts what this one made whole: after a clean exit, whether or not the file was
      accepted, a byte is trusted if its whole segment was trusted or written; and, when the first save of
      this session worked, only then. */
  lemma NextSessionTrusts(d: Disk, r: Run, source: seq<Byte>, h: Hash, io: SidecarIo, x: int)
    requires HonestSidecar(d.sidecar, source, h) && SafeHash(d.sidecar, source, h) && FromSource(r, source)
    requires EndsCleanly(d, r, |source|, h) && io.saves
    ensures var plan := Prepare(r.resume, d.sidecar, d.file, |source|, r.io, h).plan.value;
      var e := RunSession(d, r, |source|, h).0;
      var next := Prepare(true, e.sidecar, e.file, |source|, io, h).plan;
      && plan.metadata.Some? && next.Some?
      && (Whole(plan.metadata.value, Ended(d, r, |source|, h).written, Trusted(plan, |source|), x)
          ==> Covered(Trusted(next.value, |source|), x))
      && (r.io.saves && Covered(Trusted(next.value, |source|), x)
          ==> Whole(plan.metadata.value, Ended(d, r, |source|, h).written, Trusted(plan, |source|), x))
  {
    hide Prepare, Loop, Writer.Finish, HonestSidecar, SafeHash, FromSource, Trusted, Shaped, VerifiedRanges, Covered,
         InStep, LedgerHonest, Earned, Whole, InStanding;
    EndedSaved(d, r, source, h);
    var plan := Prepare(r.resume, d.sidecar, d.file, |source|, r.io, h).plan.value;
    var base, trusted := plan.metadata.value, Trusted(plan, |source|);
    var t := Ended(d, r, |source|, h);
    EndsOnDisk(d, r, |source|, h);
    var e := RunSession(d, r, |source|, h).0;
    ScratchIff(true, e.sidecar, e.file, |source|, io, h);
    SavedShape(t, base, r.io.saves, trusted, source, h);
    if t.ledger.value.sidecar == Stored(t.ledger.value.meta) {
      PlanKeepsWhatStands(t.ledger.value.meta, t.file, |source|, io, h);
      StandingIffWhole(t, base, r.io.saves, trusted, source, h, x);
    } else {
      BareIsNotWhole(t, base, r.io.saves, trusted, source, h, x);
    }
  }

  lemma EndsOnDisk(d: Disk, r: Run, size: nat, h: Hash)
    requires EndsCleanly(d, r, size, h) && Ended(d, r, size, h).ledger.Some?
    ensures var e, t := RunSession(d, r, size, h).0, Ended(d, r, size, h);
      e.file == Some(t.file) && e.sidecar == t.ledger.value.sidecar
  {
    hide Prepare, Loop, Writer.Finish, Trusted;
  }

  // ----- and what is trusted is not fetched

  /** No run hands a trusted byte to the writer, or has it open anywhere. */
  lemma TrustedNeverFetched(p: Protocol.Session, es: seq<Protocol.Event>, x: int)
    requires Protocol.Proper(p) && Protocol.Legal(Protocol.Begin(p), es) && Covered(p.trusted, x)
    ensures var s := Protocol.After(Protocol.Begin(p), es);
      && Sum(s.handed, Chunk.Covers(x)) == 0
      && Protocol.Open(s, Partition.RestOf(Holds(x)), Chunk.Plain(Holds(x))) == 0
  {
    hide Protocol.Begin, Protocol.Open, Protocol.Step;
    var s := Protocol.After(Protocol.Begin(p), es);
    Partition.PartitionAlways(p, es, x);
    Partition.RunKeepsPlaces(Protocol.Begin(p), es, x);
    Finish.BeginsWithTrusted(p);
    CoveredIsHeld(p.trusted, x);
    EmptyAttempts.OpenNonneg(s, x);
    Partition.OpenParts(s, Partition.RestOf(Holds(x)), Chunk.Plain(Holds(x)));
    SumNonneg(s.handed, Chunk.Covers(x));
  }

  lemma CoveredIsHeld(rs: seq<Range>, x: int)
    requires Covered(rs, x)
    ensures Sum(rs, Holds(x)) >= 1
  {
    var i :| 0 <= i < |rs| && In(x, rs[i]);
    SumAtLeast(rs, i, Holds(x));
  }

  /** Over two sessions: a segment that the first one made whole is not fetched again by the second, which
      it was prepared for, in any run. */
  lemma WholeSegmentsAreKept(d: Disk, r: Run, source: seq<Byte>, h: Hash, io: SidecarIo, workers: nat,
                             lanes: Option<Lanes.Schedule>, start: int, es: seq<Protocol.Event>, x: int)
    requires HonestSidecar(d.sidecar, source, h) && SafeHash(d.sidecar, source, h) && FromSource(r, source)
    requires EndsCleanly(d, r, |source|, h) && io.saves
    requires Protocol.Proper(Protocol.Session(0, 0, [], [], lanes, start))
    requires var plan := Prepare(r.resume, d.sidecar, d.file, |source|, r.io, h).plan.value;
      plan.metadata.Some?
      && Whole(plan.metadata.value, Ended(d, r, |source|, h).written, Trusted(plan, |source|), x)
    requires var e := RunSession(d, r, |source|, h).0;
      var next := Prepare(true, e.sidecar, e.file, |source|, io, h).plan;
      next.Some? && Protocol.Legal(Protocol.Begin(SessionOf(next.value, |source|, workers, lanes, start)), es)
    ensures var e := RunSession(d, r, |source|, h).0;
      var next := Prepare(true, e.sidecar, e.file, |source|, io, h).plan;
      var p := SessionOf(next.value, |source|, workers, lanes, start);
      Sum(Protocol.After(Protocol.Begin(p), es).handed, Chunk.Covers(x)) == 0
  {
    hide Prepare, RunSession, HonestSidecar, SafeHash, FromSource, EndsCleanly, Trusted, Covered, Whole, Protocol.Begin,
         Protocol.Proper;
    var e := RunSession(d, r, |source|, h).0;
    NextSessionTrusts(d, r, source, h, io, x);
    var next := Prepare(true, e.sidecar, e.file, |source|, io, h).plan.value;
    PlanIsProper(true, e.sidecar, e.file, |source|, io, h, workers, lanes, start);
    TrustedNeverFetched(SessionOf(next, |source|, workers, lanes, start), es, x);
  }

  /** The same for any stored ledger: a segment that it holds and the disk still has is not fetched. */
  lemma StandingIsNotFetched(m: Metadata, file: seq<Byte>, size: nat, io: SidecarIo, h: Hash, workers: nat,
                             lanes: Option<Lanes.Schedule>, start: int, es: seq<Protocol.Event>, x: int)
    requires Shaped(m, size) && io.saves && InStanding(m, file, h, x)
    requires Protocol.Proper(Protocol.Session(0, 0, [], [], lanes, start))
    requires var plan := Prepare(true, Stored(m), Some(file), size, io, h).plan;
      plan.Some? && Protocol.Legal(Protocol.Begin(SessionOf(plan.value, size, workers, lanes, start)), es)
    ensures var plan := Prepare(true, Stored(m), Some(file), size, io, h).plan;
      var p := SessionOf(plan.value, size, workers, lanes, start);
      Sum(Protocol.After(Protocol.Begin(p), es).handed, Chunk.Covers(x)) == 0
  {
    hide Prepare, Shaped, InStanding, Trusted, Covered, Protocol.Begin, Protocol.Proper;
    PlanKeepsWhatStands(m, file, size, io, h);
    PlanIsProper(true, Stored(m), Some(file), size, io, h, workers, lanes, start);
    var plan := Prepare(true, Stored(m), Some(file), size, io, h).plan.value;
    TrustedNeverFetched(SessionOf(plan, size, workers, lanes, start), es, x);
  }
}
