/** Sessions one after another, each ended by a crash or by the writer's verdict: an accepted file is
    the source. And the other way round: what the monitor calls finished, the writer accepts. */
module EndToEnd {
  import opened Ranges
  import opened Extents
  import opened Files
  import opened Segments
  import opened Resume
  import opened Recorder
  import opened Writer
  import Chunk
  import Finish
  import Lanes
  import OrderedLedger
  import Protocol
  import Split

  datatype Disk = Disk(file: Option<seq<Byte>>, sidecar: Sidecar)

  /** A crash leaves any file at all, and the sidecar that was saved last. */
  datatype Close = Crash(file: Option<seq<Byte>>) | Exit(ending: Ending)

  datatype Run = Run(resume: bool, io: SidecarIo, steps: seq<Step>, close: Close)

  function StartWriter(plan: Plan, d: Disk, sidecar: Sidecar): (s: State)
    ensures Fits(s)
  {
    State(StartFile(plan, d.file), None, [],
          if plan.metadata == None then None else Some(OpenLedger(plan.metadata.value, sidecar)), false)
  }

  function SidecarAfter(s: State, before: Sidecar): Sidecar {
    if s.ledger == None then before else s.ledger.value.sidecar
  }

  ghost function RunSession(d: Disk, r: Run, size: nat, h: Hash): (Disk, bool) {
    var prepared := Prepare(r.resume, d.sidecar, d.file, size, r.io, h);
    if prepared.plan == None then (d.(sidecar := prepared.sidecar), false)
    else
      var plan := prepared.plan.value;
      var s := Loop(StartWriter(plan, d, prepared.sidecar), r.steps, h);
      match r.close
      case Crash(file) => (Disk(file, SidecarAfter(s, prepared.sidecar)), false)
      case Exit(e) =>
        var (t, ok) := Writer.Finish(s, e, Trusted(plan, size), size, h);
        (Disk(Some(t.file), SidecarAfter(t, prepared.sidecar)), ok)
  }

  /** The disk after all sessions, and whether the last one accepted its file. */
  ghost function RunAll(d: Disk, runs: seq<Run>, size: nat, h: Hash): (Disk, bool)
    decreases |runs|
  {
    if runs == [] then (d, false)
    else if |runs| == 1 then RunSession(d, runs[0], size, h)
    else RunAll(RunSession(d, runs[0], size, h).0, runs[1..], size, h)
  }

  ghost predicate FromSource(r: Run, source: seq<Byte>) {
    AllGenuine(Pieces(r.steps), source)
  }

  /** Every write is a piece of the source, and the hash has no collision on the ledgers that the
      sessions find. */
  ghost predicate Faithful(d: Disk, runs: seq<Run>, source: seq<Byte>, h: Hash)
    decreases |runs|
  {
    runs == [] ||
    (SafeHash(d.sidecar, source, h) && FromSource(runs[0], source)
     && Faithful(RunSession(d, runs[0], |source|, h).0, runs[1..], source, h))
  }

  ghost predicate Holding(d: Disk, source: seq<Byte>) {
    d.file.Some? && |d.file.value| >= |source| && d.file.value[..|source|] == source
  }

  /** The file a session begins to write into. */
  ghost function Found(d: Disk, r: Run, size: nat, h: Hash): seq<Byte> {
    var plan := Prepare(r.resume, d.sidecar, d.file, size, r.io, h).plan;
    if plan == None then [] else StartFile(plan.value, d.file)
  }

  /** The last test, after the writer accepted: the file must have the expected length. */
  ghost predicate RightLength(d: Disk, size: nat) {
    size > 0 ==> d.file.Some? && |d.file.value| == size
  }

  lemma OpensSound(plan: Plan, d: Disk, sidecar: Sidecar, source: seq<Byte>, h: Hash)
    requires HonestSidecar(sidecar, source, h)
    requires plan.metadata.Some? ==> Shaped(plan.metadata.value, |source|) && Honest(plan.metadata.value, source, h)
    requires forall x | Covered(Trusted(plan, |source|), x) :: Right(StartFile(plan, d.file), source, x)
    ensures Sound(StartWriter(plan, d, sidecar), Trusted(plan, |source|), source, h)
  {
    hide Trusted, StartFile, Right, Honest, HonestSidecar;
    forall x ensures !Covered([], x) {
      NoneCovered(x);
    }
    if plan.metadata.Some? {
      OpensTracking(plan.metadata.value, sidecar, |source|);
      assert WrittenSet([]) == iset{};
    }
  }

  lemma OpensTracking(m: Metadata, sidecar: Sidecar, size: nat)
    requires Shaped(m, size)
    ensures Tracks(OpenLedger(m, sidecar), size, iset{})
  {
    SegmentsNonempty(m, size);
    forall i | 0 <= i < |m.segments|
      ensures TracksOne(m.segments[i], OpenLedger(m, sidecar).covered[i], iset{})
    {
      assert In(m.segments[i].range.start, m.segments[i].range);
    }
  }

  lemma SessionIsRight(d: Disk, r: Run, source: seq<Byte>, h: Hash)
    requires HonestSidecar(d.sidecar, source, h) && SafeHash(d.sidecar, source, h) && FromSource(r, source)
    ensures var (e, ok) := RunSession(d, r, |source|, h);
      HonestSidecar(e.sidecar, source, h) && (ok ==> Holding(e, source))
  {
    hide Prepare, Loop, Writer.Finish, HonestSidecar, SafeHash, Sound, Honest, Trusted, Shaped;
    PlanIsRight(r.resume, d.sidecar, d.file, r.io, source, h);
    var prepared := Prepare(r.resume, d.sidecar, d.file, |source|, r.io, h);
    if prepared.plan.Some? {
      var plan := prepared.plan.value;
      var trusted := Trusted(plan, |source|);
      var s := StartWriter(plan, d, prepared.sidecar);
      OpensSound(plan, d, prepared.sidecar, source, h);
      LoopSound(s, r.steps, h, trusted, source);
      StaysHonest(Loop(s, r.steps, h), trusted, source, h, prepared.sidecar);
      if r.close.Exit? {
        AcceptedIsRight(s, r.steps, r.close.ending, trusted, source, h);
      }
    }
  }

  lemma StaysHonest(s: State, trusted: seq<Range>, source: seq<Byte>, h: Hash, before: Sidecar)
    requires Sound(s, trusted, source, h) && HonestSidecar(before, source, h)
    ensures HonestSidecar(SidecarAfter(s, before), source, h)
  {
  }

  /** Nothing the writer does shortens a file, and nothing takes it further than the source: a file that
      was accepted is the source's, and passes the length test, if and only if the session did not begin
      with a longer one. It is never too short, so its tail never has to be fetched again. */
  lemma AcceptedLength(d: Disk, r: Run, source: seq<Byte>, h: Hash)
    requires HonestSidecar(d.sidecar, source, h) && SafeHash(d.sidecar, source, h) && FromSource(r, source)
    requires RunSession(d, r, |source|, h).1
    ensures var e := RunSession(d, r, |source|, h).0;
      && e.file.Some? && |e.file.value| >= |source|
      && (e.file == Some(source) <==> |Found(d, r, |source|, h)| <= |source|)
      && (source != [] ==> (RightLength(e, |source|) <==> |Found(d, r, |source|, h)| <= |source|))
  {
    SessionIsRight(d, r, source, h);
    var prepared := Prepare(r.resume, d.sidecar, d.file, |source|, r.io, h);
    var plan := prepared.plan.value;
    hide Prepare, Loop, Writer.Finish, HonestSidecar, SafeHash, StartFile, Trusted;
    ExitLength(StartWriter(plan, d, prepared.sidecar), r.steps, r.close.ending, Trusted(plan, |source|), source, h);
    var e := RunSession(d, r, |source|, h).0;
    WholeIfAsLong(e, source);
  }

  lemma WholeIfAsLong(d: Disk, source: seq<Byte>)
    requires Holding(d, source)
    ensures d.file == Some(source) <==> |d.file.value| == |source|
  {
    assert d.file.value[..|d.file.value|] == d.file.value;
  }

  /** Over any number of sessions, crashes that leave any file, and disk failures at any point: if
      every write is a piece of the source and the hash is collision-free on the segments involved,
      then whenever a session accepts its file, that file starts with the whole source; and if it also
      passes the length test, it is the source. */
  lemma {:induction false} AcceptedFileIsTheSource(d: Disk, runs: seq<Run>, source: seq<Byte>, h: Hash)
    requires HonestSidecar(d.sidecar, source, h) && Faithful(d, runs, source, h)
    ensures HonestSidecar(RunAll(d, runs, |source|, h).0.sidecar, source, h)
    ensures RunAll(d, runs, |source|, h).1 ==>
      var e := RunAll(d, runs, |source|, h).0;
      Holding(e, source) && (source != [] && RightLength(e, |source|) ==> e.file == Some(source))
    decreases |runs|
  {
    hide RunSession, Holding, HonestSidecar, SafeHash, FromSource;
    if runs != [] {
      SessionIsRight(d, runs[0], source, h);
      if |runs| > 1 {
        AcceptedFileIsTheSource(RunSession(d, runs[0], |source|, h).0, runs[1..], source, h);
      } else if RunSession(d, runs[0], |source|, h).1 {
        WholeIfAsLong(RunSession(d, runs[0], |source|, h).0, source);
      }
    }
  }

  // ----- a finished download is accepted

  predicate Works(fate: FlushFate) {
    fate.Fine? && fate.record.unreadable == None && fate.record.saves
  }

  ghost predicate Smooth(steps: seq<Step>) {
    forall i | 0 <= i < |steps| :: Works(steps[i].fate)
  }

  /** Byte x is booked or waits in the buffer. */
  ghost predicate Has(s: State, x: int) {
    Covered(s.written, x)
    || (s.pending.Some? && s.pending.value.offset <= x < s.pending.value.offset + |s.pending.value.data|)
  }

  lemma {:induction false} PassWorks(l: Ledger, lo: nat, hi: int, file: seq<Byte>, first: nat, last: nat,
                                     fate: Fate, h: Hash)
    requires hi < |l.meta.segments| == |l.covered| && fate.unreadable == None
    ensures TouchAll(l, lo, hi, file, first, last, fate, h).ok
    decreases hi + 1 - lo
  {
    if lo <= hi {
      var (next, touch) := TouchSegment(l, lo, file, first, last, fate, h);
      PassWorks(next, lo + 1, hi, file, first, last, fate, h);
    }
  }

  lemma LandKeeps(s: State, fate: FlushFate, h: Hash, x: int)
    requires Fits(s) && !s.failed && Works(fate) && WellFormed(s.written)
    ensures var r := Land(s, fate, h);
      !r.failed && WellFormed(r.written) && (Has(s, x) ==> Covered(r.written, x))
  {
    if s.pending.Some? {
      var p := s.pending.value;
      AddDenotes(s.written, Range(p.offset, LastByte(p.offset, |p.data|)));
      if s.ledger.Some? && p.data != [] {
        var l := s.ledger.value;
        var file := Patch(s.file, p.offset, p.data);
        PassWorks(l, FirstIndex(l.meta, p.offset), LastIndex(l.meta, p.offset + |p.data| - 1), file, p.offset,
                  p.offset + |p.data| - 1, fate.record, h);
      }
    }
  }

  lemma ReceiveKeeps(s: State, p: Piece, fate: FlushFate, h: Hash, x: int)
    requires Fits(s) && !s.failed && Works(fate) && WellFormed(s.written)
    ensures var r := Receive(s, p, fate, h);
      !r.failed && WellFormed(r.written) && (Has(s, x) || p.offset <= x < p.offset + |p.data| ==> Has(r, x))
  {
    hide Land;
    LandKeeps(s, fate, h, x);
  }

  lemma {:induction false} LoopKeeps(s: State, steps: seq<Step>, h: Hash, x: int)
    requires Fits(s) && !s.failed && Smooth(steps) && WellFormed(s.written)
    ensures var r := Loop(s, steps, h);
      !r.failed && WellFormed(r.written) && (Has(s, x) || Sum(Pieces(steps), Chunk.Covers(x)) >= 1 ==> Has(r, x))
    decreases |steps|
  {
    hide Receive, Land;
    if steps != [] {
      match steps[0].command
      case Other => LoopKeeps(s, steps[1..], h, x);
      case TerminateAll => LandKeeps(s, steps[0].fate, h, x);
      case WriteFile(p) =>
        ReceiveKeeps(s, p, steps[0].fate, h, x);
        LoopKeeps(Receive(s, p, steps[0].fate, h), steps[1..], h, x);
        SumAppend([p], Pieces(steps[1..]), Chunk.Covers(x));
        SumOne(p, Chunk.Covers(x));
    }
  }

  lemma {:induction false} HeldIsCovered(rs: seq<Range>, x: int)
    ensures Sum(rs, Holds(x)) >= 1 ==> Covered(rs, x)
  {
    if rs != [] {
      HeldIsCovered(rs[1..], x);
      CoveredAppend([rs[0]], rs[1..], x);
      assert rs == [rs[0]] + rs[1..];
      assert In(x, rs[0]) ==> In(x, [rs[0]][0]);
    }
  }

  /** How a run may finish: with a tick, or, in order, with a join. */
  ghost predicate Finishes(p: Protocol.Session, es: seq<Protocol.Event>, last: Protocol.Event) {
    && Finish.FinishesWith(p, es, last)
    && (last.TickFires? || OrderedLedger.OrderedRun(Protocol.Begin(p), es))
  }

  /** The WriteFile commands of a run that finishes. */
  ghost function Handed(p: Protocol.Session, es: seq<Protocol.Event>, last: Protocol.Event): seq<Piece>
    requires Finishes(p, es, last)
  {
    Protocol.Step(Protocol.After(Protocol.Begin(p), es), last).handed
  }

  /** If a run finishes and the writer was given the commands the run handed over, then with a disk that
      works the writer accepts the file: the gate refuses no finished download. */
  lemma FinishedIsAccepted(p: Protocol.Session, es: seq<Protocol.Event>, last: Protocol.Event, s: State,
                           steps: seq<Step>, e: Ending, h: Hash)
    requires Protocol.Proper(p) && Finish.CanStart(p.source) && Finishes(p, es, last)
    requires Pieces(steps) == Handed(p, es, last)
    requires Fits(s) && !s.failed && s.pending == None && s.written == []
    requires Smooth(steps) && Works(e.land) && e.saves && e.flushes
    ensures Writer.Finish(Loop(s, steps, h), e, p.trusted, p.size, h).1
  {
    hide Protocol.Begin, Protocol.Step, Loop, Land;
    var looped := Loop(s, steps, h);
    var landed := Land(looped, e.land, h);
    LoopKeeps(s, steps, h, 0);
    LandKeeps(looped, e.land, h, 0);
    forall x: int | 0 <= x < p.size ensures Written(landed.written, p.trusted, x) {
      OrderedLedger.FinishedRunIsWhole(p, es, last, x);
      LoopKeeps(s, steps, h, x);
      LandKeeps(looped, e.land, h, x);
      HeldIsCovered(p.trusted, x);
    }
    SaveWorks(landed);
  }

  lemma SaveWorks(s: State)
    requires Fits(s)
    ensures SaveLedger(s, true).failed == s.failed && SaveLedger(s, true).written == s.written
  {
  }

  /** What a session works with once its plan is made. */
  function SessionOf(plan: Plan, size: nat, workers: nat, lanes: Option<Lanes.Schedule>, now: int): Protocol.Session {
    var ranges := Split.SplitTo(plan.remaining, Max(workers, 1));
    Protocol.Session(size, plan.completed, Trusted(plan, size), ranges, lanes, now)
  }

  ghost predicate WorkingDisk(r: Run) {
    Smooth(r.steps) && r.close.Exit? && Works(r.close.ending.land) && r.close.ending.saves && r.close.ending.flushes
  }

  /** The whole way: a session prepared from whatever a crash left, run with any workers, lanes, network
      and commands until a tick, or in an ordered run a join, finishes it, its writes being pieces of the
      source and the disk working, is accepted; its file starts with the source, and is the source unless
      the session began with a longer file. */
  lemma FinishedDownloadIsTheSource(d: Disk, r: Run, source: seq<Byte>, h: Hash, workers: nat,
                                    lanes: Option<Lanes.Schedule>, start: int, es: seq<Protocol.Event>,
                                    last: Protocol.Event)
    requires HonestSidecar(d.sidecar, source, h) && SafeHash(d.sidecar, source, h)
    requires FromSource(r, source) && WorkingDisk(r)
    requires Prepare(r.resume, d.sidecar, d.file, |source|, r.io, h).plan.Some?
    requires Protocol.Proper(Protocol.Session(0, 0, [], [], lanes, start)) && Finish.CanStart(lanes)
    requires var plan := Prepare(r.resume, d.sidecar, d.file, |source|, r.io, h).plan.value;
      var p := SessionOf(plan, |source|, workers, lanes, start);
      Finishes(p, es, last) && Pieces(r.steps) == Handed(p, es, last)
    ensures var (e, ok) := RunSession(d, r, |source|, h);
      && ok && Holding(e, source)
      && (e.file == Some(source) <==> |Found(d, r, |source|, h)| <= |source|)
  {
    hide Prepare, Loop, Writer.Finish, Finishes, Finish.CanStart, Protocol.Proper, HonestSidecar, SafeHash,
         Smooth, Holding, Split.SplitTo, Trusted, Found;
    var prepared := Prepare(r.resume, d.sidecar, d.file, |source|, r.io, h);
    var plan := prepared.plan.value;
    PlanIsProper(r.resume, d.sidecar, d.file, |source|, r.io, h, workers, lanes, start);
    SessionIsRight(d, r, source, h);
    var p := SessionOf(plan, |source|, workers, lanes, start);
    FinishedIsAccepted(p, es, last, StartWriter(plan, d, prepared.sidecar), r.steps, r.close.ending, h);
    AcceptedLength(d, r, source, h);
  }
}
