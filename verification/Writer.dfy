/** The writer task (src/util.rs, file_writer_task_impl): it coalesces adjacent writes, keeps the
    interval ledger, feeds the resume recorder, and accepts the file only without holes. Every disk
    operation may fail, at any point, after any part of the data. */
module Writer {
  import opened Ranges
  import opened Extents
  import opened Files
  import opened Resume
  import opened Recorder

  const COALESCE_LIMIT: nat := 128 * 1024

  datatype State = State(
    file: seq<Byte>, pending: Option<Piece>, written: seq<Range>, ledger: Option<Ledger>, failed: bool)

  /** What happens to one write-out; the failing ones leave the first k bytes on disk. */
  datatype FlushFate = Fine(record: Fate) | SeekFails | WriteFails(k: nat) | FlushFails(k: nat)

  datatype Command = WriteFile(piece: Piece) | TerminateAll | Other

  datatype Step = Step(command: Command, fate: FlushFate)

  datatype Ending = Ending(land: FlushFate, saves: bool, flushes: bool)

  predicate Fits(s: State) {
    s.ledger.Some? ==> |s.ledger.value.meta.segments| == |s.ledger.value.covered|
  }

  function Torn(s: State, p: Piece, k: nat): State {
    s.(file := Patch(s.file, p.offset, p.data[..Min(k, |p.data|)]), failed := true)
  }

  function Book(s: State, p: Piece, fate: Fate, h: Hash): (r: State)
    requires Fits(s)
    ensures Fits(r)
  {
    var landed := s.(file := Patch(s.file, p.offset, p.data), written := Mark(s.written, p.offset, |p.data|));
    if s.ledger == None then landed
    else
      var (l, ok) := Record(s.ledger.value, landed.file, p.offset, |p.data|, fate, h);
      landed.(ledger := Some(l), failed := !ok)
  }

  /** Writing the buffer out: seek, write, flush, then the two ledgers. */
  function Land(s: State, fate: FlushFate, h: Hash): (r: State)
    requires Fits(s)
    ensures Fits(r) && r.pending == None
  {
    if s.pending == None then s
    else
      var p, taken := s.pending.value, s.(pending := None);
      match fate
      case SeekFails => taken.(failed := true)
      case WriteFails(k) => Torn(taken, p, k)
      case FlushFails(k) => Torn(taken, p, k)
      case Fine(record) => Book(taken, p, record, h)
  }

  /** On TerminateAll a failed write_all is logged but not counted as an error. */
  function LandLast(s: State, fate: FlushFate, h: Hash): (r: State)
    requires Fits(s)
    ensures Fits(r) && r.pending == None
  {
    if fate.WriteFails? then Land(s, fate, h).(failed := s.failed) else Land(s, fate, h)
  }

  predicate Coalesces(s: State, p: Piece) {
    && s.pending.Some? && s.pending.value.offset + |s.pending.value.data| == p.offset
    && |s.pending.value.data| + |p.data| <= COALESCE_LIMIT
  }

  function Receive(s: State, p: Piece, fate: FlushFate, h: Hash): (r: State)
    requires Fits(s)
    ensures Fits(r)
  {
    if Coalesces(s, p) then s.(pending := Some(Piece(s.pending.value.offset, s.pending.value.data + p.data)))
    else
      var landed := Land(s, fate, h);
      if landed.failed then landed else landed.(pending := Some(p))
  }

  /** The command loop; it ends on TerminateAll, on an error, or when the channel is closed. */
  function Loop(s: State, steps: seq<Step>, h: Hash): (r: State)
    requires Fits(s)
    ensures Fits(r)
    decreases |steps|
  {
    if steps == [] || s.failed then s
    else
      match steps[0].command
      case Other => Loop(s, steps[1..], h)
      case TerminateAll => LandLast(s, steps[0].fate, h)
      case WriteFile(p) => Loop(Receive(s, p, steps[0].fate, h), steps[1..], h)
  }

  ghost predicate Complete(s: State, trusted: seq<Range>, size: nat) {
    forall x | 0 <= x < size :: Written(s.written, trusted, x)
  }

  function SaveLedger(s: State, saves: bool): (r: State)
    requires Fits(s)
    ensures Fits(r)
  {
    if s.ledger == None then s
    else
      var (l, ok) := FlushLedger(s.ledger.value, saves);
      s.(ledger := Some(l), failed := s.failed || !ok)
  }

  /** The exit: the rest of the buffer, the recorder, the file, and then the coverage gate. */
  ghost function Finish(s: State, e: Ending, trusted: seq<Range>, size: nat, h: Hash): (State, bool)
    requires Fits(s)
  {
    var emptied := if s.failed then s.(pending := None) else Land(s, e.land, h);
    var saved := SaveLedger(emptied, e.saves);
    (saved, !saved.failed && e.flushes && Complete(saved, trusted, size))
  }

  // ----- coalescing refines direct writing

  /** The file as a reader would see it if the buffer were written. */
  function Shown(s: State): seq<Byte> {
    if s.pending == None then s.file else Patch(s.file, s.pending.value.offset, s.pending.value.data)
  }

  /** All WriteFile commands up to a TerminateAll. */
  function Pieces(steps: seq<Step>): seq<Piece>
    decreases |steps|
  {
    if steps == [] || steps[0].command.TerminateAll? then []
    else if steps[0].command.Other? then Pieces(steps[1..])
    else [steps[0].command.piece] + Pieces(steps[1..])
  }

  /** The pieces applied directly, one after the other. */
  function Direct(file: seq<Byte>, pieces: seq<Piece>): seq<Byte>
    decreases |pieces|
  {
    if pieces == [] then file else Direct(Patch(file, pieces[0].offset, pieces[0].data), pieces[1..])
  }

  lemma LandShows(s: State, fate: FlushFate, h: Hash)
    requires Fits(s) && (fate.Fine? || !Land(s, fate, h).failed)
    ensures Land(s, fate, h).file == Shown(s)
  {
  }

  lemma ReceiveRefines(s: State, p: Piece, fate: FlushFate, h: Hash)
    requires Fits(s) && !Receive(s, p, fate, h).failed
    ensures Shown(Receive(s, p, fate, h)) == Patch(Shown(s), p.offset, p.data)
  {
    if Coalesces(s, p) {
      PatchJoins(s.file, s.pending.value.offset, s.pending.value.data, p.data);
    } else {
      LandShows(s, fate, h);
    }
  }

  /** The write_all of the TerminateAll that ends the loop fails, which nothing but the gate notices. */
  predicate LastWriteFails(steps: seq<Step>)
    decreases |steps|
  {
    steps != []
    && if steps[0].command.TerminateAll? then steps[0].fate.WriteFails? else LastWriteFails(steps[1..])
  }

  /** As long as no disk operation failed, the file with the buffer applied is what writing every
      command directly, in order, would have made of it; after TerminateAll the file itself is. */
  lemma {:induction false} LoopRefines(s: State, steps: seq<Step>, h: Hash)
    requires Fits(s) && !Loop(s, steps, h).failed
    requires !LastWriteFails(steps)
    ensures Shown(Loop(s, steps, h)) == Direct(Shown(s), Pieces(steps))
    decreases |steps|
  {
    if steps != [] {
      match steps[0].command
      case Other => LoopRefines(s, steps[1..], h);
      case TerminateAll => LandShows(s, steps[0].fate, h);
      case WriteFile(p) =>
        var r := Receive(s, p, steps[0].fate, h);
        if !r.failed {
          ReceiveRefines(s, p, steps[0].fate, h);
          LoopRefines(r, steps[1..], h);
        }
    }
  }

  /** An accepted file is exactly the direct writing of everything received, on every exit path. */
  lemma AcceptedIsDirect(s: State, steps: seq<Step>, e: Ending, trusted: seq<Range>, size: nat, h: Hash)
    requires Fits(s) && Finish(Loop(s, steps, h), e, trusted, size, h).1
    requires !LastWriteFails(steps)
    ensures Finish(Loop(s, steps, h), e, trusted, size, h).0.file == Direct(Shown(s), Pieces(steps))
  {
    LoopRefines(s, steps, h);
    LandShows(Loop(s, steps, h), e.land, h);
  }

  // ----- what is written out, and when

  /** The pieces follow one another from a on. */
  ghost predicate Adjacent(pieces: seq<Piece>, a: nat) {
    pieces == [] || (pieces[0].offset == a && Adjacent(pieces[1..], a + |pieces[0].data|))
  }

  ghost predicate OnlyWrites(steps: seq<Step>) {
    forall i | 0 <= i < |steps| :: !steps[i].command.TerminateAll?
  }

  /** Pieces that follow one another and fit the buffer together are not written out one by one: they all
      wait in the buffer as one piece, and the disk is not touched. */
  lemma {:induction false} AdjacentPiecesCoalesce(s: State, steps: seq<Step>, h: Hash)
    requires Fits(s) && !s.failed && s.pending.Some? && OnlyWrites(steps)
    requires Adjacent(Pieces(steps), s.pending.value.offset + |s.pending.value.data|)
    requires |s.pending.value.data| + |Joined(Pieces(steps))| <= COALESCE_LIMIT
    ensures Loop(s, steps, h)
         == s.(pending := Some(Piece(s.pending.value.offset, s.pending.value.data + Joined(Pieces(steps)))))
    decreases |steps|
  {
    hide Land, LandLast;
    var q := s.pending.value;
    if steps == [] {
      assert q.data + [] == q.data;
    } else {
      assert OnlyWrites(steps[1..]);
      match steps[0].command
      case Other => AdjacentPiecesCoalesce(s, steps[1..], h);
      case WriteFile(p) =>
        JoinedCons(p, Pieces(steps[1..]));
        AdjacentAt(p, Pieces(steps[1..]), q.offset + |q.data|);
        AdjacentPiecesCoalesce(s.(pending := Some(Piece(q.offset, q.data + p.data))), steps[1..], h);
        assert q.data + p.data + Joined(Pieces(steps[1..])) == q.data + (p.data + Joined(Pieces(steps[1..])));
    }
  }

  lemma AdjacentAt(p: Piece, rest: seq<Piece>, a: nat)
    requires Adjacent([p] + rest, a)
    ensures p.offset == a && Adjacent(rest, a + |p.data|)
  {
    assert ([p] + rest)[1..] == rest;
  }

  /** The buffer is taken to the disk in order: a piece that does not fit on is only buffered after what
      was there is written out, and a write-out that fails leaves the piece behind and is an error, but
      for a failed write_all on TerminateAll. */
  lemma WriteOutsFail(s: State, p: Piece, fate: FlushFate, h: Hash)
    requires Fits(s) && !s.failed && s.pending.Some?
    ensures !fate.Fine? ==> Land(s, fate, h).failed && Land(s, fate, h).written == s.written
    ensures LandLast(s, fate, h).failed <==> !fate.WriteFails? && Land(s, fate, h).failed
    ensures LandLast(s, fate, h).written == Land(s, fate, h).written
    ensures !Coalesces(s, p) && !fate.Fine? ==> Receive(s, p, fate, h).failed && Receive(s, p, fate, h).pending == None
  {
  }

  /** The gate is the last of all. An accepted file had no failure before, its buffer and the file could be
      written out, and every byte is written or trusted; without a ledger to save, that is all it takes. */
  lemma AcceptedIff(s: State, e: Ending, trusted: seq<Range>, size: nat, h: Hash)
    requires Fits(s)
    ensures var booked := if s.pending.Some? then Mark(s.written, s.pending.value.offset, |s.pending.value.data|)
                          else s.written;
      var right := !s.failed && (s.pending.Some? ==> e.land.Fine?) && e.flushes
                   && forall x | 0 <= x < size :: Written(booked, trusted, x);
      && (Finish(s, e, trusted, size, h).1 ==> right)
      && (s.ledger == None ==> (Finish(s, e, trusted, size, h).1 <==> right))
  {
    hide Record, Mark;
  }

  predicate BufferWithin(s: State, bound: nat) {
    s.pending.Some? ==> |s.pending.value.data| <= bound
  }

  /** The buffer never outgrows the limit, unless a single command is larger. */
  lemma {:induction false} BufferBounded(s: State, steps: seq<Step>, h: Hash, largest: nat)
    requires Fits(s) && BufferWithin(s, Max(COALESCE_LIMIT, largest))
    requires forall p | p in Pieces(steps) :: |p.data| <= largest
    ensures BufferWithin(Loop(s, steps, h), Max(COALESCE_LIMIT, largest))
    decreases |steps|
  {
    if steps != [] && !s.failed {
      match steps[0].command
      case Other => BufferBounded(s, steps[1..], h, largest);
      case TerminateAll =>
      case WriteFile(p) => BufferBounded(Receive(s, p, steps[0].fate, h), steps[1..], h, largest);
    }
  }

  // ----- what is booked is on disk, and right

  ghost function WrittenSet(written: seq<Range>): iset<int> {
    iset x | Covered(written, x)
  }

  /** A piece of the source; an empty one at offset 0 would claim a byte that was never written. */
  ghost predicate Genuine(p: Piece, source: seq<Byte>) {
    Agrees(p.offset, p.data, source) && (p.data != [] || p.offset > 0)
  }

  ghost predicate AllGenuine(pieces: seq<Piece>, source: seq<Byte>) {
    forall p | p in pieces :: Genuine(p, source)
  }

  ghost predicate LedgerHonest(s: State, source: seq<Byte>, h: Hash) {
    s.ledger.Some? ==> Honest(s.ledger.value.meta, source, h) && HonestSidecar(s.ledger.value.sidecar, source, h)
  }

  /** Both ledgers know exactly what was written, and everything written or trusted is right. */
  ghost predicate InStep(s: State, trusted: seq<Range>, source: seq<Byte>) {
    && Fits(s) && WellFormed(s.written)
    && (forall x | Written(s.written, trusted, x) :: Right(s.file, source, x))
    && (s.pending.Some? ==> Genuine(s.pending.value, source))
    && (s.ledger.Some? ==> Tracks(s.ledger.value, |source|, WrittenSet(s.written)))
  }

  ghost predicate Sound(s: State, trusted: seq<Range>, source: seq<Byte>, h: Hash) {
    && Fits(s) && LedgerHonest(s, source, h)
    && (!s.failed ==> InStep(s, trusted, source))
  }

  lemma MarkGrows(written: seq<Range>, p: Piece, source: seq<Byte>)
    requires WellFormed(written) && Genuine(p, source)
    ensures WellFormed(Mark(written, p.offset, |p.data|))
    ensures forall x :: Covered(Mark(written, p.offset, |p.data|), x)
                        <==> Covered(written, x) || p.offset <= x < p.offset + |p.data|
    ensures WrittenSet(Mark(written, p.offset, |p.data|))
         == WrittenSet(written) + Stretch(p.offset, p.offset + |p.data| - 1)
  {
    AddDenotes(written, Range(p.offset, LastByte(p.offset, |p.data|)));
  }

  lemma RecordHonest(l: Ledger, file: seq<Byte>, p: Piece, fate: Fate, h: Hash, seen: iset<int>, source: seq<Byte>)
    requires Tracks(l, |source|, seen) && Honest(l.meta, source, h) && HonestSidecar(l.sidecar, source, h)
    requires p.data != [] && p.offset + |p.data| <= |source|
    requires forall x | x in seen + Stretch(p.offset, p.offset + |p.data| - 1) :: Right(file, source, x)
    ensures var (m, ok) := Record(l, file, p.offset, |p.data|, fate, h);
      && Honest(m.meta, source, h) && HonestSidecar(m.sidecar, source, h)
      && |m.meta.segments| == |m.covered|
      && (ok ==> Tracks(m, |source|, seen + Stretch(p.offset, p.offset + |p.data| - 1)))
  {
    hide TracksOne, Stretch;
    var all := seen + Stretch(p.offset, p.offset + |p.data| - 1);
    forall x | x in all ensures 0 <= x < |file| {
      assert Right(file, source, x);
    }
    RecordRight(l, |source|, file, p.offset, |p.data|, fate, h, seen);
    var (m, ok) := Record(l, file, p.offset, |p.data|, fate, h);
    forall i | 0 <= i < |m.meta.segments| && m.meta.segments[i].hash.Some?
      ensures m.meta.segments[i].range.start <= m.meta.segments[i].range.end < |source|
      ensures m.meta.segments[i].hash.value == h(Slice(source, m.meta.segments[i].range))
    {
      assert TouchedRight(l.meta.segments[i], m.meta.segments[i], file, all, h);
      if l.meta.segments[i].hash == None {
        SliceRight(file, source, m.meta.segments[i].range);
      }
    }
  }

  lemma BookSound(s: State, p: Piece, fate: Fate, h: Hash, trusted: seq<Range>, source: seq<Byte>)
    requires Sound(s, trusted, source, h) && !s.failed && s.pending == None && Genuine(p, source)
    ensures Sound(Book(s, p, fate, h), trusted, source, h)
  {
    hide Tracks, Record, Covered, Mark, Honest, HonestSidecar;
    var landed := s.(file := Patch(s.file, p.offset, p.data), written := Mark(s.written, p.offset, |p.data|));
    MarkGrows(s.written, p, source);
    forall x | Written(s.written, trusted, x) || p.offset <= x < p.offset + |p.data|
      ensures Right(landed.file, source, x)
    {
      PatchRight(s.file, p.offset, p.data, source, x);
    }
    if s.ledger.Some? {
      var l := s.ledger.value;
      if p.data != [] {
        RecordHonest(l, landed.file, p, fate, h, WrittenSet(s.written), source);
      } else {
        EmptyRecord(l, landed.file, p.offset, fate, h);
        assert WrittenSet(landed.written) == WrittenSet(s.written);
      }
    }
  }

  lemma EmptyRecord(l: Ledger, file: seq<Byte>, offset: nat, fate: Fate, h: Hash)
    requires |l.meta.segments| == |l.covered|
    ensures Record(l, file, offset, 0, fate, h) == (l, true)
  {
  }

  lemma LandSound(s: State, fate: FlushFate, h: Hash, trusted: seq<Range>, source: seq<Byte>)
    requires Sound(s, trusted, source, h) && !s.failed
    ensures Sound(Land(s, fate, h), trusted, source, h)
  {
    hide Book, InStep;
    if s.pending.Some? && fate.Fine? {
      Taken(s, trusted, source);
      BookSound(s.(pending := None), s.pending.value, fate.record, h, trusted, source);
    }
  }

  lemma Taken(s: State, trusted: seq<Range>, source: seq<Byte>)
    requires InStep(s, trusted, source) && s.pending.Some?
    ensures InStep(s.(pending := None), trusted, source) && Genuine(s.pending.value, source)
  {
  }

  /** The torn write of the lenient path still leaves only source bytes. */
  lemma LandLastSound(s: State, fate: FlushFate, h: Hash, trusted: seq<Range>, source: seq<Byte>)
    requires Sound(s, trusted, source, h) && !s.failed
    ensures Sound(LandLast(s, fate, h), trusted, source, h)
  {
    if fate.WriteFails? {
      if s.pending.Some? {
        var p := s.pending.value;
        var part := p.data[..Min(fate.k, |p.data|)];
        forall x | Written(s.written, trusted, x) ensures Right(Patch(s.file, p.offset, part), source, x) {
          PatchRight(s.file, p.offset, part, source, x);
        }
      }
    } else {
      LandSound(s, fate, h, trusted, source);
    }
  }

  lemma ReceiveSound(s: State, p: Piece, fate: FlushFate, h: Hash, trusted: seq<Range>, source: seq<Byte>)
    requires Sound(s, trusted, source, h) && !s.failed && Genuine(p, source)
    ensures Sound(Receive(s, p, fate, h), trusted, source, h)
  {
    hide Land;
    if Coalesces(s, p) {
      var q := s.pending.value;
      assert source[q.offset..q.offset + |q.data|] + source[p.offset..p.offset + |p.data|]
          == source[q.offset..p.offset + |p.data|];
    } else {
      LandSound(s, fate, h, trusted, source);
    }
  }

  lemma {:induction false} LoopSound(s: State, steps: seq<Step>, h: Hash, trusted: seq<Range>, source: seq<Byte>)
    requires Sound(s, trusted, source, h)
    requires AllGenuine(Pieces(steps), source)
    ensures Sound(Loop(s, steps, h), trusted, source, h)
    decreases |steps|
  {
    hide InStep, LedgerHonest, Receive, LandLast;
    if steps != [] && !s.failed {
      match steps[0].command
      case Other => LoopSound(s, steps[1..], h, trusted, source);
      case TerminateAll => LandLastSound(s, steps[0].fate, h, trusted, source);
      case WriteFile(p) =>
        ReceiveSound(s, p, steps[0].fate, h, trusted, source);
        LoopSound(Receive(s, p, steps[0].fate, h), steps[1..], h, trusted, source);
    }
  }

  /** An accepted file is the source, byte for byte, whatever the disk did on the way. */
  lemma AcceptedIsRight(s: State, steps: seq<Step>, e: Ending, trusted: seq<Range>, source: seq<Byte>, h: Hash)
    requires Sound(s, trusted, source, h)
    requires AllGenuine(Pieces(steps), source)
    ensures var (r, ok) := Finish(Loop(s, steps, h), e, trusted, |source|, h);
      && LedgerHonest(r, source, h)
      && (ok ==> |r.file| >= |source| && r.file[..|source|] == source)
  {
    hide Loop, Land, InStep;
    LoopSound(s, steps, h, trusted, source);
    var t := Loop(s, steps, h);
    if !t.failed {
      LandSound(t, e.land, h, trusted, source);
    }
    var emptied := if t.failed then t.(pending := None) else Land(t, e.land, h);
    SaveSound(emptied, e.saves, source, h);
    var (r, ok) := Finish(t, e, trusted, |source|, h);
    if ok {
      AllRight(emptied, trusted, source);
    }
  }

  /** The file only grows, and writing pieces of the source takes it no further than the source. */
  ghost predicate GrownWithin(before: seq<Byte>, after: seq<Byte>, source: seq<Byte>) {
    |before| <= |after| <= Max(|before|, |source|)
  }

  ghost predicate PendingGenuine(s: State, source: seq<Byte>) {
    s.pending.Some? ==> Genuine(s.pending.value, source)
  }

  lemma LandGrows(s: State, fate: FlushFate, h: Hash, source: seq<Byte>)
    requires Fits(s) && PendingGenuine(s, source)
    ensures GrownWithin(s.file, Land(s, fate, h).file, source)
    ensures GrownWithin(s.file, LandLast(s, fate, h).file, source)
  {
    hide Record, Mark;
  }

  lemma {:induction false} LoopGrows(s: State, steps: seq<Step>, h: Hash, source: seq<Byte>)
    requires Fits(s) && PendingGenuine(s, source)
    requires AllGenuine(Pieces(steps), source)
    ensures GrownWithin(s.file, Loop(s, steps, h).file, source) && PendingGenuine(Loop(s, steps, h), source)
    decreases |steps|
  {
    hide Land, LandLast;
    if steps != [] && !s.failed {
      match steps[0].command
      case Other => LoopGrows(s, steps[1..], h, source);
      case TerminateAll => LandGrows(s, steps[0].fate, h, source);
      case WriteFile(p) =>
        LandGrows(s, steps[0].fate, h, source);
        ReceiveGenuine(s, p, steps[0].fate, h, source);
        LoopGrows(Receive(s, p, steps[0].fate, h), steps[1..], h, source);
    }
  }

  lemma ReceiveGenuine(s: State, p: Piece, fate: FlushFate, h: Hash, source: seq<Byte>)
    requires Fits(s) && PendingGenuine(s, source) && Genuine(p, source)
    ensures PendingGenuine(Receive(s, p, fate, h), source)
  {
    hide Land;
    if Coalesces(s, p) {
      var q := s.pending.value;
      assert source[q.offset..q.offset + |q.data|] + source[p.offset..p.offset + |p.data|]
          == source[q.offset..p.offset + |p.data|];
    }
  }

  /** So the file at the exit is as long as the longer of the source and the file the session found,
      once it is accepted. */
  lemma ExitLength(s: State, steps: seq<Step>, e: Ending, trusted: seq<Range>, source: seq<Byte>, h: Hash)
    requires Fits(s) && PendingGenuine(s, source)
    requires AllGenuine(Pieces(steps), source)
    ensures GrownWithin(s.file, Finish(Loop(s, steps, h), e, trusted, |source|, h).0.file, source)
  {
    hide Loop, Land;
    LoopGrows(s, steps, h, source);
    LandGrows(Loop(s, steps, h), e.land, h, source);
  }

  lemma SaveSound(s: State, saves: bool, source: seq<Byte>, h: Hash)
    requires Fits(s) && LedgerHonest(s, source, h)
    ensures LedgerHonest(SaveLedger(s, saves), source, h)
    ensures SaveLedger(s, saves).file == s.file && SaveLedger(s, saves).written == s.written
  {
  }

  lemma AllRight(s: State, trusted: seq<Range>, source: seq<Byte>)
    requires InStep(s, trusted, source) && Complete(s, trusted, |source|)
    ensures |s.file| >= |source| && s.file[..|source|] == source
  {
    if source != [] {
      assert Right(s.file, source, |source| - 1);
    }
    forall x | 0 <= x < |source| ensures x < |s.file| && s.file[x] == source[x] {
      assert Written(s.written, trusted, x);
      assert Right(s.file, source, x);
    }
  }

  /** The input Genuine shuts out: one empty write at offset 0, and a one-byte file that holds
      nothing is accepted. */
  lemma EmptyWriteIsAccepted(record: Fate, h: Hash)
    ensures var s := State([], None, [], None, false);
      var steps := [Step(WriteFile(Piece(0, [])), Fine(record))];
      var (r, ok) := Finish(Loop(s, steps, h), Ending(Fine(record), true, true), [], 1, h);
      ok && r.file == []
  {
    var s := State([], None, [], None, false);
    var steps := [Step(WriteFile(Piece(0, [])), Fine(record))];
    var received := s.(pending := Some(Piece(0, [])));
    assert Loop(received, [], h) == received;
    assert Loop(s, steps, h) == received by {
      assert steps[1..] == [];
      assert Receive(s, Piece(0, []), Fine(record), h) == received;
    }
    EmptyWriteClaimsByteZero();
    var landed := Land(received, Fine(record), h);
    assert landed.written == [Range(0, 0)] && In(0, landed.written[0]);
    assert Covered(landed.written, 0);
  }

  // ----- the mutable writer

  class FileWriter {
    const size: nat
    const trustedRanges: seq<Range>
    const hash: Hash
    const recorder: ResumeRecorder?
    var file: seq<Byte>
    var pending: Option<Piece>
    var written: seq<Range>
    var failed: bool

    ghost function Parts(): set<object> {
      {this} + if recorder == null then {} else {recorder}
    }

    ghost predicate Valid()
      reads Parts()
    {
      recorder != null ==> recorder.Valid() && recorder.hash == hash
    }

    function View(): State
      reads Parts()
    {
      State(file, pending, written, if recorder == null then None else Some(recorder.View()), failed)
    }

    constructor (file: seq<Byte>, size: nat, trusted: seq<Range>, recorder: ResumeRecorder?, hash: Hash)
      requires recorder != null ==> recorder.Valid() && recorder.hash == hash
      ensures Valid() && this.size == size && trustedRanges == trusted && this.hash == hash && this.recorder == recorder
      ensures View() == State(file, None, [], if recorder == null then None else Some(recorder.View()), false)
    {
      this.file, this.size, trustedRanges, this.hash, this.recorder := file, size, trusted, hash, recorder;
      pending, written, failed := None, [], false;
    }

    method FlushPending(fate: FlushFate)
      requires Valid()
      modifies Parts()
      ensures Valid() && View() == Land(old(View()), fate, hash)
    {
      if pending == None {
        return;
      }
      var p := pending.value;
      pending := None;
      match fate {
        case SeekFails =>
          failed := true;
        case WriteFails(k) =>
          file, failed := Patch(file, p.offset, p.data[..Min(k, |p.data|)]), true;
        case FlushFails(k) =>
          file, failed := Patch(file, p.offset, p.data[..Min(k, |p.data|)]), true;
        case Fine(record) =>
          file := Patch(file, p.offset, p.data);
          written := AddCoveredRange(written, Range(p.offset, LastByte(p.offset, |p.data|)));
          if recorder != null {
            var ok := recorder.RecordWrite(file, p.offset, |p.data|, record);
            failed := !ok;
          }
      }
    }

    method OnWrite(piece: Piece, fate: FlushFate)
      requires Valid()
      modifies Parts()
      ensures Valid() && View() == Receive(old(View()), piece, fate, hash)
    {
      if pending.Some? && pending.value.offset + |pending.value.data| == piece.offset
         && |pending.value.data| + |piece.data| <= COALESCE_LIMIT {
        pending := Some(Piece(pending.value.offset, pending.value.data + piece.data));
        return;
      }
      FlushPending(fate);
      if !failed {
        pending := Some(piece);
      }
    }

    /** The task from the first command to the verdict. */
    method Run(steps: seq<Step>, e: Ending) returns (ok: bool)
      requires Valid()
      modifies Parts()
      ensures Valid()
      ensures (View(), ok) == Finish(Loop(old(View()), steps, hash), e, trustedRanges, size, hash)
    {
      var i, open := 0, true;
      while i < |steps| && open && !failed
        invariant 0 <= i <= |steps| && Valid()
        invariant (if open then Loop(View(), steps[i..], hash) else View()) == Loop(old(View()), steps, hash)
        decreases |steps| - i
      {
        assert steps[i..][1..] == steps[i + 1..];
        match steps[i].command {
          case Other =>
          case WriteFile(piece) =>
            OnWrite(piece, steps[i].fate);
          case TerminateAll =>
            var before := failed;
            FlushPending(steps[i].fate);
            if steps[i].fate.WriteFails? {
              failed := before;
            }
            open := false;
        }
        i := i + 1;
      }
      assert View() == Loop(old(View()), steps, hash);
      ok := Exit(e);
    }

    method Exit(e: Ending) returns (ok: bool)
      requires Valid()
      modifies Parts()
      ensures Valid() && (View(), ok) == Finish(old(View()), e, trustedRanges, size, hash)
    {
      if !failed {
        FlushPending(e.land);
      } else {
        pending := None;
      }
      if recorder != null {
        var saved := recorder.Flush(e.saves);
        if !saved {
          failed := true;
        }
      }
      ok := !failed && e.flushes;
      if ok && size > 0 {
        var gap := CoverageGap(written, trustedRanges, size);
        ok := gap == None;
      }
    }
  }
}
