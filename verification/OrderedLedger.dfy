/** The byte ledger when every progress message arrives, once and in the order it was sent: it is
    then exact at every moment, never goes back, and never needs the stall escape. */
module OrderedLedger {
  import opened Ranges
  import opened Chunk
  import opened Ledger
  import opened Retry
  import opened MonitorSpec
  import opened Protocol
  import opened Partition
  import opened Bindings
  import opened Finish

  ghost predicate InOrder(s: Sys, e: Event)
    requires Enabled(s, e)
  {
    && !e.StrayProgress?
    && (e.WorkerActs? ==> e.arriving == React(s.live[e.i], e.input).sent)
  }

  ghost predicate OrderedRun(s: Sys, es: seq<Event>)
    requires Legal(s, es)
    decreases |es|
  {
    es == [] || (InOrder(s, es[0]) && OrderedRun(Step(s, es[0]), es[1..]))
  }

  // ----- one worker and the ledger

  /** The ledger's entry for a running attempt, once all messages sent so far are applied. */
  ghost predicate EntryMatches(b: Books, w: Worker) {
    && w.id !in b.retired
    && (if w.id in b.chunks then b.chunks[w.id] == Entry(w.start, w.end, w.reported) && w.start <= w.end
        else w.reported == 0)
  }

  ghost predicate OthersSame(a: Books, b: Books, id: nat) {
    && a.total == b.total
    && (forall k: nat | k != id :: (k in a.chunks <==> k in b.chunks) && (k in a.chunks ==> a.chunks[k] == b.chunks[k]))
    && (forall k: nat | k != id :: k in a.retired <==> k in b.retired)
  }

  lemma DrainOne(b: Books, m: Info)
    ensures Drain(b, [m]) == Apply(b, m) && (AllHonest(b, [m]) <==> Honest(b, m))
  {
    assert [m][1..] == [];
  }

  lemma DrainTwo(b: Books, m: Info, n: Info)
    ensures Drain(b, [m, n]) == Apply(Apply(b, m), n)
    ensures AllHonest(b, [m, n]) <==> Honest(b, m) && Honest(Apply(b, m), n)
  {
    DrainOne(Apply(b, m), n);
    assert [m, n][1..] == [n];
  }

  lemma ProgressLedger(b: Books, w: Worker)
    requires Valid(w) && EntryMatches(b, w) && w.start <= w.end
    ensures Honest(b, ProgressOf(w))
    ensures Apply(b, ProgressOf(w)) == b.(chunks := b.chunks[w.id := Entry(w.start, w.end, Downloaded(w))])
  {
  }

  lemma FailLedger(b: Books, w: Worker, error: ErrorClass)
    requires Valid(w) && EntryMatches(b, w)
    ensures AllHonest(b, Fail(w, error))
    ensures Drain(b, Fail(w, error)) == b.(chunks := b.chunks - {w.id}, completed := b.completed + Downloaded(w))
  {
    var failed := Failed(w.id, w.offset, w.end, error);
    if Downloaded(w) != w.reported {
      ProgressLedger(b, w);
      DrainTwo(b, ProgressOf(w), failed);
      assert Fail(w, error) == [ProgressOf(w), failed];
      assert b.chunks[w.id := Entry(w.start, w.end, Downloaded(w))] - {w.id} == b.chunks - {w.id};
    } else {
      DrainOne(b, failed);
      assert Fail(w, error) == [failed];
      assert w.id !in b.chunks ==> b.chunks - {w.id} == b.chunks;
    }
  }

  lemma DoneLedger(b: Books, w: Worker)
    requires Valid(w) && EntryMatches(b, w) && w.start <= w.end && w.offset == w.end + 1
    ensures AllHonest(b, [ProgressOf(w), Complete(w.id)])
    ensures Drain(b, [ProgressOf(w), Complete(w.id)])
         == b.(chunks := b.chunks - {w.id}, completed := b.completed + Downloaded(w), retired := b.retired + {w.id})
  {
    ProgressLedger(b, w);
    DrainTwo(b, ProgressOf(w), Complete(w.id));
    assert b.chunks[w.id := Entry(w.start, w.end, Downloaded(w))] - {w.id} == b.chunks - {w.id};
  }

  ghost function AttemptOf(g: Range -> int): Worker -> int {
    (w: Worker) => g(Range(w.start, w.end))
  }

  /** What the ledger knows after a worker's messages moves by exactly what the worker's attempt
      lost: the ledger plus the open attempts stay constant. */
  ghost predicate LedgerFollows(b: Books, w: Worker, input: Input)
    requires Valid(w)
  {
    var r := React(w, input);
    var c := Drain(b, r.sent);
    && AllHonest(b, r.sent)
    && OthersSame(b, c, w.id)
    && (w.id in c.retired <==> Completes(w, input))
    && (if r.alive then EntryMatches(c, r.worker) else w.id !in c.chunks)
    && c.completed >= b.completed
    && c.completed + Sum(r.sent, CarriedBy(Plain(Length()))) + (if r.alive then AttemptOf(Length())(r.worker) else 0)
       == b.completed + AttemptOf(Length())(w)
  }

  lemma ReactLedger(b: Books, w: Worker, input: Input)
    requires Valid(w) && EntryMatches(b, w) && input != Terminate
    ensures LedgerFollows(b, w, input)
  {
    ReactCarries(w, input, Plain(Length()));
    match input
    case Fault(error) => FailLedger(b, w, error);
    case Eof =>
      if w.offset < w.end + 1 { FailLedger(b, w, Retriable); } else { ExitLedger(b, w, input); }
    case Bisect(skewed) => BisectLedger(b, w, input);
    case Data(_, _) =>
      if w.offset > w.end { ExitLedger(b, w, input); } else { DataLedger(b, w, input); }
  }

  lemma ExitLedger(b: Books, w: Worker, input: Input)
    requires Valid(w) && EntryMatches(b, w) && w.offset == w.end + 1 && (input.Eof? || input.Data?)
    ensures LedgerFollows(b, w, input)
  {
    ReactCarries(w, input, Plain(Length()));
    ExitCarries(w, Plain(Length()));
    if w.start <= w.end {
      DoneLedger(b, w);
    } else {
      FailLedger(b, w, Retriable);
    }
  }

  lemma BisectLedger(b: Books, w: Worker, input: Input)
    requires Valid(w) && EntryMatches(b, w) && input.Bisect?
    ensures LedgerFollows(b, w, input)
  {
    hide SplitRange, Drain, AllHonest, EntryMatches, OthersSame, Apply, Honest;
    ReactCarries(w, input, Plain(Length()));
    var mid := SplitRange(w.offset, w.end, input.skewed);
    if mid == None {
      DrainNone(b);
      UncutLedger(b, w);
    } else {
      CutLedger(b, w, mid.value);
      DrainOne(b, Bisected(w.id, mid.value + 1, w.end));
    }
  }

  lemma UncutLedger(b: Books, w: Worker)
    requires EntryMatches(b, w)
    ensures OthersSame(b, b, w.id) && w.id !in b.retired
  {
  }

  /** The entry of a worker that was cut follows the cut. */
  lemma CutLedger(b: Books, w: Worker, mid: int)
    requires Valid(w) && EntryMatches(b, w) && w.offset <= mid < w.end
    ensures var m := Bisected(w.id, mid + 1, w.end);
      var c := Apply(b, m);
      && Honest(b, m) && OthersSame(b, c, w.id) && EntryMatches(c, w.(end := mid))
      && c.completed == b.completed && c.retired == b.retired && w.id !in c.retired
  {
  }

  lemma DrainNone(b: Books)
    ensures Drain(b, []) == b && AllHonest(b, [])
  {
  }

  lemma DataLedger(b: Books, w: Worker, input: Input)
    requires Valid(w) && EntryMatches(b, w) && input.Data? && w.offset <= w.end
    ensures LedgerFollows(b, w, input)
  {
    if w.end - w.offset + 1 < |input.bytes| {
      LastDataLedger(b, w, input);
    } else {
      ReactCarries(w, input, Plain(Length()));
      var moved := w.(offset := w.offset + |input.bytes|);
      ProgressLedger(b, moved);
      DrainOne(b, ProgressOf(moved));
    }
  }

  lemma LastDataLedger(b: Books, w: Worker, input: Input)
    requires Valid(w) && EntryMatches(b, w) && input.Data? && w.offset <= w.end && w.end - w.offset + 1 < |input.bytes|
    ensures LedgerFollows(b, w, input)
  {
    ReactCarries(w, input, Plain(Length()));
    var moved := w.(offset := w.end + 1);
    var last := moved.(reported := Downloaded(moved));
    var noted := Apply(b, ProgressOf(moved));
    ProgressLedger(b, moved);
    DrainOne(b, ProgressOf(moved));
    ExitCarries(last, Plain(Length()));
    DoneLedger(noted, last);
    DrainAppend(b, [ProgressOf(moved)], [ProgressOf(last), Complete(w.id)]);
    assert React(w, input).sent == [ProgressOf(moved)] + [ProgressOf(last), Complete(w.id)];
  }

  // ----- the whole system

  /** The books as they will be when the channel has been read. */
  ghost function Settled(s: Sys): Books {
    Drain(s.mon.books, s.chan)
  }

  /** Bytes of attempts that are still open. */
  ghost function OpenBytes(s: Sys): int {
    Open(s, AttemptOf(Length()), Plain(Length()))
  }

  /** Like IdMeasure, but a completion on its way no longer counts. */
  ghost function OwnMeasure(k: nat): Measure {
    Measure((id: nat, r: Range) => if id == k then 1 else 0, (id: nat) => 0, (r: Range) => 0)
  }

  ghost function Owners(s: Sys, k: nat): int {
    Open(s, Is(k), OwnMeasure(k))
  }

  ghost predicate Exact(s: Sys, size: nat) {
    var b := Settled(s);
    && AllHonest(s.mon.books, s.chan)
    && b.total == size && b.completed + OpenBytes(s) == size
    && (forall i | 0 <= i < |s.live| :: EntryMatches(b, s.live[i]))
    && (forall k: nat | k in b.chunks :: Sum(s.live, Is(k)) >= 1)
    && (forall k: nat | k in b.retired :: k < s.mon.nextId && Owners(s, k) <= 0)
    && s.mon.stallTicks == 0
  }

  lemma OwnersStep(s: Sys, e: Event, k: nat)
    requires Enabled(s, e)
    ensures Owners(Step(s, e), k) - Owners(s, k)
         == if e.WorkerActs? then (if Completes(s.live[e.i], e.input) && s.live[e.i].id == k then -1 else 0)
            else if s.mon.nextId <= k < Step(s, e).mon.nextId then 1
            else 0
    ensures Owners(s, k) <= IdCount(s, k)
  {
    if e.WorkerActs? {
      WorkerStepMeasure(s, e, Is(k), OwnMeasure(k));
      ReactCarries(s.live[e.i], e.input, OwnMeasure(k));
      ReactEnds(s.live[e.i], e.input);
    } else {
      MonitorStepMeasure(s, e, Is(k), OwnMeasure(k), Mints(k));
      MintedOnce(k, s.mon.nextId, Step(s, e).mon.nextId);
    }
    OwnersCount(s, k);
  }

  lemma ReactEnds(w: Worker, input: Input)
    requires Valid(w) && input != Terminate
    ensures React(w, input).worker.end < w.end ==> React(w, input).alive && !Completes(w, input)
    ensures Completes(w, input) ==> !React(w, input).alive
  {
  }

  lemma OwnersCount(s: Sys, k: nat)
    ensures Owners(s, k) <= IdCount(s, k)
    ensures Owners(s, k) >= Sum(s.live, Is(k))
  {
    SumPointwise(s.chan, CarriedBy(OwnMeasure(k)), CarriedBy(IdMeasure(k)));
    SumNonneg(s.chan, CarriedBy(OwnMeasure(k)));
    SumZero(s.mon.pending, OwnMeasure(k).loose);
    SumZero(s.mon.pending, IdMeasure(k).loose);
    SumSame(s.mon.queues.retry, OfTicket(OwnMeasure(k).owned), OfTicket(IdMeasure(k).owned));
    SumSame(s.mon.queues.delayed, OfDelayed(OwnMeasure(k).owned), OfDelayed(IdMeasure(k).owned));
    SumSame(s.mon.queues.permanent, OfPermanent(OwnMeasure(k).owned), OfPermanent(IdMeasure(k).owned));
    FlightAndHeld(s, k);
  }

  // ----- steps keep it exact

  /** Two live workers never share an id. */
  lemma DistinctLive(s: Sys, i: nat, j: nat)
    requires UniqueIds(s) && i < |s.live| && j < |s.live| && i != j
    ensures s.live[i].id != s.live[j].id
  {
    var k := s.live[i].id;
    if s.live[j].id == k {
      var rest := Remove(s.live, i);
      SumRemove(s.live, i, Is(k));
      SumAtLeast(rest, if j < i then j else j - 1, Is(k));
      FlightAndHeld(s, k);
      SumNonneg(s.chan, CarriedBy(IdMeasure(k)));
    }
  }

  lemma WorkerStepExact(s: Sys, e: Event, size: nat)
    requires Enabled(s, e) && e.WorkerActs? && InOrder(s, e) && UniqueIds(s) && Exact(s, size)
    ensures Exact(Step(s, e), size)
  {
    hide React, UniqueIds;
    var t, w, b := Step(s, e), s.live[e.i], Settled(s);
    var r := React(w, e.input);
    ReactLedger(b, w, e.input);
    ReactCarries(w, e.input, Plain(Length()));
    DrainAppend(s.mon.books, s.chan, r.sent);
    var c := Settled(t);
    WorkerStepMeasure(s, e, AttemptOf(Length()), Plain(Length()));
    WorkerEntries(s, e, b, c);
    forall k: nat | k in c.retired ensures k < t.mon.nextId && Owners(t, k) <= 0 {
      WorkerRetires(s, e, k);
    }
  }

  /** The other workers' entries are untouched by what one worker sends. */
  lemma WorkerEntries(s: Sys, e: Event, b: Books, c: Books)
    requires Enabled(s, e) && e.WorkerActs? && UniqueIds(s)
    requires forall i | 0 <= i < |s.live| :: EntryMatches(b, s.live[i])
    requires forall k: nat | k in b.chunks :: Sum(s.live, Is(k)) >= 1
    requires var w := s.live[e.i]; var r := React(w, e.input);
      && r.worker.id == w.id
      && OthersSame(b, c, w.id) && (if r.alive then EntryMatches(c, r.worker) else w.id !in c.chunks)
    ensures forall j | 0 <= j < |Step(s, e).live| :: EntryMatches(c, Step(s, e).live[j])
    ensures forall k: nat | k in c.chunks :: Sum(Step(s, e).live, Is(k)) >= 1
  {
    hide React, UniqueIds;
    var t, w := Step(s, e), s.live[e.i];
    var r := React(w, e.input);
    forall j | 0 <= j < |t.live| ensures EntryMatches(c, t.live[j]) {
      if !(r.alive && j == e.i) {
        var from := if r.alive || j < e.i then j else j + 1;
        assert t.live[j] == s.live[from];
        DistinctLive(s, e.i, from);
      }
    }
    forall k: nat | k in c.chunks ensures Sum(t.live, Is(k)) >= 1 {
      if r.alive { SumUpdate(s.live, e.i, r.worker, Is(k)); } else { SumRemove(s.live, e.i, Is(k)); }
      if k == w.id {
        SumAtLeast(s.live, e.i, Is(k));
      }
    }
  }

  /** A completed chunk is owned by nobody any more. */
  lemma WorkerRetires(s: Sys, e: Event, k: nat)
    requires Enabled(s, e) && e.WorkerActs? && UniqueIds(s)
    requires k == s.live[e.i].id ==> Completes(s.live[e.i], e.input)
    requires k != s.live[e.i].id ==> k < s.mon.nextId && Owners(s, k) <= 0
    ensures k < Step(s, e).mon.nextId && Owners(Step(s, e), k) <= 0
  {
    hide React, Owners, IdCount;
    OwnersStep(s, e, k);
    if k == s.live[e.i].id {
      OwnersCount(s, k);
      SumAtLeast(s.live, e.i, Is(k));
      assert IdCount(s, k) <= if k < s.mon.nextId then 1 else 0;
    }
  }

  ghost function Reported(): Worker -> int {
    (w: Worker) => w.reported
  }

  lemma StepAppends(s: Sys, e: Event)
    requires Enabled(s, e) && !e.WorkerActs?
    ensures s.live <= Step(s, e).live
  {
    hide Handle, Tick;
  }

  lemma ReportsStay(s: Sys, e: Event)
    requires Enabled(s, e) && !e.WorkerActs?
    ensures Sum(Step(s, e).live, Reported()) == Sum(s.live, Reported())
  {
    hide Step, Outstanding;
    var t := Step(s, e);
    var nothing := Plain((r: Range) => 0);
    assert Compatible(Reported(), nothing, Zero());
    MonitorStepMeasure(s, e, Reported(), nothing, Zero());
    MintedZero(s.mon.nextId, t.mon.nextId);
    NothingCounts(s, nothing);
    NothingCounts(t, nothing);
  }

  /** A monitor step only adds workers, and they have reported nothing. */
  lemma SpawnsReportNothing(s: Sys, e: Event)
    requires Enabled(s, e) && !e.WorkerActs?
    ensures var t := Step(s, e);
      && s.live <= t.live
      && forall j | |s.live| <= j < |t.live| :: t.live[j].reported == 0
  {
    hide Step;
    StepAppends(s, e);
    ReportsStay(s, e);
    var t := Step(s, e);
    var spawned := t.live[|s.live|..];
    assert t.live == s.live + spawned;
    SumAppend(s.live, spawned, Reported());
    forall j | |s.live| <= j < |t.live| ensures t.live[j].reported == 0 {
      SumAtLeast(spawned, j - |s.live|, Reported());
    }
  }

  lemma NothingCounts(s: Sys, g: Measure)
    requires forall id: nat, r: Range :: g.owned(id, r) == 0
    requires forall r: Range :: g.loose(r) == 0
    requires forall id: nat :: g.done(id) == 0
    ensures Outstanding(s.mon, g) == 0 && Sum(s.chan, CarriedBy(g)) == 0
  {
    var q := s.mon.queues;
    forall t: Ticket ensures OfTicket(g.owned)(t) == 0 {
      assert g.owned(t.id, Range(t.start, t.end)) == 0;
    }
    forall d: Delayed ensures OfDelayed(g.owned)(d) == 0 {
      assert g.owned(d.chunk.id, Range(d.chunk.start, d.chunk.end)) == 0;
    }
    forall f: PermanentFailure ensures OfPermanent(g.owned)(f) == 0 {
      if f.OfChunk? {
        assert g.owned(f.ticket.id, Range(f.ticket.start, f.ticket.end)) == 0;
      }
    }
    forall m: Info ensures CarriedBy(g)(m) == 0 {
      if m.Failed? {
        assert g.owned(m.id, Range(m.start, m.end)) == 0;
      }
    }
    SumZero(q.retry, OfTicket(g.owned));
    SumZero(q.delayed, OfDelayed(g.owned));
    SumZero(q.permanent, OfPermanent(g.owned));
    SumZero(s.mon.pending, g.loose);
    SumZero(s.chan, CarriedBy(g));
  }

  /** The monitor does not change what the ledger will say once the channel is read. */
  lemma MonitorKeepsSettled(s: Sys, e: Event)
    requires Enabled(s, e) && !e.WorkerActs? && !e.StrayProgress?
    ensures Settled(Step(s, e)) == Settled(s)
    ensures AllHonest(s.mon.books, s.chan) ==> AllHonest(Step(s, e).mon.books, Step(s, e).chan)
  {
    match e
    case ReceiveReliable(now) =>
      HandleBooks(s.mon, s.chan[0], now);
    case TickFires(now) =>
      RestartKeepsFailures(s.mon, now);
    case _ =>
  }

  lemma HandleBooks(m: Mon, info: Info, now: int)
    ensures Handle(m, info, now).mon.books == Apply(m.books, info)
    ensures Handle(m, info, now).mon.stallTicks == m.stallTicks
  {
    hide BuildRequest;
  }

  lemma MonitorStepExact(s: Sys, e: Event, size: nat)
    requires Enabled(s, e) && !e.WorkerActs? && InOrder(s, e) && UniqueIds(s) && Exact(s, size)
    requires Step(s, e).mon.stallTicks == 0
    ensures Exact(Step(s, e), size)
  {
    hide Handle, Tick, Step;
    var t, b := Step(s, e), Settled(s);
    MonitorKeepsSettled(s, e);
    MonitorBytes(s, e);
    SpawnsReportNothing(s, e);
    StepKeepsUnique(s, e);
    var spawned := t.live[|s.live|..];
    assert t.live == s.live + spawned;
    forall k: nat ensures Sum(t.live, Is(k)) == Sum(s.live, Is(k)) + Sum(spawned, Is(k)) && Sum(spawned, Is(k)) >= 0 {
      SumAppend(s.live, spawned, Is(k));
      SumNonneg(spawned, Is(k));
    }
    forall k: nat | k in b.retired ensures k < t.mon.nextId && Owners(t, k) <= 0 {
      OwnersStep(s, e, k);
      IdCountStep(s, e, k);
    }
    forall j | 0 <= j < |t.live| ensures EntryMatches(b, t.live[j]) {
      if j >= |s.live| {
        var k := t.live[j].id;
        SumAtLeast(spawned, j - |s.live|, Is(k));
        SumNonneg(s.live, Is(k));
        OwnersCount(t, k);
        assert Sum(s.live, Is(k)) == 0 && Owners(t, k) == 1;
      }
    }
  }

  lemma MonitorBytes(s: Sys, e: Event)
    requires Enabled(s, e) && !e.WorkerActs?
    ensures OpenBytes(Step(s, e)) == OpenBytes(s)
  {
    var g := Plain(Length());
    forall id: nat, r: Range ensures AttemptOf(Length())(Fresh(id, r)) == Len(r) {
      assert Range(r.start, r.end) == r;
    }
    MonitorStepMeasure(s, e, AttemptOf(Length()), g, Zero());
    MintedZero(s.mon.nextId, Step(s, e).mon.nextId);
  }

  /** In an ordered run the stall counter never leaves zero, so the stall escape is never taken: a
      tick that finds nothing to do finds the byte count complete. */
  lemma TickNeverStalls(s: Sys, now: int, size: nat)
    requires Enabled(s, TickFires(now)) && UniqueIds(s) && Exact(s, size) && Polled(s)
    ensures Step(s, TickFires(now)).mon.stallTicks == 0
    ensures var e := Restarted(s.mon, now);
      DeadEnd(e.mon, Tasks(s) == 0 && e.spawned == []) ==> Step(s, TickFires(now)).outcome == Finished
  {
    hide Restarted, Exact, Outstanding, TotalDownloaded;
    var e := Restarted(s.mon, now);
    RestartKeepsFailures(s.mon, now);
    QuietTicks(s, size);
    if DeadEnd(e.mon, Tasks(s) == 0 && e.spawned == []) {
      RestartBytes(s, now);
      EmptyMonOwesNothing(e.mon);
      IdleIsComplete(s, size);
    }
  }

  lemma EmptyMonOwesNothing(m: Mon)
    requires QueuesEmpty(m) && m.pending == [] && m.queues.permanent == []
    ensures Outstanding(m, Plain(Length())) == 0
  {
  }

  /** With nothing running, unread or waiting, the books hold the whole file. */
  lemma IdleIsComplete(s: Sys, size: nat)
    requires Exact(s, size) && s.live == [] && s.chan == [] && Outstanding(s.mon, Plain(Length())) == 0
    ensures s.mon.books.completed == s.mon.books.total
    ensures TotalDownloaded(s.mon.books) >= s.mon.books.total
  {
    assert Drain(s.mon.books, []) == s.mon.books;
  }

  lemma RestartBytes(s: Sys, now: int)
    ensures var e := Restarted(s.mon, now);
      Outstanding(e.mon, Plain(Length())) + Sum(e.spawned, AttemptOf(Length()))
      == Outstanding(s.mon, Plain(Length()))
  {
    forall id: nat, r: Range ensures AttemptOf(Length())(Fresh(id, r)) == Len(r) {
      assert Range(r.start, r.end) == r;
    }
    RestartConserves(s.mon, now, AttemptOf(Length()), Plain(Length()), Zero());
    MintedZero(s.mon.nextId, Restarted(s.mon, now).mon.nextId);
  }

  lemma StepKeepsExact(s: Sys, e: Event, size: nat)
    requires Enabled(s, e) && InOrder(s, e) && UniqueIds(s) && Polled(s) && Exact(s, size)
    ensures Exact(Step(s, e), size)
  {
    hide Exact, Tick, Handle;
    match e
    case WorkerActs(_, _, _) => WorkerStepExact(s, e, size);
    case TickFires(now) =>
      TickNeverStalls(s, now, size);
      MonitorStepExact(s, e, size);
    case ReceiveReliable(now) =>
      HandleBooks(s.mon, s.chan[0], now);
      QuietTicks(s, size);
      MonitorStepExact(s, e, size);
    case _ =>
      QuietTicks(s, size);
      MonitorStepExact(s, e, size);
  }

  lemma QuietTicks(s: Sys, size: nat)
    requires Exact(s, size)
    ensures s.mon.stallTicks == 0
  {
  }

  lemma {:induction false} AlwaysExact(s: Sys, es: seq<Event>, size: nat)
    requires Legal(s, es) && OrderedRun(s, es) && UniqueIds(s) && Polled(s) && Exact(s, size)
    ensures UniqueIds(After(s, es)) && Polled(After(s, es)) && Exact(After(s, es), size)
    decreases |es|
  {
    hide Exact, Step;
    if es != [] {
      StepKeepsUnique(s, es[0]);
      StepKeepsPolled(s, es[0]);
      StepKeepsExact(s, es[0], size);
      AlwaysExact(Step(s, es[0]), es[1..], size);
    }
  }

  lemma BeginsExact(p: Session)
    requires Proper(p)
    ensures Exact(Begin(p), p.size)
  {
    var s := Begin(p);
    var m := NewMon(p.size, p.completed, p.source);
    SumNonneg(p.ranges, Length());
    LaunchKeepsQueues(m, p.ranges, p.now);
    LaunchKeepsTicks(m, p.ranges, p.now);
    DrainKeeps(Launch(m, p.ranges, p.now).mon, p.now);
    BeginBytes(p);
    BeginsQuiet(p);
  }

  lemma {:induction false} LaunchKeepsTicks(m: Mon, ranges: seq<Range>, now: int)
    ensures Launch(m, ranges, now).mon.stallTicks == m.stallTicks
    decreases |ranges|
  {
    hide BuildRequest;
    if ranges != [] {
      var (asked, grant) := BuildRequest(m, now);
      if grant.Refused? {
        LaunchKeepsTicks(asked.(pending := asked.pending + [ranges[0]]), ranges[1..], now);
      } else {
        LaunchKeepsTicks(StartNew(asked, grant.lane, ranges[0]).mon, ranges[1..], now);
      }
    }
  }

  lemma BeginBytes(p: Session)
    ensures OpenBytes(Begin(p)) == Sum(p.ranges, Length())
  {
    forall id: nat, r: Range ensures AttemptOf(Length())(Fresh(id, r)) == Len(r) {
      assert Range(r.start, r.end) == r;
    }
    BeginMeasure(p, AttemptOf(Length()), Plain(Length()), Zero());
    MintedZero(0, Begin(p).mon.nextId);
  }

  lemma BeginsQuiet(p: Session)
    ensures forall i | 0 <= i < |Begin(p).live| :: Begin(p).live[i].reported == 0
  {
    var s := Begin(p);
    var nothing := Plain((r: Range) => 0);
    BeginMeasure(p, Reported(), nothing, Zero());
    MintedZero(0, s.mon.nextId);
    NothingCounts(s, nothing);
    SumZero(p.ranges, nothing.loose);
    forall i | 0 <= i < |s.live| ensures s.live[i].reported == 0 {
      SumAtLeast(s.live, i, Reported());
    }
  }

  // ----- what exactness gives

  /** The unread progress of live workers is at most what their attempts are worth. */
  lemma {:induction false} InFlightBound(chunks: map<nat, Entry>, live: seq<Worker>, w: Worker -> int)
    requires forall i | 0 <= i < |live| :: w(live[i]) >= 0
    requires forall k: nat | k in chunks :: Sum(live, Is(k)) >= 1
    requires forall i | 0 <= i < |live| && live[i].id in chunks :: chunks[live[i].id].downloaded <= w(live[i])
    ensures InFlight(chunks) <= Sum(live, w)
  {
    if live == [] {
      assert chunks == map[];
    } else {
      var rest := chunks - {live[0].id};
      forall i | 0 <= i < |live[1..]| && live[1..][i].id in rest
        ensures w(live[1..][i]) >= rest[live[1..][i].id].downloaded
      {
        assert live[1..][i] == live[i + 1];
      }
      assert forall i | 0 <= i < |live[1..]| :: live[1..][i] == live[i + 1];
      InFlightBound(rest, live[1..], w);
      if live[0].id in chunks {
        InFlightRemove(chunks, live[0].id);
      } else {
        assert rest == chunks;
      }
    }
  }

  /** In every state of an ordered run the ledger is exact: what it will have booked once the
      channel is read, plus the open attempts, is the file size; the running total, with the bytes
      in flight, never exceeds the size, so clamping it changes nothing; and no tick has stalled. */
  lemma LedgerExact(p: Session, es: seq<Event>)
    requires Proper(p) && Legal(Begin(p), es) && OrderedRun(Begin(p), es)
    ensures var s := After(Begin(p), es);
      && s.mon.books.completed <= Settled(s).completed
      && Settled(s).completed == p.size - OpenBytes(s)
      && Raw(s.mon.books) <= p.size
      && TotalDownloaded(s.mon.books) == Raw(s.mon.books)
      && s.mon.stallTicks == 0
  {
    hide Exact, Begin, Step;
    ReachExact(p, es);
    ExactBounds(After(Begin(p), es), p.size);
  }

  lemma ExactBounds(s: Sys, size: nat)
    requires Exact(s, size) && Faults(s) == 0
    ensures s.mon.books.completed <= Settled(s).completed == size - OpenBytes(s)
    ensures Raw(s.mon.books) <= size && TotalDownloaded(s.mon.books) == Raw(s.mon.books)
    ensures s.mon.stallTicks == 0
  {
    var b := Settled(s);
    DrainGrows(s.mon.books, s.chan);
    DrainCompletes(s.mon.books, s.chan);
    AttemptsHoldReports(s, size);
    InFlightBound(b.chunks, s.live, AttemptOf(Length()));
    AttemptsNonneg();
    OpenParts(s, AttemptOf(Length()), Plain(Length()));
  }

  lemma AttemptsNonneg()
    ensures forall w: Worker :: AttemptOf(Length())(w) >= 0
  {
    forall w: Worker ensures AttemptOf(Length())(w) >= 0 {
      assert Length()(Range(w.start, w.end)) >= 0;
    }
  }

  lemma AttemptsHoldReports(s: Sys, size: nat)
    requires Exact(s, size) && Faults(s) == 0
    ensures forall i | 0 <= i < |s.live| && s.live[i].id in Settled(s).chunks ::
      Settled(s).chunks[s.live[i].id].downloaded <= AttemptOf(Length())(s.live[i])
  {
    forall i | 0 <= i < |s.live| ensures Valid(s.live[i]) {
      OpenParts(s, Invalid(), Plain(Malformed()));
      SumAtLeast(s.live, i, Invalid());
    }
  }

  lemma ReachExact(p: Session, es: seq<Event>)
    requires Proper(p) && Legal(Begin(p), es) && OrderedRun(Begin(p), es)
    ensures var s := After(Begin(p), es);
      UniqueIds(s) && Polled(s) && Exact(s, p.size) && Faults(s) == 0
  {
    hide Exact, Step, Begin;
    BeginsUnique(p);
    BeginsPolled(p);
    BeginsExact(p);
    AlwaysExact(Begin(p), es, p.size);
    BeginsWellFormed(p);
    AlwaysWellFormed(Begin(p), es);
  }

  lemma {:induction false} DrainCompletes(b: Books, msgs: seq<Info>)
    ensures Drain(b, msgs).completed >= b.completed && Drain(b, msgs).total == b.total
    decreases |msgs|
  {
    if msgs != [] {
      DrainCompletes(Apply(b, msgs[0]), msgs[1..]);
    }
  }

  /** The reported total never goes back while an ordered run proceeds. */
  lemma TotalNeverDecreases(p: Session, es: seq<Event>, e: Event)
    requires Proper(p) && Legal(Begin(p), es) && OrderedRun(Begin(p), es)
    requires var s := After(Begin(p), es); Enabled(s, e) && InOrder(s, e)
    ensures var s := After(Begin(p), es);
      TotalDownloaded(Step(s, e).mon.books) >= TotalDownloaded(s.mon.books)
  {
    hide Begin, Exact, Step;
    var s := After(Begin(p), es);
    ReachExact(p, es);
    TotalGrows(s, e, p.size);
  }

  lemma TotalGrows(s: Sys, e: Event, size: nat)
    requires Enabled(s, e) && InOrder(s, e) && Exact(s, size)
    ensures TotalDownloaded(Step(s, e).mon.books) >= TotalDownloaded(s.mon.books)
  {
    hide Handle, Tick;
    if e.ReceiveReliable? {
      HandleBooks(s.mon, s.chan[0], e.now);
      ApplyGrows(s.mon.books, s.chan[0]);
    } else if e.TickFires? {
      TickKeepsBooks(s.mon, Tasks(s), e.now);
    }
  }

  lemma TickKeepsBooks(m: Mon, tasks: nat, now: int)
    ensures Tick(m, tasks, now).0.mon.books == m.books
  {
    hide Restarted;
    RestartKeepsFailures(m, now);
  }

  /** The early exit when the last task is joined trusts the ledger; in an ordered run it is right:
      every byte is trusted or handed to the writer. */
  lemma JoinExitSafe(p: Session, es: seq<Event>, x: int)
    requires Proper(p) && Legal(Begin(p), es) && OrderedRun(Begin(p), es)
    requires Enabled(After(Begin(p), es), Join) && Step(After(Begin(p), es), Join).outcome == Finished
    ensures var s := After(Begin(p), es);
      Sum(p.trusted, Holds(x)) + Sum(s.handed, Covers(x)) == if 0 <= x < p.size then 1 else 0
  {
    hide Exact, Begin;
    ReachExact(p, es);
    JoinLeavesNothing(After(Begin(p), es), p.size, x);
    PartitionAlways(p, es, x);
    RunKeepsPlaces(Begin(p), es, x);
    BeginsWithTrusted(p);
  }

  /** Only a tick or a join can finish a run. */
  lemma FinishersAreTwo(s: Sys, e: Event)
    requires Enabled(s, e) && Step(s, e).outcome == Finished
    ensures e.TickFires? || (e.Join? && Step(s, e).handed == s.handed)
  {
    hide Handle, Tick;
  }

  /** However a run finishes, every byte is trusted or handed to the writer, exactly once; for the exit on
      a join, which trusts the ledger, the run has to be in order. */
  lemma FinishedRunIsWhole(p: Session, es: seq<Event>, last: Event, x: int)
    requires Proper(p) && CanStart(p.source) && FinishesWith(p, es, last)
    requires last.TickFires? || OrderedRun(Begin(p), es)
    ensures Sum(p.trusted, Holds(x)) + Sum(Step(After(Begin(p), es), last).handed, Covers(x))
         == if 0 <= x < p.size then 1 else 0
  {
    hide Begin, Step, Proper, CanStart;
    FinishersAreTwo(After(Begin(p), es), last);
    match last
    case TickFires(now) => FinishGateSafe(p, es, now, x);
    case Join => JoinExitSafe(p, es, x);
  }

  lemma JoinLeavesNothing(s: Sys, size: nat, x: int)
    requires Exact(s, size) && Polled(s) && Enabled(s, Join) && Step(s, Join).outcome == Finished
    ensures Open(s, RestOf(Holds(x)), Plain(Holds(x))) == 0
  {
    DrainCompletes(s.mon.books, s.chan);
    AttemptsNonneg();
    OpenParts(s, AttemptOf(Length()), Plain(Length()));
    SumNonneg(s.chan, CarriedBy(Plain(Holds(x))));
    SumPointwise(s.chan, CarriedBy(Plain(Holds(x))), CarriedBy(Plain(Length())));
  }
}
