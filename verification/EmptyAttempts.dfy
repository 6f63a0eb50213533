/** A worker that fails after its last byte reports an empty range. Such a range is retried like any
    other, but no attempt at it can complete, so it keeps every later tick from declaring the
    download finished, although all bytes may have been handed to the writer. */
module EmptyAttempts {
  import opened Ranges
  import opened Chunk
  import opened Ledger
  import opened Retry
  import opened Lanes
  import opened MonitorSpec
  import opened Protocol
  import opened Partition
  import opened Bindings
  import opened Finish
  import opened OrderedLedger

  ghost function Empty(): Range -> int {
    (r: Range) => if r.start > r.end then 1 else 0
  }

  ghost function EmptyAttempt(): Worker -> int {
    (w: Worker) => if w.start > w.end then 1 else 0
  }

  /** Empty ranges that are being attempted, reported, or waiting. */
  ghost function EmptyOpen(s: Sys): int {
    Open(s, EmptyAttempt(), Plain(Empty()))
  }

  /** Exactly when an input makes a worker report an empty range: it has handed over everything,
      and then fails, or its attempt was empty from the start. */
  predicate ReportsEmpty(w: Worker, input: Input)
    requires Valid(w)
  {
    w.offset == w.end + 1 && (input.Fault? || ((input.Eof? || input.Data?) && w.start > w.end))
  }

  lemma EmptyReports(w: Worker, input: Input)
    requires Valid(w) && input != Terminate
    ensures Sum(React(w, input).sent, CarriedBy(Plain(Empty()))) == if ReportsEmpty(w, input) then 1 else 0
  {
    ReactCarries(w, input, Plain(Empty()));
    assert Plain(Empty()).owned(w.id, Rest(w)) == Empty()(Rest(w));
  }

  lemma EmptyBalance(w: Worker, input: Input)
    requires Valid(w) && input != Terminate
    ensures var r := React(w, input);
      (if r.alive then EmptyAttempt()(r.worker) else 0) + Sum(r.sent, CarriedBy(Plain(Empty())))
      == EmptyAttempt()(w) + if w.start <= w.end && ReportsEmpty(w, input) then 1 else 0
  {
    EmptyReports(w, input);
  }

  /** No input lets an attempt at an empty range complete. */
  lemma EmptyNeverCompletes(w: Worker, inputs: seq<Input>, n: nat)
    requires Valid(w) && w.start > w.end && n <= |inputs|
    ensures Sum(Run(w, inputs, n).sent, Completion()) == 0
  {
    RunConserves(w, inputs, n, 0);
    RunEnds(w, inputs, n);
  }

  lemma {:induction false} RunEnds(w: Worker, inputs: seq<Input>, n: nat)
    requires Valid(w) && n <= |inputs|
    ensures Run(w, inputs, n).worker.end <= w.end
  {
    hide React;
    if n > 0 {
      RunEnds(w, inputs, n - 1);
      NeverExtends(Run(w, inputs, n - 1).worker, inputs[n - 1]);
    }
  }

  lemma NeverExtends(w: Worker, input: Input)
    requires Valid(w)
    ensures React(w, input).worker.end <= w.end
  {
  }

  /** The step in which a worker that has handed over a whole nonempty range fails. */
  ghost predicate FailsComplete(s: Sys, e: Event)
    requires Enabled(s, e)
  {
    e.WorkerActs? && s.live[e.i].start <= s.live[e.i].end && ReportsEmpty(s.live[e.i], e.input)
  }

  ghost function CompleteFailures(s: Sys, es: seq<Event>): nat
    requires Legal(s, es)
    decreases |es|
  {
    if es == [] then 0
    else (if FailsComplete(s, es[0]) then 1 else 0) + CompleteFailures(Step(s, es[0]), es[1..])
  }

  lemma StepCountsEmpty(s: Sys, e: Event)
    requires Enabled(s, e)
    ensures EmptyOpen(Step(s, e)) == EmptyOpen(s) + if FailsComplete(s, e) then 1 else 0
  {
    if e.WorkerActs? {
      WorkerStepMeasure(s, e, EmptyAttempt(), Plain(Empty()));
      EmptyBalance(s.live[e.i], e.input);
    } else {
      MonitorStepMeasure(s, e, EmptyAttempt(), Plain(Empty()), Zero());
      MintedZero(s.mon.nextId, Step(s, e).mon.nextId);
    }
  }

  /** An empty range, once open, stays open; and only a complete worker's failure opens one. */
  lemma {:induction false} RunCountsEmpty(s: Sys, es: seq<Event>)
    requires Legal(s, es)
    ensures EmptyOpen(After(s, es)) == EmptyOpen(s) + CompleteFailures(s, es)
    decreases |es|
  {
    hide EmptyOpen, Step, FailsComplete;
    if es != [] {
      StepCountsEmpty(s, es[0]);
      RunCountsEmpty(Step(s, es[0]), es[1..]);
    }
  }

  lemma BeginsWithoutEmpty(p: Session)
    requires Proper(p)
    ensures EmptyOpen(Begin(p)) == 0
  {
    hide Begin;
    BeginMeasure(p, EmptyAttempt(), Plain(Empty()), Zero());
    MintedZero(0, Begin(p).mon.nextId);
    SumZero(p.ranges, Empty());
  }

  /** What a finished download has left open is at most what is still unread in the channel. */
  lemma FinishedIsIdle(s: Sys, e: Event, config: Option<Schedule>)
    requires Enabled(s, e) && Known(s, config) && CanStart(config) && Step(s, e).outcome == Finished
    ensures var t := Step(s, e);
      && t.live == [] && t.mon.pending == [] && QueuesEmpty(t.mon) && t.mon.queues.permanent == []
      && (e.TickFires? ==> t.chan == [])
      && (e.TickFires? || e.Join?)
  {
    hide Restarted, UniqueIds, BindingsMatch;
    if e.TickFires? {
      FinishedIsShortCircuit(s.mon, Tasks(s), e.now);
      RestartKeepsFailures(s.mon, e.now);
      NothingOpen(s, e.now, config);
    }
  }

  /** While an empty range is open, no tick finishes the run. Only the exit on the last join can, and
      then only with a message unread. */
  lemma EmptyBlocksFinish(s: Sys, e: Event, config: Option<Schedule>)
    requires Enabled(s, e) && Known(s, config) && CanStart(config) && EmptyOpen(s) > 0
    ensures Step(s, e).outcome == Finished ==> e == Join && s.chan != []
  {
    hide Tick, Handle, Known;
    if Step(s, e).outcome == Finished {
      FinishedIsIdle(s, e, config);
      StepCountsEmpty(s, e);
    }
  }

  /** A server that never closes its stream: a worker has received its whole range, and the idle
      timeout ends it. From there on no tick finishes the run, whatever happens next. */
  lemma NeverClosedNeverFinishes(p: Session, es: seq<Event>, i: nat, error: ErrorClass, arriving: seq<Info>,
                                 more: seq<Event>, now: int)
    requires Proper(p) && CanStart(p.source) && Legal(Begin(p), es)
    requires var s, e := After(Begin(p), es), WorkerActs(i, Fault(error), arriving);
      && Enabled(s, e) && s.live[i].offset == s.live[i].end + 1
      && Legal(Step(s, e), more) && Enabled(After(Step(s, e), more), TickFires(now))
    ensures var s, e := After(Begin(p), es), WorkerActs(i, Fault(error), arriving);
      Step(After(Step(s, e), more), TickFires(now)).outcome != Finished
  {
    hide Begin, EmptyOpen, Step, Known;
    var s, e := After(Begin(p), es), WorkerActs(i, Fault(error), arriving);
    ReachesKnown(p, es);
    KnownStep(s, e, p.source);
    KnownStays(Step(s, e), more, p.source);
    StepCountsEmpty(s, e);
    EmptyOpenNonneg(s, i);
    RunCountsEmpty(Step(s, e), more);
    EmptyBlocksFinish(After(Step(s, e), more), TickFires(now), p.source);
  }

  lemma KnownStep(s: Sys, e: Event, config: Option<Schedule>)
    requires Enabled(s, e) && Known(s, config)
    ensures Known(Step(s, e), config)
  {
    hide Step, Polled, UniqueIds, BindingsMatch;
    StepKeepsPolled(s, e);
    StepKeepsUnique(s, e);
    StepKeepsBindings(s, e, config);
  }

  lemma EmptyOpenNonneg(s: Sys, i: nat)
    requires i < |s.live|
    ensures EmptyOpen(s) >= if s.live[i].start > s.live[i].end then 1 else 0
  {
    OpenParts(s, EmptyAttempt(), Plain(Empty()));
    SumAtLeast(s.live, i, EmptyAttempt());
  }

  // ----- exactly when a complete download finishes

  ghost predicate AllHanded(p: Session, s: Sys) {
    forall x: int :: 0 <= x < p.size ==> Sum(p.trusted, Holds(x)) + Sum(s.handed, Covers(x)) >= 1
  }

  lemma OpenNonneg(s: Sys, x: int)
    ensures Open(s, RestOf(Holds(x)), Plain(Holds(x))) >= 0
    ensures Sum(s.mon.queues.retry, OfTicket(Plain(Holds(x)).owned)) <= Open(s, RestOf(Holds(x)), Plain(Holds(x)))
    ensures Sum(s.mon.queues.delayed, OfDelayed(Plain(Holds(x)).owned)) <= Open(s, RestOf(Holds(x)), Plain(Holds(x)))
    ensures Sum(s.mon.pending, Holds(x)) <= Open(s, RestOf(Holds(x)), Plain(Holds(x)))
  {
    OpenParts(s, RestOf(Holds(x)), Plain(Holds(x)));
  }

  lemma EmptyParts(s: Sys)
    ensures Sum(s.mon.queues.retry, OfTicket(Plain(Empty()).owned)) <= EmptyOpen(s)
    ensures Sum(s.mon.queues.delayed, OfDelayed(Plain(Empty()).owned)) <= EmptyOpen(s)
    ensures Sum(s.mon.pending, Empty()) <= EmptyOpen(s)
    ensures EmptyOpen(s) >= 0
  {
    OpenParts(s, EmptyAttempt(), Plain(Empty()));
  }

  /** A waiting range that is not empty holds its first byte. */
  lemma NothingWaits(s: Sys)
    requires EmptyOpen(s) == 0
    requires forall x: int :: Open(s, RestOf(Holds(x)), Plain(Holds(x))) == 0
    ensures QueuesEmpty(s.mon) && s.mon.pending == []
  {
    hide EmptyOpen, Open;
    EmptyParts(s);
    var q := s.mon.queues;
    if q.retry != [] {
      var t := q.retry[0];
      OpenNonneg(s, t.start);
      SumAtLeast(q.retry, 0, OfTicket(Plain(Holds(t.start)).owned));
      SumAtLeast(q.retry, 0, OfTicket(Plain(Empty()).owned));
    }
    if q.delayed != [] {
      var t := q.delayed[0].chunk;
      OpenNonneg(s, t.start);
      SumAtLeast(q.delayed, 0, OfDelayed(Plain(Holds(t.start)).owned));
      SumAtLeast(q.delayed, 0, OfDelayed(Plain(Empty()).owned));
    }
    if s.mon.pending != [] {
      OpenNonneg(s, s.mon.pending[0].start);
      SumAtLeast(s.mon.pending, 0, Holds(s.mon.pending[0].start));
      SumAtLeast(s.mon.pending, 0, Empty());
    }
  }

  lemma HandedLeavesNothing(p: Session, es: seq<Event>)
    requires Proper(p) && Legal(Begin(p), es) && AllHanded(p, After(Begin(p), es))
    ensures forall x: int :: Open(After(Begin(p), es), RestOf(Holds(x)), Plain(Holds(x))) == 0
  {
    hide Open, Begin;
    var s := After(Begin(p), es);
    forall x: int ensures Open(s, RestOf(Holds(x)), Plain(Holds(x))) == 0 {
      PartitionAlways(p, es, x);
      RunKeepsPlaces(Begin(p), es, x);
      BeginsWithTrusted(p);
      OpenNonneg(s, x);
      SumNonneg(s.trusted, Holds(x));
      SumNonneg(s.handed, Covers(x));
    }
  }

  lemma QuietRestart(m: Mon, now: int)
    requires QueuesEmpty(m) && m.pending == []
    ensures Restarted(m, now).spawned == [] && Restarted(m, now).mon.pending == []
    ensures QueuesEmpty(Restarted(m, now).mon) && Restarted(m, now).mon.books == m.books
  {
    assert Requeued([], now) == [];
  }

  /** When everything has been handed over and every task is joined, the next tick of an ordered run
      finishes the download if and only if, in the whole run, no worker failed after its last byte. */
  lemma FinishesIffNoCompleteFailure(p: Session, es: seq<Event>, now: int)
    requires Proper(p) && CanStart(p.source) && Legal(Begin(p), es) && OrderedRun(Begin(p), es)
    requires var s := After(Begin(p), es);
      Enabled(s, TickFires(now)) && Tasks(s) == 0 && AllHanded(p, s)
    ensures Step(After(Begin(p), es), TickFires(now)).outcome == Finished <==> CompleteFailures(Begin(p), es) == 0
  {
    hide Begin, EmptyOpen, Step, Exact, CompleteFailures, AllHanded, OrderedRun, Legal, After, Known, CanStart, Proper;
    var s := After(Begin(p), es);
    BeginsWithoutEmpty(p);
    RunCountsEmpty(Begin(p), es);
    if EmptyOpen(s) == 0 {
      NoneEmptyFinishes(p, es, now);
    } else {
      EmptyParts(s);
      ReachesKnown(p, es);
      EmptyBlocksFinish(s, TickFires(now), p.source);
    }
  }

  lemma NoneEmptyFinishes(p: Session, es: seq<Event>, now: int)
    requires Proper(p) && CanStart(p.source) && Legal(Begin(p), es) && OrderedRun(Begin(p), es)
    requires var s := After(Begin(p), es);
      Enabled(s, TickFires(now)) && Tasks(s) == 0 && AllHanded(p, s) && EmptyOpen(s) == 0
    ensures Step(After(Begin(p), es), TickFires(now)).outcome == Finished
  {
    hide Begin, EmptyOpen, Step, Exact, AllHanded, OrderedRun, Legal, After;
    var s := After(Begin(p), es);
    HandedLeavesNothing(p, es);
    NothingWaits(s);
    ReachExact(p, es);
    QuietRestart(s.mon, now);
    ReachesKnown(p, es);
    NoEntries(s, p.size);
    TickNeverStalls(s, now, p.size);
  }

  /** The early exit, when the last task is joined with nothing left to read, finishes the same runs. */
  lemma JoinFinishesIffNoCompleteFailure(p: Session, es: seq<Event>)
    requires Proper(p) && CanStart(p.source) && Legal(Begin(p), es) && OrderedRun(Begin(p), es)
    requires var s := After(Begin(p), es);
      Enabled(s, Join) && Tasks(s) == 1 && s.chan == [] && AllHanded(p, s)
    ensures Step(After(Begin(p), es), Join).outcome == Finished <==> CompleteFailures(Begin(p), es) == 0
  {
    hide Begin, EmptyOpen, Exact, CompleteFailures, Open;
    var s := After(Begin(p), es);
    BeginsWithoutEmpty(p);
    RunCountsEmpty(Begin(p), es);
    ReachExact(p, es);
    NoEntries(s, p.size);
    if EmptyOpen(s) == 0 {
      HandedLeavesNothing(p, es);
      NothingWaits(s);
      EmptyMonOwesNothing(s.mon);
      IdleIsComplete(s, p.size);
    } else if Step(s, Join).outcome == Finished {
      NothingEmpty(s);
    }
  }

  lemma NothingEmpty(s: Sys)
    requires s.live == [] && s.chan == [] && s.mon.pending == [] && QueuesEmpty(s.mon) && s.mon.queues.permanent == []
    ensures EmptyOpen(s) == 0
  {
  }

  lemma NoEntries(s: Sys, size: nat)
    requires Exact(s, size) && s.chan == [] && s.live == []
    ensures s.mon.books.chunks == map[]
  {
    assert Drain(s.mon.books, []) == s.mon.books;
  }
}
