/** When the monitor declares the download finished, every byte has been handed to the writer.
    Nothing here trusts the byte ledger: progress messages may be lost, repeated or invented. */
module Finish {
  import opened Ranges
  import opened Chunk
  import opened Ledger
  import opened Retry
  import opened Lanes
  import opened MonitorSpec
  import opened Protocol
  import opened Partition
  import opened Bindings

  /** What the fixed polling order of the select loop gives: once the reliable channel was seen
      empty in this turn, it can hold a message only while some task is not joined. */
  ghost predicate Polled(s: Sys) {
    && (s.phase != AtTop && Tasks(s) == 0 ==> s.chan == [])
    && (s.outcome == Running ==> s.mon.queues.permanent == [])
  }

  lemma HandleFilesNothing(m: Mon, info: Info, now: int)
    requires !info.Failed?
    ensures Handle(m, info, now).mon.queues.permanent == m.queues.permanent
  {
    hide BuildRequest;
  }

  lemma StepKeepsPolled(s: Sys, e: Event)
    requires Enabled(s, e) && Polled(s)
    ensures Polled(Step(s, e))
  {
    hide Handle, Tick;
    if e.StrayProgress? {
      HandleFilesNothing(s.mon, Progress(e.id, e.start, e.end, e.downloaded), 0);
    }
  }

  lemma {:induction false} AlwaysPolled(s: Sys, es: seq<Event>)
    requires Legal(s, es) && Polled(s)
    ensures Polled(After(s, es))
    decreases |es|
  {
    if es != [] {
      StepKeepsPolled(s, es[0]);
      AlwaysPolled(Step(s, es[0]), es[1..]);
    }
  }

  lemma BeginsPolled(p: Session)
    ensures Polled(Begin(p))
  {
    var m := NewMon(p.size, p.completed, p.source);
    LaunchKeepsQueues(m, p.ranges, p.now);
    DrainKeeps(Launch(m, p.ranges, p.now).mon, p.now);
  }

  lemma {:induction false} LaunchKeepsQueues(m: Mon, ranges: seq<Range>, now: int)
    ensures Launch(m, ranges, now).mon.queues == m.queues && Launch(m, ranges, now).mon.books == m.books
    decreases |ranges|
  {
    hide BuildRequest;
    if ranges != [] {
      var (asked, grant) := BuildRequest(m, now);
      if grant.Refused? {
        LaunchKeepsQueues(asked.(pending := asked.pending + [ranges[0]]), ranges[1..], now);
      } else {
        LaunchKeepsQueues(StartNew(asked, grant.lane, ranges[0]).mon, ranges[1..], now);
      }
    }
  }

  lemma RestartKeepsFailures(m: Mon, now: int)
    ensures Restarted(m, now).mon.queues.permanent == m.queues.permanent
    ensures Restarted(m, now).mon.books == m.books
    ensures Restarted(m, now).mon.stallTicks == m.stallTicks
    ensures Restarted(m, now).mon.queues.totals == m.queues.totals
    ensures Restarted(m, now).mon.pending == DrainPending(m, now).mon.pending
  {
    DrainKeeps(m, now);
    var d := DrainPending(m, now).mon;
    ProcessConserves(d.queues, now, Plain(Length()).owned);
    RetryKeeps(d.(queues := ProcessQueues(d.queues, now)), now, []);
  }

  /** Whenever a tick says finished, its first test said so: a ledger that satisfies the second,
      three-part test always satisfies the short circuit too, so that test decides nothing. */
  lemma FinishedIsShortCircuit(m: Mon, tasks: nat, now: int)
    requires Tick(m, tasks, now).1
    ensures var e := Restarted(m, now);
      && tasks == 0 && e.spawned == [] && QueuesEmpty(e.mon)
      && TotalDownloaded(e.mon.books) >= e.mon.books.total
      && Tick(m, tasks, now).0 == e
  {
    hide Restarted;
  }

  /** A run has given up exactly if a failure is permanent. */
  ghost predicate Judged(s: Sys) {
    s.outcome == GaveUp <==> s.mon.queues.permanent != []
  }

  lemma StepKeepsJudged(s: Sys, e: Event)
    requires Enabled(s, e) && Judged(s)
    ensures Judged(Step(s, e))
  {
    hide Handle, Restarted;
    match e
    case TickFires(now) =>
      RestartKeepsFailures(s.mon, now);
      if Step(s, e).outcome == Finished {
        FinishedIsShortCircuit(s.mon, Tasks(s), now);
      }
    case StrayProgress(id, start, end, downloaded) =>
      HandleFilesNothing(s.mon, Progress(id, start, end, downloaded), 0);
    case _ =>
  }

  lemma {:induction false} AlwaysJudged(s: Sys, es: seq<Event>)
    requires Legal(s, es) && Judged(s)
    ensures Judged(After(s, es))
    decreases |es|
  {
    hide Step, Judged;
    if es != [] {
      StepKeepsJudged(s, es[0]);
      AlwaysJudged(Step(s, es[0]), es[1..]);
    }
  }

  /** The source settings under which an idle download can always start something. */
  ghost predicate CanStart(config: Option<Schedule>) {
    config.Some? ==>
      && config.value.maxWorkers > 0 && config.value.maxPerLane > 0 && config.value.lanes != []
      && !(config.value.model == PerSource && config.value.maxPerSource == Some(0))
  }

  /** With nothing in flight, a tick that starts nothing has nothing buffered: the short circuit
      need not look at the buffer. */
  lemma IdleDrainEmpties(m: Mon, now: int)
    requires Sound(m) && m.bindings == map[] && CanStart(m.source)
    requires DrainPending(m, now).spawned == []
    ensures m.pending == []
  {
    if m.pending != [] && m.source.Some? {
      IdleCanClaim(m.source.value, now);
    }
  }

  /** A run whose next event declares the download finished. */
  ghost predicate FinishesWith(p: Session, es: seq<Event>, last: Event) {
    && Legal(Begin(p), es) && Enabled(After(Begin(p), es), last)
    && Step(After(Begin(p), es), last).outcome == Finished
  }

  /** The finish gate is safe: if a tick of any run declares the download finished, then every
      byte of the file is trusted or handed to the writer, exactly once. */
  lemma FinishGateSafe(p: Session, es: seq<Event>, now: int, x: int)
    requires Proper(p) && CanStart(p.source)
    requires FinishesWith(p, es, TickFires(now))
    ensures var s := Step(After(Begin(p), es), TickFires(now));
      && Tasks(s) == 0 && s.chan == []
      && Sum(p.trusted, Holds(x)) + Sum(s.handed, Covers(x)) == if 0 <= x < p.size then 1 else 0
  {
    hide Begin, Step, Known;
    var s := After(Begin(p), es);
    ReachesKnown(p, es);
    FinishedClosesAll(s, now, p.source, x);
    PartitionAlways(p, es, x);
    RunKeepsPlaces(Begin(p), es, x);
    StepKeepsPlaces(s, TickFires(now), x);
    BeginsWithTrusted(p);
  }

  lemma BeginsWithTrusted(p: Session)
    ensures Begin(p).trusted == p.trusted
  {
  }

  /** A finishing tick leaves nothing open anywhere. */
  lemma FinishedClosesAll(s: Sys, now: int, config: Option<Schedule>, x: int)
    requires Enabled(s, TickFires(now)) && Known(s, config) && CanStart(config)
    requires Step(s, TickFires(now)).outcome == Finished
    ensures var t := Step(s, TickFires(now));
      Tasks(t) == 0 && t.chan == [] && Open(t, RestOf(Holds(x)), Plain(Holds(x))) == 0
  {
    hide Restarted, UniqueIds, BindingsMatch;
    FinishedIsShortCircuit(s.mon, Tasks(s), now);
    RestartKeepsFailures(s.mon, now);
    NothingOpen(s, now, config);
  }

  /** What every run keeps about polling, ids and bindings. */
  ghost predicate Known(s: Sys, config: Option<Schedule>) {
    Polled(s) && UniqueIds(s) && BindingsMatch(s, config)
  }

  lemma ReachesKnown(p: Session, es: seq<Event>)
    requires Proper(p) && Legal(Begin(p), es)
    ensures Known(After(Begin(p), es), p.source)
  {
    hide Begin, Step, Polled, UniqueIds, BindingsMatch;
    BeginsPolled(p);
    BeginsUnique(p);
    BeginsBound(p);
    KnownStays(Begin(p), es, p.source);
  }

  lemma KnownStays(s: Sys, es: seq<Event>, config: Option<Schedule>)
    requires Legal(s, es) && Known(s, config)
    ensures Known(After(s, es), config)
  {
    hide Begin, Step, Polled, UniqueIds, BindingsMatch;
    AlwaysPolled(s, es);
    AlwaysBound(s, es, config);
  }

  lemma NothingOpen(s: Sys, now: int, config: Option<Schedule>)
    requires BindingsMatch(s, config) && CanStart(config)
    requires s.chan == [] && s.live == [] && Restarted(s.mon, now).spawned == []
    ensures Restarted(s.mon, now).mon.pending == []
  {
    if s.mon.source.Some? {
      forall k: nat ensures k !in s.mon.bindings {
        assert Flight(s, k) == 0;
      }
      assert s.mon.bindings == map[];
    }
    RestartKeepsFailures(s.mon, now);
    IdleDrainEmpties(s.mon, now);
  }
}
