/** Late progress cannot keep a download from ending. The monitor remembers which chunks completed, so
    no progress message, however late or repeated, revives one; an idle monitor therefore always either
    finishes or counts towards the stall escape. Nothing here needs progress to arrive, or in order. */
module Tombstones {
  import opened Ranges
  import opened Chunk
  import opened Ledger
  import opened Retry
  import opened Lanes
  import opened MonitorSpec
  import opened Protocol
  import opened Bindings
  import opened Finish
  import opened OrderedLedger

  ghost predicate KnownIds(msgs: seq<Info>, next: nat) {
    forall m | m in msgs && m.Progress? :: m.id < next
  }

  /** Progress may be lost, late and repeated, but it is about a chunk that exists. */
  ghost predicate AboutChunks(s: Sys, e: Event) {
    match e
    case WorkerActs(_, _, arriving) => KnownIds(arriving, s.mon.nextId)
    case StrayProgress(id, _, _, _) => id < s.mon.nextId
    case _ => true
  }

  ghost predicate RealProgress(s: Sys, es: seq<Event>)
    requires Legal(s, es)
    decreases |es|
  {
    es == [] || (AboutChunks(s, es[0]) && RealProgress(Step(s, es[0]), es[1..]))
  }

  /** Entries are of existing chunks that have no tombstone. */
  ghost predicate NoGhosts(b: Books, next: nat) {
    forall k: nat | k in b.chunks :: k < next && k !in b.retired
  }

  /** Every id that is nowhere any more has its tombstone. */
  ghost predicate Buried(s: Sys) {
    forall k: nat :: k < s.mon.nextId ==> IdCount(s, k) >= 1 || k in s.mon.books.retired
  }

  ghost predicate Tended(s: Sys) {
    NoGhosts(s.mon.books, s.mon.nextId) && KnownIds(s.chan, s.mon.nextId) && Buried(s)
  }

  lemma ApplyMakesNoGhost(b: Books, m: Info, next: nat)
    requires NoGhosts(b, next) && (m.Progress? ==> m.id < next)
    ensures NoGhosts(Apply(b, m), next)
    ensures b.retired <= Apply(b, m).retired && (m.Complete? ==> m.id in Apply(b, m).retired)
  {
  }

  lemma StepBooks(s: Sys, e: Event)
    requires Enabled(s, e)
    ensures Step(s, e).mon.books == match e
              case ReceiveReliable(_) => Apply(s.mon.books, s.chan[0])
              case StrayProgress(id, start, end, downloaded) => Apply(s.mon.books, Progress(id, start, end, downloaded))
              case _ => s.mon.books
  {
    hide Tick, Handle, Apply;
    match e
    case ReceiveReliable(now) => HandleBooks(s.mon, s.chan[0], now);
    case StrayProgress(id, start, end, downloaded) => HandleBooks(s.mon, Progress(id, start, end, downloaded), 0);
    case TickFires(now) => TickKeepsBooks(s.mon, Tasks(s), now);
    case _ =>
  }

  lemma StepChannel(s: Sys, e: Event, next: nat)
    requires Enabled(s, e) && AboutChunks(s, e) && KnownIds(s.chan, s.mon.nextId) && s.mon.nextId <= next
    ensures KnownIds(Step(s, e).chan, next)
  {
    hide Tick, Handle;
  }

  lemma StepKeepsTended(s: Sys, e: Event)
    requires Enabled(s, e) && AboutChunks(s, e) && Tended(s)
    ensures Tended(Step(s, e))
  {
    hide Step, IdCount, Apply;
    var t := Step(s, e);
    IdCountStep(s, e, 0);
    StepBooks(s, e);
    StepChannel(s, e, t.mon.nextId);
    if e.ReceiveReliable? {
      ApplyMakesNoGhost(s.mon.books, s.chan[0], s.mon.nextId);
    } else if e.StrayProgress? {
      ApplyMakesNoGhost(s.mon.books, Progress(e.id, e.start, e.end, e.downloaded), s.mon.nextId);
    }
    forall k: nat | k < t.mon.nextId ensures IdCount(t, k) >= 1 || k in t.mon.books.retired {
      IdCountStep(s, e, k);
      MintedOnce(k, s.mon.nextId, t.mon.nextId);
      IdCountNonneg(s, k);
    }
  }

  lemma IdCountNonneg(s: Sys, k: nat)
    ensures IdCount(s, k) >= 0
  {
    FlightAndHeld(s, k);
  }

  lemma {:induction false} AlwaysTended(s: Sys, es: seq<Event>)
    requires Legal(s, es) && RealProgress(s, es) && Tended(s)
    ensures Tended(After(s, es))
    decreases |es|
  {
    hide Step, Tended, AboutChunks;
    if es != [] {
      StepKeepsTended(s, es[0]);
      AlwaysTended(Step(s, es[0]), es[1..]);
    }
  }

  lemma BeginsTended(p: Session)
    ensures Tended(Begin(p))
  {
    BeginsBare(p);
    hide Begin, IdCount;
    forall k: nat | k < Begin(p).mon.nextId ensures IdCount(Begin(p), k) >= 1 {
      BeginCount(p, k);
    }
  }

  lemma BeginsBare(p: Session)
    ensures Begin(p).mon.books.chunks == map[] && Begin(p).chan == []
  {
    var m := NewMon(p.size, p.completed, p.source);
    LaunchKeepsQueues(m, p.ranges, p.now);
    DrainKeeps(Launch(m, p.ranges, p.now).mon, p.now);
  }

  lemma BeginCount(p: Session, k: nat)
    ensures IdCount(Begin(p), k) == if k < Begin(p).mon.nextId then 1 else 0
  {
    hide Begin;
    BeginMeasure(p, Is(k), IdMeasure(k), Mints(k));
    SumZero(p.ranges, IdMeasure(k).loose);
    MintedOnce(k, 0, Begin(p).mon.nextId);
  }

  /** With nothing running, unread or waiting no entry is left. */
  lemma IdleHasNoEntries(s: Sys)
    requires Tended(s) && s.live == [] && s.chan == [] && s.mon.queues.permanent == []
    requires s.mon.queues.retry == [] && s.mon.queues.delayed == []
    ensures s.mon.books.chunks == map[]
  {
    forall k: nat ensures k !in s.mon.books.chunks {
      FlightAndHeld(s, k);
      assert IdCount(s, k) == 0;
    }
  }

  /** In every run whose progress is about existing chunks, a tick with nothing running, nothing to
      start and nothing waiting finishes the download or counts a stall, and the sixth such tick in a
      row ends the run: a download never idles for ever. */
  lemma IdleTickDecides(p: Session, es: seq<Event>, now: int)
    requires Proper(p) && CanStart(p.source) && Legal(Begin(p), es) && RealProgress(Begin(p), es)
    requires var s := After(Begin(p), es);
      && Enabled(s, TickFires(now)) && Tasks(s) == 0
      && Restarted(s.mon, now).spawned == [] && QueuesEmpty(Restarted(s.mon, now).mon)
    ensures var s := After(Begin(p), es);
      var t := Step(s, TickFires(now));
      || t.outcome == Finished
      || (t.mon.stallTicks == s.mon.stallTicks + 1 && (t.mon.stallTicks >= STALL_LIMIT ==> t.outcome == GaveUp))
  {
    hide Begin, Step, Restarted, Tended, Known;
    var s := After(Begin(p), es);
    BeginsTended(p);
    AlwaysTended(Begin(p), es);
    ReachesKnown(p, es);
    IdleTick(s, now, p.source);
  }

  /** The tick finds nothing running, startable, waiting or entered in the ledger, and bytes missing. */
  ghost predicate FindsNothing(s: Sys, now: int) {
    var e := Restarted(s.mon, now);
    && Tasks(s) == 0 && e.spawned == [] && QueuesEmpty(e.mon) && e.mon.pending == [] && e.mon.books.chunks == map[]
    && TotalDownloaded(e.mon.books) < e.mon.books.total
  }

  /** How many of the last ticks of a run, without a break, found nothing. */
  ghost function IdleTicks(s: Sys, es: seq<Event>): nat
    requires Legal(s, es)
    decreases |es|
  {
    if es == [] then 0
    else
      LastStep(s, es);
      var front, last := es[..|es| - 1], es[|es| - 1];
      if last.TickFires? then (if FindsNothing(After(s, front), last.now) then IdleTicks(s, front) + 1 else 0)
      else IdleTicks(s, front)
  }

  lemma TickCounts(s: Sys, now: int)
    requires Enabled(s, TickFires(now)) && s.mon.queues.permanent == []
    ensures var t := Step(s, TickFires(now));
      && (FindsNothing(s, now) ==> t.mon.stallTicks == s.mon.stallTicks + 1)
      && (t.outcome == GaveUp <==> FindsNothing(s, now) && s.mon.stallTicks + 1 >= STALL_LIMIT)
      && (!FindsNothing(s, now) ==> t.mon.stallTicks == 0 || t.outcome == Finished)
  {
    hide Restarted, InFlight;
    RestartKeepsFailures(s.mon, now);
  }

  lemma OtherTicks(s: Sys, e: Event)
    requires Enabled(s, e) && !e.TickFires?
    ensures Step(s, e).mon.stallTicks == s.mon.stallTicks
  {
    hide Handle;
    match e
    case ReceiveReliable(now) => HandleTicks(s.mon, s.chan[0], now);
    case StrayProgress(id, start, end, downloaded) => HandleTicks(s.mon, Progress(id, start, end, downloaded), 0);
    case _ =>
  }

  lemma HandleTicks(m: Mon, info: Info, now: int)
    ensures Handle(m, info, now).mon.stallTicks == m.stallTicks
  {
    hide BuildRequest;
  }

  lemma {:induction false} StallCount(p: Session, es: seq<Event>)
    requires Legal(Begin(p), es)
    ensures var s := After(Begin(p), es);
      s.outcome != Finished ==> s.mon.stallTicks == IdleTicks(Begin(p), es)
    decreases |es|
  {
    hide Begin, Step, FindsNothing;
    if es == [] {
      BeginsUncounted(p);
    } else {
      var front, last := es[..|es| - 1], es[|es| - 1];
      LastStep(Begin(p), es);
      StallCount(p, front);
      BeginsPolled(p);
      AlwaysPolled(Begin(p), front);
      if last.TickFires? {
        TickCounts(After(Begin(p), front), last.now);
      } else {
        OtherTicks(After(Begin(p), front), last);
      }
    }
  }

  lemma BeginsUncounted(p: Session)
    ensures Begin(p).mon.stallTicks == 0
  {
    var m := NewMon(p.size, p.completed, p.source);
    hide DrainPending;
    LaunchKeepsTicks(m, p.ranges, p.now);
    DrainKeeps(Launch(m, p.ranges, p.now).mon, p.now);
  }

  /** Over every run: a tick gives up if and only if it is the sixth in a row, or a later one, that found
      nothing. */
  lemma TickGivesUpIff(p: Session, es: seq<Event>, now: int)
    requires Legal(Begin(p), es) && Enabled(After(Begin(p), es), TickFires(now))
    ensures var s := After(Begin(p), es);
      Step(s, TickFires(now)).outcome == GaveUp
      <==> FindsNothing(s, now) && IdleTicks(Begin(p), es) + 1 >= STALL_LIMIT
  {
    hide Begin, Step, FindsNothing;
    StallCount(p, es);
    BeginsPolled(p);
    AlwaysPolled(Begin(p), es);
    TickCounts(After(Begin(p), es), now);
  }

  lemma IdleTick(s: Sys, now: int, config: Option<Schedule>)
    requires Enabled(s, TickFires(now)) && Tasks(s) == 0 && Tended(s) && Known(s, config) && CanStart(config)
    requires Restarted(s.mon, now).spawned == [] && QueuesEmpty(Restarted(s.mon, now).mon)
    ensures var t := Step(s, TickFires(now));
      || t.outcome == Finished
      || (t.mon.stallTicks == s.mon.stallTicks + 1 && (t.mon.stallTicks >= STALL_LIMIT ==> t.outcome == GaveUp))
  {
    hide Restarted, Tended, UniqueIds, BindingsMatch, TotalDownloaded;
    RestartKeepsFailures(s.mon, now);
    NothingOpen(s, now, config);
    QueuesWereEmpty(s, now);
    IdleHasNoEntries(s);
  }

  /** A restart that starts nothing and leaves nothing waiting found nothing waiting. */
  lemma QueuesWereEmpty(s: Sys, now: int)
    requires Restarted(s.mon, now).spawned == [] && QueuesEmpty(Restarted(s.mon, now).mon)
    ensures s.mon.queues.retry == [] && s.mon.queues.delayed == []
  {
    hide Restarted;
    var e := Restarted(s.mon, now);
    CountWaiting(s.mon, now);
  }

  ghost function Waiting(m: Mon): nat {
    |m.queues.retry| + |m.queues.delayed|
  }

  lemma CountWaiting(m: Mon, now: int)
    ensures Restarted(m, now).spawned == [] ==> Waiting(Restarted(m, now).mon) == Waiting(m)
  {
    DrainKeeps(m, now);
    var d := DrainPending(m, now).mon;
    ProcessConserves(d.queues, now, Plain(Length()).owned);
    var processed := d.(queues := ProcessQueues(d.queues, now));
    RetryKeeps(processed, now, []);
    RetryCounts(processed, now, []);
  }

  lemma {:induction false} RetryCounts(m: Mon, now: int, deferred: seq<Ticket>)
    ensures var e := RetryRipe(m, now, deferred);
      |e.mon.queues.retry| + |e.spawned| == |m.queues.retry| + |deferred|
    decreases |m.queues.retry|
  {
    hide BuildRequest;
    var i := FirstRipe(m.queues.retry, now);
    if i < |m.queues.retry| {
      var t := m.queues.retry[i];
      var (asked, grant) := BuildRequest(m, now);
      var popped := asked.(queues := m.queues.(retry := Remove(m.queues.retry, i)));
      if grant.Refused? {
        RetryCounts(popped, now, deferred + [t]);
      } else {
        RetryCounts(Bind(popped, t.id, grant.lane), now, deferred);
      }
    }
  }
}
