/** Every run is bounded: how often ranges can be cut, how many chunk ids that makes, and how often
    one id can be attempted. */
module Bounds {
  import opened Ranges
  import opened Chunk
  import opened Retry
  import opened MonitorSpec
  import opened Protocol
  import opened Partition
  import opened Bindings
  import opened Finish
  import opened OrderedLedger

  // ----- cuts

  /** How often a range can still be cut. */
  ghost function Potential(): Range -> int {
    (r: Range) => Max(Len(r) / MIN_CHUNK_SIZE - 1, 0)
  }

  ghost predicate Cuts(s: Sys, e: Event)
    requires Enabled(s, e)
  {
    e.WorkerActs? && React(s.live[e.i], e.input).worker.end < s.live[e.i].end
  }

  ghost function CutCount(s: Sys, es: seq<Event>): nat
    requires Legal(s, es)
    decreases |es|
  {
    if es == [] then 0 else (if Cuts(s, es[0]) then 1 else 0) + CutCount(Step(s, es[0]), es[1..])
  }

  ghost function Room(s: Sys): int {
    Open(s, RestOf(Potential()), Plain(Potential()))
  }

  lemma QuotientsAdd(a: nat, b: nat, m: nat)
    requires m > 0
    ensures a / m + b / m <= (a + b) / m
  {
    var qa, qb, q := a / m, b / m, (a + b) / m;
    assert m * (qa + qb) <= a + b < m * (q + 1);
    if qa + qb > q {
      Scaled(q + 1, qa + qb, m);
    }
  }

  lemma Scaled(a: nat, b: nat, m: nat)
    requires a <= b
    ensures m * a <= m * b
  {
  }

  lemma QuotientGrows(a: nat, b: nat, m: nat)
    requires m > 0 && a <= b
    ensures a / m <= b / m
  {
    QuotientsAdd(a, b - a, m);
  }

  lemma CutSpends(start: nat, mid: int, end: int)
    requires Len(Range(start, mid)) >= MIN_CHUNK_SIZE && end - mid >= MIN_CHUNK_SIZE
    ensures Potential()(Range(start, mid)) + Potential()(Range(mid + 1, end)) + 1 <= Potential()(Range(start, end))
  {
    QuotientsAdd(mid - start + 1, end - mid, MIN_CHUNK_SIZE);
  }

  lemma AdvanceSpends(r: Range, rest: Range)
    requires Len(rest) <= Len(r)
    ensures 0 <= Potential()(rest) <= Potential()(r)
  {
    QuotientGrows(Len(rest), Len(r), MIN_CHUNK_SIZE);
  }

  lemma ReactSpends(w: Worker, input: Input)
    requires Valid(w) && input != Terminate
    ensures var r := React(w, input);
      RestOf(Potential())(w) >= (if r.alive then RestOf(Potential())(r.worker) else 0)
        + Sum(r.sent, CarriedBy(Plain(Potential()))) + (if r.worker.end < w.end then 1 else 0)
  {
    hide Potential;
    ReactCarries(w, input, Plain(Potential()));
    ReactShape(w, input);
    var r := React(w, input);
    if r.worker.end < w.end {
      CutSpends(w.offset, r.worker.end, w.end);
      assert Rest(r.worker) == Range(w.offset, r.worker.end) && Rest(w) == Range(w.offset, w.end);
      assert Plain(Potential()).loose(Range(r.worker.end + 1, w.end)) == Potential()(Range(r.worker.end + 1, w.end));
    } else {
      AdvanceSpends(Rest(w), Rest(r.worker));
    }
  }

  /** An input either cuts the end off, leaving both sides long enough, or moves the offset on. */
  lemma ReactShape(w: Worker, input: Input)
    requires Valid(w) && input != Terminate
    ensures var r := React(w, input);
      if r.worker.end < w.end then
        && r.alive && !Completes(w, input) && r.worker.offset == w.offset
        && Len(Rest(r.worker)) >= MIN_CHUNK_SIZE && w.end - r.worker.end >= MIN_CHUNK_SIZE
      else r.worker.end == w.end && Len(Rest(r.worker)) <= Len(Rest(w))
  {
  }

  lemma StepSpends(s: Sys, e: Event)
    requires Enabled(s, e)
    ensures Room(Step(s, e)) + (if Cuts(s, e) then 1 else 0) <= Room(s)
  {
    if e.WorkerActs? {
      WorkerStepMeasure(s, e, RestOf(Potential()), Plain(Potential()));
      ReactSpends(s.live[e.i], e.input);
    } else {
      PlainCompatible(Potential());
      MonitorStepMeasure(s, e, RestOf(Potential()), Plain(Potential()), Zero());
      MintedZero(s.mon.nextId, Step(s, e).mon.nextId);
    }
  }

  lemma {:induction false} RunSpends(s: Sys, es: seq<Event>)
    requires Legal(s, es)
    ensures Room(After(s, es)) + CutCount(s, es) <= Room(s)
    decreases |es|
  {
    if es != [] {
      StepSpends(s, es[0]);
      RunSpends(Step(s, es[0]), es[1..]);
    }
  }

  /** Ranges that have no id yet: buffered, or announced and unread. */
  ghost function Loose(): Measure {
    Measure((id: nat, r: Range) => 0, (id: nat) => 0, (r: Range) => 1)
  }

  ghost function Nothing(): Worker -> int {
    (w: Worker) => 0
  }

  ghost function Spend(): nat -> int {
    (id: nat) => -1
  }

  lemma {:induction false} MintedSpent(from: nat, to: nat)
    ensures Minted(Spend(), from, to) == if from < to then from - to else 0
  {
    if from < to {
      MintedSpent(from, to - 1);
    }
  }

  ghost function LooseCount(s: Sys): int {
    Open(s, Nothing(), Loose())
  }

  lemma StepMintsLoose(s: Sys, e: Event)
    requires Enabled(s, e)
    ensures Step(s, e).mon.nextId + LooseCount(Step(s, e))
         == s.mon.nextId + LooseCount(s) + if Cuts(s, e) then 1 else 0
  {
    if e.WorkerActs? {
      WorkerStepMeasure(s, e, Nothing(), Loose());
      ReactCarries(s.live[e.i], e.input, Loose());
      ReactEnds(s.live[e.i], e.input);
    } else {
      MonitorStepMeasure(s, e, Nothing(), Loose(), Spend());
      MintedSpent(s.mon.nextId, Step(s, e).mon.nextId);
    }
  }

  lemma {:induction false} RunMintsLoose(s: Sys, es: seq<Event>)
    requires Legal(s, es)
    ensures After(s, es).mon.nextId + LooseCount(After(s, es)) == s.mon.nextId + LooseCount(s) + CutCount(s, es)
    decreases |es|
  {
    if es != [] {
      StepMintsLoose(s, es[0]);
      RunMintsLoose(Step(s, es[0]), es[1..]);
    }
  }

  lemma {:induction false} RoomOfRanges(rs: seq<Range>)
    ensures Sum(rs, Potential()) * MIN_CHUNK_SIZE <= Sum(rs, Length())
    ensures Sum(rs, Loose().loose) == |rs|
  {
    if rs != [] {
      RoomOfRanges(rs[1..]);
    }
  }

  /** Cuts and ids, over every run: each cut uses up a MIN_CHUNK_SIZE of what was missing at the
      start, and ids are exactly the initial ranges and the cut-off halves that got one. */
  lemma CutsAndIds(p: Session, es: seq<Event>)
    requires Proper(p) && Legal(Begin(p), es)
    ensures CutCount(Begin(p), es) * MIN_CHUNK_SIZE <= p.size - p.completed
    ensures After(Begin(p), es).mon.nextId + LooseCount(After(Begin(p), es)) == |p.ranges| + CutCount(Begin(p), es)
    ensures LooseCount(After(Begin(p), es)) >= 0
  {
    hide Begin, Room, LooseCount;
    BeginRoom(p);
    RunSpends(Begin(p), es);
    RunMintsLoose(Begin(p), es);
    RoomOfRanges(p.ranges);
    RoomLeft(After(Begin(p), es));
    Scaled(CutCount(Begin(p), es), Sum(p.ranges, Potential()), MIN_CHUNK_SIZE);
  }

  lemma BeginRoom(p: Session)
    ensures Room(Begin(p)) == Sum(p.ranges, Potential())
    ensures Begin(p).mon.nextId + LooseCount(Begin(p)) == Sum(p.ranges, Loose().loose)
  {
    hide Begin, Room, LooseCount;
    RoomBegins(p);
    LooseBegins(p);
  }

  lemma LooseBegins(p: Session)
    ensures Begin(p).mon.nextId + LooseCount(Begin(p)) == Sum(p.ranges, Loose().loose)
  {
    hide Begin, Launch, DrainPending;
    BeginMeasure(p, Nothing(), Loose(), Spend());
    MintedSpent(0, Begin(p).mon.nextId);
  }

  lemma RoomBegins(p: Session)
    ensures Room(Begin(p)) == Sum(p.ranges, Potential())
  {
    hide Begin, Launch, DrainPending;
    PlainCompatible(Potential());
    BeginMeasure(p, RestOf(Potential()), Plain(Potential()), Zero());
    MintedZero(0, Begin(p).mon.nextId);
  }

  lemma RoomLeft(s: Sys)
    ensures Room(s) >= 0 && LooseCount(s) >= 0
  {
    forall w: Worker ensures RestOf(Potential())(w) >= 0 {
      assert Potential()(Rest(w)) >= 0;
    }
    OpenParts(s, RestOf(Potential()), Plain(Potential()));
    OpenParts(s, Nothing(), Loose());
  }

  // ----- attempts

  ghost predicate FailsNow(s: Sys, e: Event, k: nat)
    requires Enabled(s, e)
  {
    e.ReceiveReliable? && s.chan[0].Failed? && s.chan[0].id == k
  }

  ghost predicate CompletesNow(s: Sys, e: Event, k: nat)
    requires Enabled(s, e)
  {
    e.ReceiveReliable? && s.chan[0].Complete? && s.chan[0].id == k
  }

  /** The workers a step starts. */
  ghost function Spawned(s: Sys, e: Event): seq<Worker>
    requires Enabled(s, e)
  {
    match e
    case ReceiveReliable(now) => Handle(s.mon, s.chan[0], now).spawned
    case TickFires(now) => Tick(s.mon, Tasks(s), now).0.spawned
    case _ => []
  }

  ghost function Started(s: Sys, es: seq<Event>): seq<Worker>
    requires Legal(s, es)
    decreases |es|
  {
    if es == [] then [] else Spawned(s, es[0]) + Started(Step(s, es[0]), es[1..])
  }

  lemma HandleQueues(m: Mon, info: Info, now: int)
    ensures var q := Handle(m, info, now).mon.queues;
      match info
      case Failed(id, start, end, error) => q == OnChunkFailed(m.queues, id, start, end, error, now)
      case Complete(id) => q == Forget(m.queues, id)
      case _ => q == m.queues
  {
    hide BuildRequest;
  }

  /** The failures of an id that the monitor has counted: at most MAX_TOTAL_ATTEMPTS while the run
      goes on; one more ends it and leaves the range with the permanent failures. */
  ghost predicate Budget(s: Sys, k: nat, failures: nat) {
    && (k >= s.mon.nextId ==> failures == 0 && k !in s.mon.queues.totals)
    && (s.outcome == Running && Owners(s, k) >= 1 ==> failures == Count(s.mon.queues.totals, k))
    && (failures <= MAX_TOTAL_ATTEMPTS
        || (failures == MAX_TOTAL_ATTEMPTS + 1 && s.outcome != Running
            && Held(s.mon.queues, IdMeasure(k).owned) >= 1))
  }

  lemma ReceiveBudget(s: Sys, now: int, k: nat, failures: nat)
    requires Enabled(s, ReceiveReliable(now)) && UniqueIds(s) && Polled(s) && Budget(s, k, failures)
    ensures Budget(Step(s, ReceiveReliable(now)), k, failures + if FailsNow(s, ReceiveReliable(now), k) then 1 else 0)
  {
    hide Handle;
    var info := s.chan[0];
    OwnersStep(s, ReceiveReliable(now), k);
    IdCountStep(s, ReceiveReliable(now), k);
    MintedOnce(k, s.mon.nextId, Step(s, ReceiveReliable(now)).mon.nextId);
    HandleQueues(s.mon, info, now);
    if info.Failed? {
      FailureFiledOnce(s.mon.queues, info.id, info.start, info.end, info.error, now, IdMeasure(k).owned);
      if info.id == k {
        HeadIsOwned(s, k);
        FlightAndHeld(s, k);
      } else {
        OtherTotals(s.mon.queues, info, now, k);
      }
    } else if info.Complete? && info.id == k {
      OwnersCount(Step(s, ReceiveReliable(now)), k);
    }
  }

  lemma OtherTotals(q: Queues, info: Info, now: int, k: nat)
    requires info.Failed? && info.id != k
    ensures var r := OnChunkFailed(q, info.id, info.start, info.end, info.error, now);
      Count(r.totals, k) == Count(q.totals, k) && (k in r.totals <==> k in q.totals)
  {
  }

  lemma HeadIsOwned(s: Sys, k: nat)
    requires s.chan != [] && s.chan[0].Failed? && s.chan[0].id == k
    ensures Owners(s, k) >= 1
  {
    SumZero(s.mon.pending, OwnMeasure(k).loose);
    SumNonneg(s.live, Is(k));
    SumAtLeast(s.chan, 0, CarriedBy(OwnMeasure(k)));
    OpenParts(s, Is(k), OwnMeasure(k));
  }

  lemma StepBudget(s: Sys, e: Event, k: nat, failures: nat)
    requires Enabled(s, e) && UniqueIds(s) && Polled(s) && Budget(s, k, failures)
    ensures Budget(Step(s, e), k, failures + if FailsNow(s, e, k) then 1 else 0)
  {
    hide Step, Owners, Held;
    if e.ReceiveReliable? {
      ReceiveBudget(s, e.now, k, failures);
    } else {
      OwnersStep(s, e, k);
      IdCountStep(s, e, k);
      QuietStep(s, e, k);
    }
  }

  lemma QuietStep(s: Sys, e: Event, k: nat)
    requires Enabled(s, e) && !e.ReceiveReliable?
    ensures Step(s, e).mon.queues.totals == s.mon.queues.totals
  {
    hide Handle, Restarted;
    match e
    case TickFires(now) => RestartKeepsFailures(s.mon, now);
    case StrayProgress(id, start, end, downloaded) =>
      HandleQueues(s.mon, Progress(id, start, end, downloaded), 0);
    case _ =>
  }

  ghost function FailureCount(s: Sys, es: seq<Event>, k: nat): nat
    requires Legal(s, es)
    decreases |es|
  {
    if es == [] then 0 else (if FailsNow(s, es[0], k) then 1 else 0) + FailureCount(Step(s, es[0]), es[1..], k)
  }

  ghost function CompletionCount(s: Sys, es: seq<Event>, k: nat): nat
    requires Legal(s, es)
    decreases |es|
  {
    if es == [] then 0 else (if CompletesNow(s, es[0], k) then 1 else 0) + CompletionCount(Step(s, es[0]), es[1..], k)
  }

  lemma {:induction false} RunBudget(s: Sys, es: seq<Event>, k: nat, failures: nat)
    requires Legal(s, es) && UniqueIds(s) && Polled(s) && Budget(s, k, failures)
    ensures Budget(After(s, es), k, failures + FailureCount(s, es, k))
    decreases |es|
  {
    hide Step;
    if es != [] {
      StepKeepsUnique(s, es[0]);
      StepKeepsPolled(s, es[0]);
      StepBudget(s, es[0], k, failures);
      RunBudget(Step(s, es[0]), es[1..], k, failures + if FailsNow(s, es[0], k) then 1 else 0);
    }
  }

  /** A worker that stops leaves one terminal message behind, so each start of an id shows up as a
      failure, a completion, or something still in flight. */
  lemma FlightStep(s: Sys, e: Event, k: nat)
    requires Enabled(s, e)
    ensures Flight(Step(s, e), k) == Flight(s, k) + Sum(Spawned(s, e), Is(k))
              - (if FailsNow(s, e, k) || CompletesNow(s, e, k) then 1 else 0)
  {
    hide Handle, Tick;
    match e
    case WorkerActs(_, _, _) =>
      IdCountStep(s, e, k);
      FlightAndHeld(s, k);
      FlightAndHeld(Step(s, e), k);
    case ReceiveReliable(now) => SumAppend(s.live, Spawned(s, e), Is(k));
    case TickFires(now) => SumAppend(s.live, Spawned(s, e), Is(k));
    case _ =>
  }

  lemma {:induction false} RunFlight(s: Sys, es: seq<Event>, k: nat)
    requires Legal(s, es)
    ensures Flight(After(s, es), k) + FailureCount(s, es, k) + CompletionCount(s, es, k)
         == Flight(s, k) + Sum(Started(s, es), Is(k))
    ensures IdCount(After(s, es), k) + CompletionCount(s, es, k)
         == IdCount(s, k) + Minted(Mints(k), s.mon.nextId, After(s, es).mon.nextId)
    ensures s.mon.nextId <= After(s, es).mon.nextId
    decreases |es|
  {
    hide Step;
    if es != [] {
      FlightStep(s, es[0], k);
      IdCountStep(s, es[0], k);
      RunFlight(Step(s, es[0]), es[1..], k);
      SumAppend(Spawned(s, es[0]), Started(Step(s, es[0]), es[1..]), Is(k));
      MintedJoins(Mints(k), s.mon.nextId, Step(s, es[0]).mon.nextId, After(s, es).mon.nextId);
    }
  }

  /** All workers of a run, from the launch on. */
  ghost function Attempts(p: Session, es: seq<Event>): seq<Worker>
    requires Legal(Begin(p), es)
  {
    Begin(p).live + Started(Begin(p), es)
  }

  /** Over every run no id is attempted more than MAX_TOTAL_ATTEMPTS + 1 times, and an id that was
      never handed out is not attempted at all. */
  lemma AttemptsPerId(p: Session, es: seq<Event>, k: nat)
    requires Proper(p) && Legal(Begin(p), es)
    ensures FailureCount(Begin(p), es, k) <= MAX_TOTAL_ATTEMPTS + 1
    ensures 0 <= Sum(Attempts(p, es), Is(k))
                 <= if k < After(Begin(p), es).mon.nextId then MAX_TOTAL_ATTEMPTS + 1 else 0
  {
    hide Begin, IdCount, Flight, Held, Owners, Proper, FailureCount, CompletionCount, Started;
    var s, t := Begin(p), After(Begin(p), es);
    BeginsUnique(p);
    BeginsPolled(p);
    BeginsWithBudget(p, k);
    RunBudget(s, es, k, 0);
    RunFlight(s, es, k);
    SumAppend(s.live, Started(s, es), Is(k));
    MintedOnce(k, s.mon.nextId, t.mon.nextId);
    FlightAndHeld(s, k);
    FlightAndHeld(t, k);
    SumNonneg(Attempts(p, es), Is(k));
  }

  lemma BeginsWithBudget(p: Session, k: nat)
    ensures Budget(Begin(p), k, 0) && Begin(p).chan == []
    ensures IdCount(Begin(p), k) == (if k < Begin(p).mon.nextId then 1 else 0)
    ensures Flight(Begin(p), k) == Sum(Begin(p).live, Is(k))
    ensures Held(Begin(p).mon.queues, IdMeasure(k).owned) == 0
  {
    BeginsEmpty(p);
    hide Begin;
    BeginMeasure(p, Is(k), IdMeasure(k), Mints(k));
    SumZero(p.ranges, IdMeasure(k).loose);
    MintedOnce(k, 0, Begin(p).mon.nextId);
    FlightAndHeld(Begin(p), k);
    OwnersCount(Begin(p), k);
  }

  lemma BeginsEmpty(p: Session)
    ensures Begin(p).mon.queues == EmptyQueues() && Begin(p).chan == [] && Begin(p).outcome == Running
  {
    var m := NewMon(p.size, p.completed, p.source);
    LaunchKeepsQueues(m, p.ranges, p.now);
    DrainKeeps(Launch(m, p.ranges, p.now).mon, p.now);
  }

  lemma {:induction false} CountById(ws: seq<Worker>, n: nat, cap: nat)
    requires forall k: nat :: Sum(ws, Is(k)) <= if k < n then cap else 0
    ensures |ws| <= n * cap
    decreases n
  {
    if n == 0 {
      if ws != [] {
        SumAtLeast(ws, 0, Is(ws[0].id));
      }
    } else {
      var rest := Without(ws, n - 1);
      forall k: nat ensures Sum(rest, Is(k)) == if k == n - 1 then 0 else Sum(ws, Is(k)) {
        WithoutCounts(ws, n - 1, k);
      }
      CountById(rest, n - 1, cap);
      WithoutCounts(ws, n - 1, n - 1);
      OneMore(n, cap);
    }
  }

  lemma OneMore(n: nat, cap: nat)
    requires n > 0
    ensures (n - 1) * cap + cap == n * cap
  {
  }

  ghost function Without(ws: seq<Worker>, k: nat): seq<Worker> {
    if ws == [] then [] else (if ws[0].id == k then [] else [ws[0]]) + Without(ws[1..], k)
  }

  lemma {:induction false} WithoutCounts(ws: seq<Worker>, n: nat, k: nat)
    ensures Sum(Without(ws, n), Is(k)) == if k == n then 0 else Sum(ws, Is(k))
    ensures |Without(ws, n)| == |ws| - Sum(ws, Is(n))
  {
    if ws != [] {
      WithoutCounts(ws[1..], n, k);
      if ws[0].id != n {
        SumAppend([ws[0]], Without(ws[1..], n), Is(k));
        SumOne(ws[0], Is(k));
      } else {
        assert Without(ws, n) == Without(ws[1..], n);
      }
    }
  }

  /** What a session may cost at most. */
  ghost function MaxAttempts(p: Session): int {
    (|p.ranges| + (p.size - p.completed) / MIN_CHUNK_SIZE) * (MAX_TOTAL_ATTEMPTS + 1)
  }

  lemma WithinBudget(p: Session, ids: nat, cuts: nat)
    requires ids <= |p.ranges| + cuts && cuts * MIN_CHUNK_SIZE <= p.size - p.completed
    ensures ids * (MAX_TOTAL_ATTEMPTS + 1) <= MaxAttempts(p)
  {
    assert cuts <= (p.size - p.completed) / MIN_CHUNK_SIZE;
  }

  lemma AttemptsWithinIds(p: Session, es: seq<Event>)
    requires Proper(p) && Legal(Begin(p), es)
    ensures |Attempts(p, es)| <= After(Begin(p), es).mon.nextId * (MAX_TOTAL_ATTEMPTS + 1)
  {
    hide Begin, Attempts, Proper;
    var n := After(Begin(p), es).mon.nextId;
    forall k: nat ensures Sum(Attempts(p, es), Is(k)) <= if k < n then MAX_TOTAL_ATTEMPTS + 1 else 0 {
      AttemptsPerId(p, es, k);
    }
    CountById(Attempts(p, es), n, MAX_TOTAL_ATTEMPTS + 1);
  }

  /** The explicit bound on a run's work: every run starts at most as many workers as there are initial
      ranges and possible cuts, times the attempts an id is allowed. */
  lemma RunIsBounded(p: Session, es: seq<Event>)
    requires Proper(p) && Legal(Begin(p), es)
    ensures |Attempts(p, es)| <= MaxAttempts(p)
  {
    hide Begin, Attempts, Proper, MaxAttempts, LooseCount;
    AttemptsWithinIds(p, es);
    CutsAndIds(p, es);
    WithinBudget(p, After(Begin(p), es).mon.nextId, CutCount(Begin(p), es));
  }
}
