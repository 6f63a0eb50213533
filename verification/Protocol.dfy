/** The whole running download: workers, their reliable FIFO to the monitor, the monitor's biased
    select loop, and the bytes handed to the writer. Network data, errors, commands, the clock and
    the fate of progress messages are chosen by the environment, event by event. */
module Protocol {
  import opened Ranges
  import opened Files
  import opened Chunk
  import opened Ledger
  import opened Retry
  import opened Lanes
  import opened MonitorSpec

  /** How far the current turn of the select loop has polled its branches, in their fixed order. */
  datatype Phase = AtTop | PolledReliable | PolledJoins

  datatype Outcome = Running | Finished | GaveUp

  datatype Sys = Sys(
    trusted: seq<Range>,     // verified by an earlier session
    mon: Mon,
    live: seq<Worker>,       // worker tasks still in their loop
    exited: nat,             // worker tasks that ended and are not joined yet
    chan: seq<Info>,         // the reliable channel
    handed: seq<Piece>,      // WriteFile commands sent so far
    phase: Phase,
    outcome: Outcome)

  datatype Event =
    | WorkerActs(i: nat, input: Input, arriving: seq<Info>)
    | ReceiveReliable(now: int)
    | ReliableEmpty
    | Join
    | NoJoin
    | StrayProgress(id: nat, start: nat, end: int, downloaded: nat)
    | TickFires(now: int)
    | TickSkipped

  /** What is left when progress messages, which may be lost or repeated, are ignored. */
  function Reliable(msgs: seq<Info>): seq<Info> {
    if msgs == [] then []
    else (if msgs[0].Progress? then [] else [msgs[0]]) + Reliable(msgs[1..])
  }

  ghost predicate Enabled(s: Sys, e: Event) {
    s.outcome == Running &&
    match e
    case WorkerActs(i, input, arriving) =>
      && i < |s.live| && Valid(s.live[i]) && input != Terminate
      && Reliable(arriving) == Reliable(React(s.live[i], input).sent)
    case ReceiveReliable(_) => s.phase == AtTop && s.chan != []
    case ReliableEmpty => s.phase == AtTop && s.chan == []
    case Join => s.phase == PolledReliable && s.exited > 0
    case NoJoin => s.phase == PolledReliable && s.exited == 0
    case StrayProgress(_, _, _, _) => s.phase == PolledJoins
    case TickFires(_) => s.phase == PolledJoins
    case TickSkipped => s.phase == PolledJoins
  }

  function Tasks(s: Sys): nat {
    |s.live| + s.exited
  }

  function Judge(m: Mon, done: bool): Outcome {
    if done then Finished else if m.queues.permanent != [] then GaveUp else Running
  }

  ghost function Step(s: Sys, e: Event): Sys
    requires Enabled(s, e)
  {
    match e
    case WorkerActs(i, input, arriving) =>
      var r := React(s.live[i], input);
      s.(live := if r.alive then s.live[i := r.worker] else Remove(s.live, i),
         exited := if r.alive then s.exited else s.exited + 1,
         chan := s.chan + arriving,
         handed := s.handed + r.writes)
    case ReceiveReliable(now) =>
      var h := Handle(s.mon, s.chan[0], now);
      s.(mon := h.mon, live := s.live + h.spawned, chan := s.chan[1..], outcome := Judge(h.mon, false))
    case ReliableEmpty => s.(phase := PolledReliable)
    case Join =>
      var left := s.(exited := s.exited - 1, phase := AtTop);
      left.(outcome := Judge(s.mon, Tasks(left) == 0 && AllTasksDone(s.mon) && IsFinished(s.mon.books)))
    case NoJoin => s.(phase := PolledJoins)
    case StrayProgress(id, start, end, downloaded) =>
      s.(mon := Handle(s.mon, Progress(id, start, end, downloaded), 0).mon, phase := AtTop)
    case TickFires(now) =>
      var (t, done) := Tick(s.mon, Tasks(s), now);
      s.(mon := t.mon, live := s.live + t.spawned, phase := AtTop, outcome := Judge(t.mon, done))
    case TickSkipped => s.(phase := AtTop)
  }

  ghost predicate Legal(s: Sys, es: seq<Event>)
    decreases |es|
  {
    es == [] || (Enabled(s, es[0]) && Legal(Step(s, es[0]), es[1..]))
  }

  ghost function After(s: Sys, es: seq<Event>): Sys
    requires Legal(s, es)
    decreases |es|
  {
    if es == [] then s else After(Step(s, es[0]), es[1..])
  }

  /** A run seen from its last event. */
  lemma {:induction false} LastStep(s: Sys, es: seq<Event>)
    requires es != [] && Legal(s, es)
    ensures var front, last := es[..|es| - 1], es[|es| - 1];
      Legal(s, front) && Enabled(After(s, front), last) && After(s, es) == Step(After(s, front), last)
    decreases |es|
  {
    hide Step, Enabled;
    var front := es[..|es| - 1];
    if |es| > 1 {
      LastStep(Step(s, es[0]), es[1..]);
      assert front[1..] == es[1..][..|es| - 2] && front[0] == es[0];
    } else {
      assert es[1..] == [];
    }
  }

  // ----- the start of a session

  /** Every initial range is started or, for want of lane capacity, buffered. */
  ghost function Launch(m: Mon, ranges: seq<Range>, now: int): Effect
    decreases |ranges|
  {
    if ranges == [] then Effect(m, [])
    else
      var (asked, grant) := BuildRequest(m, now);
      if grant.Refused? then Launch(asked.(pending := asked.pending + [ranges[0]]), ranges[1..], now)
      else
        var one := StartNew(asked, grant.lane, ranges[0]);
        var rest := Launch(one.mon, ranges[1..], now);
        Effect(rest.mon, one.spawned + rest.spawned)
  }

  function NewMon(size: nat, completed: nat, source: Option<Schedule>): Mon {
    Mon(Books(size, map[], Min(completed, size), {}), EmptyQueues(), source, map[], [], 0, 0)
  }

  /** What a session starts from: the resume plan, cut into initial ranges, and the sources. */
  datatype Session = Session(
    size: nat, completed: nat, trusted: seq<Range>, ranges: seq<Range>, source: Option<Schedule>, now: int)

  ghost predicate Proper(p: Session) {
    && (forall x: int :: Sum(p.trusted, Holds(x)) + Sum(p.ranges, Holds(x)) == if 0 <= x < p.size then 1 else 0)
    && (forall i | 0 <= i < |p.ranges| :: p.ranges[i].start <= p.ranges[i].end)
    && p.completed + Sum(p.ranges, Length()) == p.size
    && (p.source.Some? ==>
          && LoadsMatch(p.source.value, map[]) && WithinCaps(p.source.value)
          && p.source.value.maxWorkers > 0 && p.source.value.maxPerLane > 0 && p.source.value.lanes != [])
  }

  ghost function Begin(p: Session): Sys {
    var launched := Launch(NewMon(p.size, p.completed, p.source), p.ranges, p.now);
    var drained := DrainPending(launched.mon, p.now);
    Sys(p.trusted, drained.mon, launched.spawned + drained.spawned, 0, [], [], AtTop, Running)
  }

  // ----- measures over the whole system

  /** What is still open anywhere: with the monitor, with live workers, or in the channel. */
  ghost function Open(s: Sys, w: Worker -> int, g: Measure): int {
    Outstanding(s.mon, g) + Sum(s.live, w) + Sum(s.chan, CarriedBy(g))
  }

  lemma {:induction false} ReliableCarries(msgs: seq<Info>, g: Measure)
    ensures Sum(msgs, CarriedBy(g)) == Sum(Reliable(msgs), CarriedBy(g))
  {
    if msgs != [] {
      ReliableCarries(msgs[1..], g);
      if !msgs[0].Progress? {
        SumAppend([msgs[0]], Reliable(msgs[1..]), CarriedBy(g));
        SumOne(msgs[0], CarriedBy(g));
      } else {
        assert Reliable(msgs) == Reliable(msgs[1..]);
      }
    }
  }

  /** A worker's step replaces what it was worth by what it sends and what it still is. */
  lemma WorkerStepMeasure(s: Sys, e: Event, w: Worker -> int, g: Measure)
    requires Enabled(s, e) && e.WorkerActs?
    ensures var r := React(s.live[e.i], e.input);
      Open(Step(s, e), w, g) == Open(s, w, g) - w(s.live[e.i]) + (if r.alive then w(r.worker) else 0)
                                + Sum(r.sent, CarriedBy(g))
  {
    var r := React(s.live[e.i], e.input);
    SumAppend(s.chan, e.arriving, CarriedBy(g));
    ReliableCarries(e.arriving, g);
    ReliableCarries(r.sent, g);
    if r.alive {
      SumUpdate(s.live, e.i, r.worker, w);
    } else {
      SumRemove(s.live, e.i, w);
    }
  }

  /** Every other step leaves the measure as it was, but for a completion leaving the channel
      and for newly minted ids. */
  lemma MonitorStepMeasure(s: Sys, e: Event, w: Worker -> int, g: Measure, mint: nat -> int)
    requires Enabled(s, e) && !e.WorkerActs? && Compatible(w, g, mint)
    ensures var t := Step(s, e);
      && s.mon.nextId <= t.mon.nextId
      && Open(t, w, g) == Open(s, w, g) + Minted(mint, s.mon.nextId, t.mon.nextId)
                          - (if e.ReceiveReliable? && s.chan[0].Complete? then g.done(s.chan[0].id) else 0)
  {
    match e
    case ReceiveReliable(now) =>
      HandleConserves(s.mon, s.chan[0], now, w, g, mint);
      SumAppend(s.live, Handle(s.mon, s.chan[0], now).spawned, w);
    case StrayProgress(id, start, end, downloaded) =>
      HandleConserves(s.mon, Progress(id, start, end, downloaded), 0, w, g, mint);
    case TickFires(now) =>
      TickConserves(s.mon, Tasks(s), now, w, g, mint);
      SumAppend(s.live, Tick(s.mon, Tasks(s), now).0.spawned, w);
    case _ =>
  }

  lemma {:induction false} LaunchConserves(m: Mon, ranges: seq<Range>, now: int, w: Worker -> int,
                                           g: Measure, mint: nat -> int)
    requires Compatible(w, g, mint)
    ensures var e := Launch(m, ranges, now);
      && m.nextId <= e.mon.nextId
      && Outstanding(e.mon, g) + Sum(e.spawned, w)
         == Outstanding(m, g) + Sum(ranges, g.loose) + Minted(mint, m.nextId, e.mon.nextId)
    decreases |ranges|
  {
    hide BuildRequest, StartNew, Compatible, Minted;
    if ranges == [] {
      MintedNothing(mint, m.nextId);
    } else {
      var (asked, grant) := BuildRequest(m, now);
      if grant.Refused? {
        SumSnoc(asked.pending, ranges[0], g.loose);
        LaunchConserves(asked.(pending := asked.pending + [ranges[0]]), ranges[1..], now, w, g, mint);
      } else {
        var one := StartNew(asked, grant.lane, ranges[0]);
        var rest := Launch(one.mon, ranges[1..], now);
        StartConserves(asked, grant.lane, ranges[0], w, g, mint);
        LaunchConserves(one.mon, ranges[1..], now, w, g, mint);
        SumAppend(one.spawned, rest.spawned, w);
        MintedJoins(mint, m.nextId, m.nextId + 1, rest.mon.nextId);
      }
    }
  }

  lemma BeginMeasure(p: Session, w: Worker -> int, g: Measure, mint: nat -> int)
    requires Compatible(w, g, mint)
    ensures Open(Begin(p), w, g) == Sum(p.ranges, g.loose) + Minted(mint, 0, Begin(p).mon.nextId)
  {
    hide Compatible;
    var m := NewMon(p.size, p.completed, p.source);
    var launched := Launch(m, p.ranges, p.now);
    LaunchConserves(m, p.ranges, p.now, w, g, mint);
    DrainConserves(launched.mon, p.now, w, g, mint);
    SumAppend(launched.spawned, DrainPending(launched.mon, p.now).spawned, w);
    MintedJoins(mint, 0, launched.mon.nextId, DrainPending(launched.mon, p.now).mon.nextId);
  }
}
