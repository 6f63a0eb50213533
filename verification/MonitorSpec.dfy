/** What the download monitor does with one message and with one tick (src/monitor.rs), as
    functions on its state. Workers it spawns are returned. */
module MonitorSpec {
  import opened Ranges
  import opened Chunk
  import opened Ledger
  import opened Retry
  import opened Lanes

  const STALL_LIMIT: nat := 6

  /** `source == None` is a single-URL download, which never lacks capacity. */
  datatype Mon = Mon(
    books: Books, queues: Queues, source: Option<Schedule>, bindings: map<nat, Name>,
    pending: seq<Range>, stallTicks: nat, nextId: nat)

  datatype Grant = Refused | Granted(lane: Option<Name>)

  datatype Effect = Effect(mon: Mon, spawned: seq<Worker>)

  /** Asking for a lane touches the schedule and nothing else. */
  ghost function BuildRequest(m: Mon, now: int): (r: (Mon, Grant))
    ensures r.0 == m.(source := r.0.source)
    ensures m.source == None ==> r == (m, Granted(None))
  {
    match m.source
    case None => (m, Granted(None))
    case Some(s) =>
      var (t, lane) := Claim(s, now);
      (m.(source := Some(t)), if lane.Some? then Granted(lane) else Refused)
  }

  function Bind(m: Mon, id: nat, lane: Option<Name>): Mon {
    if lane.Some? then m.(bindings := m.bindings[id := lane.value]) else m
  }

  function Unbind(m: Mon, id: nat, failed: bool, now: int): Mon {
    m.(bindings := m.bindings - {id},
       source := if id in m.bindings && m.source.Some?
                 then Some(Release(m.source.value, m.bindings[id], failed, now)) else m.source)
  }

  function StartNew(m: Mon, lane: Option<Name>, r: Range): Effect {
    Effect(Bind(m, m.nextId, lane).(nextId := m.nextId + 1), [Fresh(m.nextId, r)])
  }

  ghost function Handle(m: Mon, info: Info, now: int): Effect {
    var noted := m.(books := Apply(m.books, info));
    match info
    case Progress(_, _, _, _) => Effect(noted, [])
    case Complete(id) => Effect(Unbind(noted, id, false, now).(queues := Forget(m.queues, id)), [])
    case Failed(id, start, end, error) =>
      Effect(Unbind(noted, id, true, now).(queues := OnChunkFailed(m.queues, id, start, end, error, now)), [])
    case Bisected(_, start, end) =>
      var (asked, grant) := BuildRequest(noted, now);
      if grant.Refused? then Effect(asked.(pending := asked.pending + [Range(start, end)]), [])
      else StartNew(asked, grant.lane, Range(start, end))
  }

  /** Buffered ranges are started in order until a lane is refused. */
  ghost function DrainPending(m: Mon, now: int): Effect
    decreases |m.pending|
  {
    if m.pending == [] then Effect(m, [])
    else
      var (asked, grant) := BuildRequest(m, now);
      if grant.Refused? then Effect(asked, [])
      else
        var one := StartNew(asked.(pending := m.pending[1..]), grant.lane, m.pending[0]);
        var rest := DrainPending(one.mon, now);
        Effect(rest.mon, one.spawned + rest.spawned)
  }

  function Requeued(tickets: seq<Ticket>, now: int): seq<Ticket> {
    seq(|tickets|, i requires 0 <= i < |tickets| => tickets[i].(readyAt := now))
  }

  /** Every ripe ticket is restarted under its own id, or set aside and queued again. */
  ghost function RetryRipe(m: Mon, now: int, deferred: seq<Ticket>): Effect
    decreases |m.queues.retry|
  {
    var i := FirstRipe(m.queues.retry, now);
    if i == |m.queues.retry| then
      Effect(m.(queues := m.queues.(retry := m.queues.retry + Requeued(deferred, now))), [])
    else
      var t := m.queues.retry[i];
      var (asked, grant) := BuildRequest(m, now);
      var popped := asked.(queues := m.queues.(retry := Remove(m.queues.retry, i)));
      if grant.Refused? then RetryRipe(popped, now, deferred + [t])
      else
        var rest := RetryRipe(Bind(popped, t.id, grant.lane), now, deferred);
        Effect(rest.mon, [Fresh(t.id, Range(t.start, t.end))] + rest.spawned)
  }

  predicate QueuesEmpty(m: Mon) {
    m.queues.retry == [] && m.queues.delayed == []
  }

  /** Tasks, chunks, queues and buffer are all empty although bytes are missing. */
  predicate DeadEnd(m: Mon, idle: bool) {
    idle && m.books.chunks == map[] && QueuesEmpty(m) && m.pending == []
  }

  ghost function Stalled(m: Mon, idle: bool): Mon {
    if !DeadEnd(m, idle) then m.(stallTicks := 0)
    else
      var ticks := m.stallTicks + 1;
      m.(stallTicks := ticks,
         queues := if ticks >= STALL_LIMIT && m.queues.permanent == []
                   then m.queues.(permanent := [Stall(TotalDownloaded(m.books), m.books.total)])
                   else m.queues)
  }

  ghost function Restarted(m: Mon, now: int): Effect {
    var drained := DrainPending(m, now);
    var retried := RetryRipe(drained.mon.(queues := ProcessQueues(drained.mon.queues, now)), now, []);
    Effect(retried.mon, drained.spawned + retried.spawned)
  }

  /** The tick: start what can be started, then decide whether the download is finished.
      `tasks` counts the worker tasks that have not been joined. */
  ghost function Tick(m: Mon, tasks: nat, now: int): (Effect, bool) {
    var e := Restarted(m, now);
    var idle := tasks == 0 && e.spawned == [];
    if idle && QueuesEmpty(e.mon) && TotalDownloaded(e.mon.books) >= e.mon.books.total then
      (e, true)
    else
      (Effect(Stalled(e.mon, idle), e.spawned), idle && AllTasksDone(e.mon) && IsFinished(e.mon.books))
  }

  predicate AllTasksDone(m: Mon) {
    m.pending == [] && m.books.chunks == map[] && QueuesEmpty(m)
  }

  // ----- the monitor only moves ranges around

  /** Starting a range, retried or new, is worth what the range was worth; a new id adds `mint`. */
  ghost predicate Compatible(w: Worker -> int, g: Measure, mint: nat -> int) {
    && (forall id: nat, r: Range :: w(Fresh(id, r)) == g.owned(id, r))
    && (forall id: nat, r: Range :: g.owned(id, r) == g.loose(r) + mint(id))
  }

  ghost function Outstanding(m: Mon, g: Measure): int {
    Held(m.queues, g.owned) + Sum(m.pending, g.loose)
  }

  /** What minting the ids from, ..., to - 1 adds. */
  ghost function Minted(mint: nat -> int, from: nat, to: nat): int {
    if to <= from then 0 else Minted(mint, from, to - 1) + mint(to - 1)
  }

  lemma {:induction false} MintedJoins(mint: nat -> int, a: nat, b: nat, c: nat)
    requires a <= b <= c
    ensures Minted(mint, a, c) == Minted(mint, a, b) + Minted(mint, b, c)
  {
    if b < c {
      MintedJoins(mint, a, b, c - 1);
    }
  }

  lemma HandleConserves(m: Mon, info: Info, now: int, w: Worker -> int, g: Measure, mint: nat -> int)
    requires Compatible(w, g, mint)
    ensures var e := Handle(m, info, now);
      && m.nextId <= e.mon.nextId
      && Outstanding(e.mon, g) + Sum(e.spawned, w) + (if info.Complete? then g.done(info.id) else 0)
         == Outstanding(m, g) + CarriedBy(g)(info) + Minted(mint, m.nextId, e.mon.nextId)
  {
    hide BuildRequest, StartNew, OnChunkFailed, Release, Apply;
    if info.Failed? {
      FailureFiledOnce(m.queues, info.id, info.start, info.end, info.error, now, g.owned);
    } else if info.Bisected? {
      BisectConserves(m, info, now, w, g, mint);
    }
  }

  lemma BisectConserves(m: Mon, info: Info, now: int, w: Worker -> int, g: Measure, mint: nat -> int)
    requires Compatible(w, g, mint) && info.Bisected?
    ensures var e := Handle(m, info, now);
      && m.nextId <= e.mon.nextId
      && Outstanding(e.mon, g) + Sum(e.spawned, w)
         == Outstanding(m, g) + CarriedBy(g)(info) + Minted(mint, m.nextId, e.mon.nextId)
  {
    hide BuildRequest, StartNew, Apply, Compatible;
    var r := Range(info.start, info.end);
    var noted := m.(books := Apply(m.books, info));
    var (asked, grant) := BuildRequest(noted, now);
    if grant.Refused? {
      SumSnoc(m.pending, r, g.loose);
    } else {
      StartConserves(asked, grant.lane, r, w, g, mint);
    }
  }

  /** Starting a loose range under a new id. */
  lemma StartConserves(m: Mon, lane: Option<Name>, r: Range, w: Worker -> int, g: Measure, mint: nat -> int)
    requires Compatible(w, g, mint)
    ensures var one := StartNew(m, lane, r);
      && one.mon.nextId == m.nextId + 1 && one.mon.pending == m.pending
      && Outstanding(one.mon, g) == Outstanding(m, g)
      && Sum(one.spawned, w) == g.loose(r) + Minted(mint, m.nextId, m.nextId + 1)
  {
    SumOne(Fresh(m.nextId, r), w);
  }

  lemma MintedNothing(mint: nat -> int, from: nat)
    ensures Minted(mint, from, from) == 0
  {
  }

  lemma PendingSplits(m: Mon, g: Measure)
    requires m.pending != []
    ensures Sum(m.pending, g.loose) == g.loose(m.pending[0]) + Sum(m.pending[1..], g.loose)
  {
  }

  lemma {:induction false} DrainConserves(m: Mon, now: int, w: Worker -> int, g: Measure, mint: nat -> int)
    requires Compatible(w, g, mint)
    ensures var e := DrainPending(m, now);
      && m.nextId <= e.mon.nextId
      && Outstanding(e.mon, g) + Sum(e.spawned, w)
         == Outstanding(m, g) + Minted(mint, m.nextId, e.mon.nextId)
    decreases |m.pending|
  {
    hide BuildRequest, StartNew, Compatible, Sum, Minted;
    if m.pending == [] {
      MintedNothing(mint, m.nextId);
      assert Sum([], w) == 0 by { SumZero([], w); }
    } else {
      var (asked, grant) := BuildRequest(m, now);
      if grant.Refused? {
        MintedNothing(mint, m.nextId);
        assert Sum([], w) == 0 by { SumZero([], w); }
      } else {
        var one := StartNew(asked.(pending := m.pending[1..]), grant.lane, m.pending[0]);
        PendingSplits(m, g);
        StartConserves(asked.(pending := m.pending[1..]), grant.lane, m.pending[0], w, g, mint);
        DrainConserves(one.mon, now, w, g, mint);
        StartsJoin(one, DrainPending(one.mon, now), m.nextId, w, mint);
      }
    }
  }

  /** What one start and the starts after it are worth and mint together. */
  lemma StartsJoin(one: Effect, rest: Effect, from: nat, w: Worker -> int, mint: nat -> int)
    requires from <= one.mon.nextId <= rest.mon.nextId
    ensures Sum(one.spawned + rest.spawned, w) == Sum(one.spawned, w) + Sum(rest.spawned, w)
    ensures Minted(mint, from, rest.mon.nextId)
         == Minted(mint, from, one.mon.nextId) + Minted(mint, one.mon.nextId, rest.mon.nextId)
  {
    SumAppend(one.spawned, rest.spawned, w);
    MintedJoins(mint, from, one.mon.nextId, rest.mon.nextId);
  }

  lemma {:induction false} RetryConserves(m: Mon, now: int, deferred: seq<Ticket>, w: Worker -> int,
                                          g: Measure, mint: nat -> int)
    requires Compatible(w, g, mint)
    ensures var e := RetryRipe(m, now, deferred);
      && m.nextId == e.mon.nextId
      && Outstanding(e.mon, g) + Sum(e.spawned, w) == Outstanding(m, g) + Sum(deferred, OfTicket(g.owned))
    decreases |m.queues.retry|
  {
    var i := FirstRipe(m.queues.retry, now);
    if i == |m.queues.retry| {
      SumAppend(m.queues.retry, Requeued(deferred, now), OfTicket(g.owned));
      RequeuedSum(deferred, now, g.owned);
    } else {
      var t := m.queues.retry[i];
      var (asked, grant) := BuildRequest(m, now);
      var popped := asked.(queues := m.queues.(retry := Remove(m.queues.retry, i)));
      SumRemove(m.queues.retry, i, OfTicket(g.owned));
      if grant.Refused? {
        RetryConserves(popped, now, deferred + [t], w, g, mint);
        SumSnoc(deferred, t, OfTicket(g.owned));
      } else {
        var next := Bind(popped, t.id, grant.lane);
        RetryConserves(next, now, deferred, w, g, mint);
        var f := Fresh(t.id, Range(t.start, t.end));
        SumAppend([f], RetryRipe(next, now, deferred).spawned, w);
        SumOne(f, w);
      }
    }
  }

  lemma {:induction false} RequeuedSum(ts: seq<Ticket>, now: int, g: (nat, Range) -> int)
    ensures Sum(Requeued(ts, now), OfTicket(g)) == Sum(ts, OfTicket(g))
  {
    if ts != [] {
      RequeuedSum(ts[1..], now, g);
      assert Requeued(ts, now)[1..] == Requeued(ts[1..], now);
    }
  }

  lemma RestartConserves(m: Mon, now: int, w: Worker -> int, g: Measure, mint: nat -> int)
    requires Compatible(w, g, mint)
    ensures var e := Restarted(m, now);
      && m.nextId <= e.mon.nextId
      && Outstanding(e.mon, g) + Sum(e.spawned, w)
         == Outstanding(m, g) + Minted(mint, m.nextId, e.mon.nextId)
  {
    var drained := DrainPending(m, now);
    DrainConserves(m, now, w, g, mint);
    ProcessConserves(drained.mon.queues, now, g.owned);
    var processed := drained.mon.(queues := ProcessQueues(drained.mon.queues, now));
    RetryConserves(processed, now, [], w, g, mint);
    SumAppend(drained.spawned, RetryRipe(processed, now, []).spawned, w);
  }

  lemma StallAddsNoRange(m: Mon, idle: bool, g: Measure)
    ensures var t := Stalled(m, idle);
      && Outstanding(t, g) == Outstanding(m, g)
      && t == m.(stallTicks := t.stallTicks, queues := m.queues.(permanent := t.queues.permanent))
  {
    SumOne(Stall(TotalDownloaded(m.books), m.books.total), OfPermanent(g.owned));
  }

  /** A tick conserves every measure; the stall escape adds no range. */
  lemma TickConserves(m: Mon, tasks: nat, now: int, w: Worker -> int, g: Measure, mint: nat -> int)
    requires Compatible(w, g, mint)
    ensures var e := Tick(m, tasks, now).0;
      && m.nextId <= e.mon.nextId
      && Outstanding(e.mon, g) + Sum(e.spawned, w)
         == Outstanding(m, g) + Minted(mint, m.nextId, e.mon.nextId)
  {
    RestartConserves(m, now, w, g, mint);
    var e := Restarted(m, now);
    StallAddsNoRange(e.mon, tasks == 0 && e.spawned == [], g);
  }
}
