/** Chunk ids and lane bindings over whole runs: an id is in one place at a time, and a lane's load
    is the number of chunks that are running on it or whose last message is still unread. */
module Bindings {
  import opened Ranges
  import opened Chunk
  import opened Ledger
  import opened Retry
  import opened Lanes
  import opened MonitorSpec
  import opened Protocol

  ghost function Is(k: nat): Worker -> int {
    (w: Worker) => if w.id == k then 1 else 0
  }

  ghost function IdMeasure(k: nat): Measure {
    Measure((id: nat, r: Range) => if id == k then 1 else 0,
            (id: nat) => if id == k then 1 else 0,
            (r: Range) => 0)
  }

  ghost function Mints(k: nat): nat -> int {
    (id: nat) => if id == k then 1 else 0
  }

  lemma {:induction false} MintedOnce(k: nat, from: nat, to: nat)
    ensures Minted(Mints(k), from, to) == if from <= k < to then 1 else 0
  {
    if from < to {
      MintedOnce(k, from, to - 1);
    }
  }

  ghost function IdCount(s: Sys, k: nat): int {
    Open(s, Is(k), IdMeasure(k))
  }

  ghost predicate UniqueIds(s: Sys) {
    forall k: nat :: IdCount(s, k) <= if k < s.mon.nextId then 1 else 0
  }

  lemma StepKeepsUnique(s: Sys, e: Event)
    requires Enabled(s, e) && UniqueIds(s)
    ensures UniqueIds(Step(s, e))
  {
    forall k: nat ensures IdCount(Step(s, e), k) <= if k < Step(s, e).mon.nextId then 1 else 0 {
      IdCountStep(s, e, k);
      MintedOnce(k, s.mon.nextId, Step(s, e).mon.nextId);
    }
  }

  lemma IdCountStep(s: Sys, e: Event, k: nat)
    requires Enabled(s, e)
    ensures var t := Step(s, e);
      && s.mon.nextId <= t.mon.nextId
      && IdCount(t, k) == IdCount(s, k) + Minted(Mints(k), s.mon.nextId, t.mon.nextId)
           - (if e.ReceiveReliable? && s.chan[0].Complete? && s.chan[0].id == k then 1 else 0)
  {
    if e.WorkerActs? {
      WorkerStepMeasure(s, e, Is(k), IdMeasure(k));
      ReactCarries(s.live[e.i], e.input, IdMeasure(k));
    } else {
      MonitorStepMeasure(s, e, Is(k), IdMeasure(k), Mints(k));
    }
  }

  lemma BeginsUnique(p: Session)
    ensures UniqueIds(Begin(p))
  {
    forall k: nat ensures IdCount(Begin(p), k) <= if k < Begin(p).mon.nextId then 1 else 0 {
      BeginMeasure(p, Is(k), IdMeasure(k), Mints(k));
      SumZero(p.ranges, IdMeasure(k).loose);
      MintedOnce(k, 0, Begin(p).mon.nextId);
    }
  }

  // ----- bindings, one monitor action at a time

  ghost predicate Sound(m: Mon) {
    match m.source
    case None => m.bindings == map[]
    case Some(s) => LoadsMatch(s, m.bindings) && WithinCaps(s)
  }

  ghost predicate SameConfig(a: Option<Schedule>, b: Option<Schedule>) {
    && a.Some? == b.Some?
    && (a.Some? ==> b.value == a.value.(lanes := b.value.lanes) && |a.value.lanes| == |b.value.lanes|)
  }

  /** The keys of the bindings after the workers in `spawned` were started. */
  ghost predicate KeysGrow(m: Mon, spawned: seq<Worker>, t: Mon) {
    && Sound(t) && SameConfig(m.source, t.source)
    && forall k: nat :: k in t.bindings <==> k in m.bindings || (m.source.Some? && Sum(spawned, Is(k)) >= 1)
  }

  lemma RequestSound(m: Mon, now: int)
    requires Sound(m)
    ensures var (asked, grant) := BuildRequest(m, now);
      && SameConfig(m.source, asked.source)
      && (grant.Refused? ==> Sound(asked))
      && (grant.Granted? ==> forall id: nat | id !in m.bindings ::
            Sound(Bind(asked, id, grant.lane)) && (grant.lane.Some? <==> m.source.Some?))
  {
    if m.source.Some? {
      var (t, lane) := Claim(m.source.value, now);
      forall id: nat | id !in m.bindings
        ensures WithinCaps(t) && LoadsMatch(t, if lane.Some? then m.bindings[id := lane.value] else m.bindings)
      {
        ClaimConserves(m.source.value, now, m.bindings, id);
      }
      DecayKeeps(m.source.value, now, m.bindings);
      DecayKeepsCaps(m.source.value, now);
    }
  }

  lemma StartSound(m: Mon, now: int, id: nat)
    requires Sound(m) && id !in m.bindings && BuildRequest(m, now).1.Granted?
    ensures var (asked, grant) := BuildRequest(m, now);
      && Sound(Bind(asked, id, grant.lane)) && SameConfig(m.source, asked.source)
      && (forall k: nat :: k in Bind(asked, id, grant.lane).bindings
                           <==> k in m.bindings || (m.source.Some? && k == id))
  {
    RequestSound(m, now);
  }

  lemma {:induction false} DrainSound(m: Mon, now: int)
    requires Sound(m) && forall k | k in m.bindings :: k < m.nextId
    ensures KeysGrow(m, DrainPending(m, now).spawned, DrainPending(m, now).mon)
    ensures forall k | k in DrainPending(m, now).mon.bindings :: k < DrainPending(m, now).mon.nextId
    decreases |m.pending|
  {
    hide BuildRequest, Sound;
    RequestSound(m, now);
    if m.pending != [] {
      var (asked, grant) := BuildRequest(m, now);
      if grant.Granted? {
        StartSound(m, now, m.nextId);
        var one := StartNew(asked.(pending := m.pending[1..]), grant.lane, m.pending[0]);
        SoundIgnores(Bind(asked, m.nextId, grant.lane), one.mon);
        DrainSound(one.mon, now);
        KeysGrowByOne(m, one.mon, Fresh(m.nextId, m.pending[0]), DrainPending(one.mon, now));
      }
    }
  }

  lemma SoundIgnores(m: Mon, t: Mon)
    requires Sound(m) && t.source == m.source && t.bindings == m.bindings
    ensures Sound(t)
  {
  }

  lemma NoNegativeIds(ws: seq<Worker>)
    ensures forall k: nat :: Sum(ws, Is(k)) >= 0
  {
    forall k: nat ensures Sum(ws, Is(k)) >= 0 {
      SumNonneg(ws, Is(k));
    }
  }

  /** Starting one worker and then the rest. */
  lemma KeysGrowByOne(m: Mon, next: Mon, w: Worker, rest: Effect)
    requires KeysGrow(next, rest.spawned, rest.mon) && SameConfig(m.source, next.source)
    requires forall k: nat :: k in next.bindings <==> k in m.bindings || (m.source.Some? && k == w.id)
    ensures KeysGrow(m, [w] + rest.spawned, rest.mon)
  {
    hide Sound;
    StartAdds(w, rest.spawned);
  }

  /** No id waits in the retry queue twice or while it is bound. */
  ghost predicate RetryFree(m: Mon) {
    forall k: nat :: Sum(m.queues.retry, OfTicket(IdMeasure(k).owned)) + (if k in m.bindings then 1 else 0) <= 1
  }

  lemma {:induction false} RetrySound(m: Mon, now: int, deferred: seq<Ticket>)
    requires Sound(m) && RetryFree(m)
    ensures KeysGrow(m, RetryRipe(m, now, deferred).spawned, RetryRipe(m, now, deferred).mon)
    decreases |m.queues.retry|
  {
    hide BuildRequest, Sound;
    RequestSound(m, now);
    var i := FirstRipe(m.queues.retry, now);
    if i == |m.queues.retry| {
      SoundIgnores(m, RetryRipe(m, now, deferred).mon);
    } else {
      var t := m.queues.retry[i];
      var (asked, grant) := BuildRequest(m, now);
      var popped := asked.(queues := m.queues.(retry := Remove(m.queues.retry, i)));
      PopFrees(m, i);
      if grant.Refused? {
        SoundIgnores(asked, popped);
        RetrySound(popped, now, deferred + [t]);
      } else {
        StartSound(m, now, t.id);
        var next := Bind(popped, t.id, grant.lane);
        SoundIgnores(Bind(asked, t.id, grant.lane), next);
        RetrySound(next, now, deferred);
        KeysGrowByOne(m, next, Fresh(t.id, Range(t.start, t.end)), RetryRipe(next, now, deferred));
      }
    }
  }

  /** Taking a ticket out of the queue frees its id for a binding, and only its id. */
  lemma PopFrees(m: Mon, i: nat)
    requires RetryFree(m) && i < |m.queues.retry|
    ensures m.queues.retry[i].id !in m.bindings
    ensures forall k: nat ::
      Sum(Remove(m.queues.retry, i), OfTicket(IdMeasure(k).owned))
      + (if k in m.bindings || k == m.queues.retry[i].id then 1 else 0) <= 1
  {
    forall k: nat
      ensures Sum(Remove(m.queues.retry, i), OfTicket(IdMeasure(k).owned))
           == Sum(m.queues.retry, OfTicket(IdMeasure(k).owned)) - (if k == m.queues.retry[i].id then 1 else 0)
    {
      SumRemove(m.queues.retry, i, OfTicket(IdMeasure(k).owned));
    }
    var id := m.queues.retry[i].id;
    SumAtLeast(m.queues.retry, i, OfTicket(IdMeasure(id).owned));
  }

  lemma StartAdds(w: Worker, rest: seq<Worker>)
    ensures forall k: nat :: Sum([w] + rest, Is(k)) >= 1 <==> k == w.id || Sum(rest, Is(k)) >= 1
  {
    NoNegativeIds(rest);
    forall k: nat ensures Sum([w] + rest, Is(k)) == Sum(rest, Is(k)) + if k == w.id then 1 else 0 {
      SumAppend([w], rest, Is(k));
      SumOne(w, Is(k));
    }
  }

  // ----- what the restart loops leave alone

  lemma {:induction false} DrainKeeps(m: Mon, now: int)
    ensures var t := DrainPending(m, now).mon;
      t == m.(source := t.source, bindings := t.bindings, pending := t.pending, nextId := t.nextId)
    decreases |m.pending|
  {
    hide BuildRequest;
    if m.pending != [] {
      var (asked, grant) := BuildRequest(m, now);
      if grant.Granted? {
        DrainKeeps(StartNew(asked.(pending := m.pending[1..]), grant.lane, m.pending[0]).mon, now);
      }
    }
  }

  lemma {:induction false} RetryKeeps(m: Mon, now: int, deferred: seq<Ticket>)
    ensures var t := RetryRipe(m, now, deferred).mon;
      t == m.(source := t.source, bindings := t.bindings, queues := m.queues.(retry := t.queues.retry))
    decreases |m.queues.retry|
  {
    hide BuildRequest;
    var i := FirstRipe(m.queues.retry, now);
    if i < |m.queues.retry| {
      var t := m.queues.retry[i];
      var (asked, grant) := BuildRequest(m, now);
      var popped := asked.(queues := m.queues.(retry := Remove(m.queues.retry, i)));
      if grant.Refused? {
        RetryKeeps(popped, now, deferred + [t]);
      } else {
        RetryKeeps(Bind(popped, t.id, grant.lane), now, deferred);
      }
    }
  }

  /** An id is waiting, bound, or neither, and not yet minted ids are neither. */
  ghost predicate IdsFree(m: Mon) {
    forall k: nat :: Held(m.queues, IdMeasure(k).owned) + (if k in m.bindings then 1 else 0)
                     <= if k < m.nextId then 1 else 0
  }

  lemma HeldParts(q: Queues, k: nat)
    ensures 0 <= Sum(q.retry, OfTicket(IdMeasure(k).owned)) <= Held(q, IdMeasure(k).owned)
  {
    SumNonneg(q.retry, OfTicket(IdMeasure(k).owned));
    SumNonneg(q.delayed, OfDelayed(IdMeasure(k).owned));
    SumNonneg(q.permanent, OfPermanent(IdMeasure(k).owned));
  }

  lemma DrainedIds(m: Mon, now: int, k: nat)
    ensures var e := DrainPending(m, now);
      Sum(e.spawned, Is(k)) == if m.nextId <= k < e.mon.nextId then 1 else 0
  {
    DrainConserves(m, now, Is(k), IdMeasure(k), Mints(k));
    DrainKeeps(m, now);
    MintedOnce(k, m.nextId, DrainPending(m, now).mon.nextId);
    SumZero(m.pending, IdMeasure(k).loose);
    SumZero(DrainPending(m, now).mon.pending, IdMeasure(k).loose);
  }

  lemma DrainFreesRetries(m: Mon, now: int)
    requires Sound(m) && IdsFree(m)
    ensures var d := DrainPending(m, now);
      && KeysGrow(m, d.spawned, d.mon)
      && RetryFree(d.mon.(queues := ProcessQueues(d.mon.queues, now)))
  {
    forall k: nat ensures 0 <= Sum(m.queues.retry, OfTicket(IdMeasure(k).owned)) <= Held(m.queues, IdMeasure(k).owned) {
      HeldParts(m.queues, k);
    }
    DrainSound(m, now);
    DrainKeeps(m, now);
    var d := DrainPending(m, now);
    var q := ProcessQueues(d.mon.queues, now);
    forall k: nat ensures Sum(q.retry, OfTicket(IdMeasure(k).owned)) + (if k in d.mon.bindings then 1 else 0) <= 1 {
      DrainedIds(m, now, k);
      ProcessConserves(m.queues, now, IdMeasure(k).owned);
      HeldParts(q, k);
    }
  }

  lemma RestartSound(m: Mon, now: int)
    requires Sound(m) && IdsFree(m)
    ensures KeysGrow(m, Restarted(m, now).spawned, Restarted(m, now).mon)
  {
    hide Sound;
    DrainFreesRetries(m, now);
    var d := DrainPending(m, now);
    var processed := d.mon.(queues := ProcessQueues(d.mon.queues, now));
    SoundIgnores(d.mon, processed);
    RetrySound(processed, now, []);
    var r := RetryRipe(processed, now, []);
    NoNegativeIds(d.spawned);
    NoNegativeIds(r.spawned);
    forall k: nat ensures Sum(d.spawned + r.spawned, Is(k)) == Sum(d.spawned, Is(k)) + Sum(r.spawned, Is(k)) {
      SumAppend(d.spawned, r.spawned, Is(k));
    }
  }

  // ----- bindings over whole runs

  /** Chunk k runs, or its terminal message is still in the channel. */
  ghost function Flight(s: Sys, k: nat): int {
    Sum(s.live, Is(k)) + Sum(s.chan, CarriedBy(IdMeasure(k)))
  }

  ghost predicate BindingsMatch(s: Sys, config: Option<Schedule>) {
    && Sound(s.mon) && SameConfig(config, s.mon.source)
    && (s.mon.source.Some? ==> forall k: nat :: k in s.mon.bindings <==> Flight(s, k) >= 1)
  }

  lemma FlightAndHeld(s: Sys, k: nat)
    ensures IdCount(s, k) == Held(s.mon.queues, IdMeasure(k).owned) + Flight(s, k)
    ensures Held(s.mon.queues, IdMeasure(k).owned) >= 0 && Flight(s, k) >= 0
  {
    SumZero(s.mon.pending, IdMeasure(k).loose);
    HeldParts(s.mon.queues, k);
    SumNonneg(s.live, Is(k));
    SumNonneg(s.chan, CarriedBy(IdMeasure(k)));
  }

  lemma MatchFrees(s: Sys, config: Option<Schedule>)
    requires UniqueIds(s) && BindingsMatch(s, config)
    ensures IdsFree(s.mon)
  {
    forall k: nat
      ensures Held(s.mon.queues, IdMeasure(k).owned) + (if k in s.mon.bindings then 1 else 0)
              <= if k < s.mon.nextId then 1 else 0
    {
      FlightAndHeld(s, k);
    }
  }

  lemma UnbindSound(m: Mon, id: nat, failed: bool, now: int)
    requires Sound(m) && (m.source.Some? ==> id in m.bindings)
    ensures Sound(Unbind(m, id, failed, now)) && SameConfig(m.source, Unbind(m, id, failed, now).source)
    ensures Unbind(m, id, failed, now).bindings == m.bindings - {id}
  {
    if m.source.Some? {
      ReleaseConserves(m.source.value, failed, now, m.bindings, id);
    }
  }

  predicate Ends(info: Info, k: nat) {
    (info.Complete? || info.Failed?) && info.id == k
  }

  lemma HandleSound(m: Mon, info: Info, now: int)
    requires Sound(m) && IdsFree(m)
    requires m.source.Some? && (info.Complete? || info.Failed?) ==> info.id in m.bindings
    ensures var h := Handle(m, info, now);
      && Sound(h.mon) && SameConfig(m.source, h.mon.source)
      && (info.Complete? || info.Failed? ==> h.spawned == [])
      && (m.source.Some? ==> forall k: nat :: k in h.mon.bindings <==>
            !Ends(info, k) && (k in m.bindings || Sum(h.spawned, Is(k)) >= 1))
  {
    hide BuildRequest, Sound, IdsFree;
    var noted := m.(books := Apply(m.books, info));
    var h := Handle(m, info, now);
    SoundIgnores(m, noted);
    match info
    case Complete(id) =>
      UnbindSound(noted, id, false, now);
      SoundIgnores(Unbind(noted, id, false, now), h.mon);
    case Failed(id, start, end, error) =>
      UnbindSound(noted, id, true, now);
      SoundIgnores(Unbind(noted, id, true, now), h.mon);
    case Progress(_, _, _, _) =>
    case Bisected(_, start, end) => BisectSound(m, info, now);
  }

  lemma BisectSound(m: Mon, info: Info, now: int)
    requires Sound(m) && IdsFree(m) && info.Bisected?
    ensures var h := Handle(m, info, now);
      && Sound(h.mon) && SameConfig(m.source, h.mon.source)
      && (m.source.Some? ==> forall k: nat :: k in h.mon.bindings <==> k in m.bindings || Sum(h.spawned, Is(k)) >= 1)
  {
    hide BuildRequest, Sound;
    var noted := m.(books := Apply(m.books, info));
    var h := Handle(m, info, now);
    SoundIgnores(m, noted);
    RequestSound(noted, now);
    var (asked, grant) := BuildRequest(noted, now);
    if grant.Granted? {
      HeldParts(m.queues, m.nextId);
      StartSound(noted, now, m.nextId);
      SoundIgnores(Bind(asked, m.nextId, grant.lane), h.mon);
      StartAdds(Fresh(m.nextId, Range(info.start, info.end)), []);
      assert h.spawned == h.spawned + [];
    } else {
      SoundIgnores(asked, h.mon);
    }
  }

  lemma ReceiveKeepsBindings(s: Sys, now: int, config: Option<Schedule>)
    requires Enabled(s, ReceiveReliable(now)) && UniqueIds(s) && BindingsMatch(s, config)
    ensures BindingsMatch(Step(s, ReceiveReliable(now)), config)
  {
    hide Handle, Sound, IdsFree;
    var info := s.chan[0];
    var h := Handle(s.mon, info, now);
    var t := Step(s, ReceiveReliable(now));
    MatchFrees(s, config);
    if info.Complete? || info.Failed? {
      HeadIsInFlight(s, info.id);
    }
    HandleSound(s.mon, info, now);
    NoNegativeIds(h.spawned);
    forall k: nat
      ensures Flight(t, k) == Flight(s, k) - (if Ends(info, k) then 1 else 0) + Sum(h.spawned, Is(k))
      ensures 0 <= Flight(s, k) <= if k < s.mon.nextId then 1 else 0
      ensures Ends(info, k) ==> Flight(t, k) == 0
    {
      FlightAndHeld(s, k);
      SumAppend(s.live, h.spawned, Is(k));
      if Ends(info, k) {
        HeadIsInFlight(s, k);
      }
    }
  }

  lemma HeadIsInFlight(s: Sys, id: nat)
    requires s.chan != [] && (s.chan[0].Complete? || s.chan[0].Failed?) && s.chan[0].id == id
    ensures Flight(s, id) >= 1
  {
    SumAtLeast(s.chan, 0, CarriedBy(IdMeasure(id)));
    SumNonneg(s.live, Is(id));
  }

  lemma TickKeepsBindings(s: Sys, now: int, config: Option<Schedule>)
    requires Enabled(s, TickFires(now)) && UniqueIds(s) && BindingsMatch(s, config)
    ensures BindingsMatch(Step(s, TickFires(now)), config)
  {
    hide Restarted, Sound, IdsFree, Stalled;
    var r := Restarted(s.mon, now);
    var t := Step(s, TickFires(now));
    MatchFrees(s, config);
    RestartSound(s.mon, now);
    StallAddsNoRange(r.mon, Tasks(s) == 0 && r.spawned == [], Plain(Length()));
    SoundIgnores(r.mon, t.mon);
    NoNegativeIds(r.spawned);
    forall k: nat ensures Flight(t, k) == Flight(s, k) + Sum(r.spawned, Is(k)) && Flight(s, k) >= 0 {
      FlightAndHeld(s, k);
      SumAppend(s.live, r.spawned, Is(k));
    }
  }

  lemma StepKeepsBindings(s: Sys, e: Event, config: Option<Schedule>)
    requires Enabled(s, e) && UniqueIds(s) && BindingsMatch(s, config)
    ensures BindingsMatch(Step(s, e), config)
  {
    hide Handle, Tick, Sound;
    var t := Step(s, e);
    match e
    case ReceiveReliable(now) => ReceiveKeepsBindings(s, now, config);
    case TickFires(now) => TickKeepsBindings(s, now, config);
    case WorkerActs(_, _, _) =>
      forall k: nat ensures Flight(t, k) == Flight(s, k) {
        IdCountStep(s, e, k);
        FlightAndHeld(s, k);
        FlightAndHeld(t, k);
      }
    case StrayProgress(_, _, _, _) => StrayKeepsBindings(s, e, config);
    case _ =>
  }

  lemma StrayKeepsBindings(s: Sys, e: Event, config: Option<Schedule>)
    requires Enabled(s, e) && e.StrayProgress? && BindingsMatch(s, config)
    ensures BindingsMatch(Step(s, e), config)
  {
    SoundIgnores(s.mon, Step(s, e).mon);
    assert forall k: nat :: Flight(Step(s, e), k) == Flight(s, k);
  }

  lemma {:induction false} LaunchSound(m: Mon, ranges: seq<Range>, now: int)
    requires Sound(m) && forall k | k in m.bindings :: k < m.nextId
    ensures KeysGrow(m, Launch(m, ranges, now).spawned, Launch(m, ranges, now).mon)
    ensures forall k | k in Launch(m, ranges, now).mon.bindings :: k < Launch(m, ranges, now).mon.nextId
    ensures Launch(m, ranges, now).mon.queues == m.queues
    decreases |ranges|
  {
    hide BuildRequest, Sound;
    if ranges != [] {
      RequestSound(m, now);
      var (asked, grant) := BuildRequest(m, now);
      if grant.Granted? {
        StartSound(m, now, m.nextId);
        var one := StartNew(asked, grant.lane, ranges[0]);
        SoundIgnores(Bind(asked, m.nextId, grant.lane), one.mon);
        LaunchSound(one.mon, ranges[1..], now);
        KeysGrowByOne(m, one.mon, Fresh(m.nextId, ranges[0]), Launch(one.mon, ranges[1..], now));
      } else {
        var held := asked.(pending := asked.pending + [ranges[0]]);
        SoundIgnores(asked, held);
        LaunchSound(held, ranges[1..], now);
      }
    }
  }

  lemma BeginsBound(p: Session)
    requires Proper(p)
    ensures BindingsMatch(Begin(p), p.source)
  {
    hide Sound;
    var m := NewMon(p.size, p.completed, p.source);
    assert Sound(m) by { FreshIsSound(p); }
    LaunchSound(m, p.ranges, p.now);
    var l := Launch(m, p.ranges, p.now);
    DrainSound(l.mon, p.now);
    var d := DrainPending(l.mon, p.now);
    NoNegativeIds(l.spawned);
    NoNegativeIds(d.spawned);
    forall k: nat ensures Flight(Begin(p), k) == Sum(l.spawned, Is(k)) + Sum(d.spawned, Is(k)) {
      SumAppend(l.spawned, d.spawned, Is(k));
    }
  }

  lemma FreshIsSound(p: Session)
    requires Proper(p)
    ensures Sound(NewMon(p.size, p.completed, p.source))
  {
  }

  /** Over every run: no id is in two places, every lane's load is the number of chunks in flight
      that are bound to it, and the worker, lane and source caps hold. */
  lemma {:induction false} AlwaysBound(s: Sys, es: seq<Event>, config: Option<Schedule>)
    requires Legal(s, es) && UniqueIds(s) && BindingsMatch(s, config)
    ensures UniqueIds(After(s, es)) && BindingsMatch(After(s, es), config)
    decreases |es|
  {
    if es != [] {
      StepKeepsUnique(s, es[0]);
      StepKeepsBindings(s, es[0], config);
      AlwaysBound(Step(s, es[0]), es[1..], config);
    }
  }

  lemma LaneLoads(p: Session, es: seq<Event>)
    requires Proper(p) && Legal(Begin(p), es)
    ensures var s := After(Begin(p), es);
      && (forall k: nat :: IdCount(s, k) <= 1)
      && BindingsMatch(s, p.source)
      && (s.mon.source.Some? ==>
            && WithinCaps(s.mon.source.value)
            && (forall i | 0 <= i < |s.mon.source.value.lanes| ::
                  s.mon.source.value.lanes[i].active == Bound(s.mon.bindings, s.mon.source.value.lanes[i].name))
            && (forall k: nat :: k in s.mon.bindings <==> Flight(s, k) == 1))
  {
    BeginsUnique(p);
    BeginsBound(p);
    AlwaysBound(Begin(p), es, p.source);
    var s := After(Begin(p), es);
    forall k: nat ensures 0 <= Flight(s, k) <= IdCount(s, k) {
      FlightAndHeld(s, k);
    }
  }
}
