/** What the monitor starts: a range waits only while no lane has capacity, and what waits is started in
    its order. */
module Starts {
  import opened Ranges
  import opened Chunk
  import opened Retry
  import opened Lanes
  import opened MonitorSpec
  import opened Protocol

  /** There are sources, and none of their lanes has capacity. */
  ghost predicate Full(source: Option<Schedule>) {
    source.Some? && forall k | 0 <= k < |source.value.lanes| :: !HasCapacity(source.value, source.value.lanes[k])
  }

  /** A request is refused exactly when no lane has capacity, and then none has after it either. */
  lemma RefusedIffFull(m: Mon, now: int)
    ensures var (asked, grant) := BuildRequest(m, now);
      && (grant.Refused? <==> Full(m.source))
      && (grant.Refused? ==> Full(asked.source))
      && (grant.Granted? ==> (grant.lane.Some? <==> m.source.Some?))
  {
    if m.source.Some? {
      hide HasCapacity;
      var s := m.source.value;
      forall k | 0 <= k < |s.lanes|
        ensures HasCapacity(Decay(s, now), Decay(s, now).lanes[k]) <==> HasCapacity(s, s.lanes[k])
      {
        DecayKeepsCapacity(s, now, k);
      }
      NoneIffFull(Decay(s, now));
    }
  }

  lemma NoneIffFull(d: Schedule)
    ensures BestLane(d) == |d.lanes| <==> forall k | 0 <= k < |d.lanes| :: !HasCapacity(d, d.lanes[k])
  {
    hide HasCapacity;
    var any := SelectFrom(d, 0, true);
  }

  /** A range given away by a bisect is buffered exactly if no lane has capacity, and started under the
      next id otherwise. */
  lemma BisectStarts(m: Mon, info: Info, now: int)
    requires info.Bisected?
    ensures var e, half := Handle(m, info, now), Range(info.start, info.end);
      if Full(m.source) then e.spawned == [] && e.mon.pending == m.pending + [half] && e.mon.nextId == m.nextId
      else e.spawned == [Fresh(m.nextId, half)] && e.mon.pending == m.pending && e.mon.nextId == m.nextId + 1
  {
    hide BuildRequest, Full;
    RefusedIffFull(m.(books := Handle(m, info, now).mon.books), now);
    HandleAsks(m, info, now);
  }

  lemma HandleAsks(m: Mon, info: Info, now: int)
    requires info.Bisected?
    ensures var (asked, grant) := BuildRequest(m.(books := Handle(m, info, now).mon.books), now);
      var e, half := Handle(m, info, now), Range(info.start, info.end);
      if grant.Refused? then e == Effect(asked.(pending := m.pending + [half]), [])
      else e == StartNew(asked, grant.lane, half)
  {
    hide BuildRequest;
  }

  /** The workers for these ranges, with consecutive new ids. */
  function Fresher(id: nat, rs: seq<Range>): seq<Worker> {
    seq(|rs|, k requires 0 <= k < |rs| => Fresh(id + k, rs[k]))
  }

  lemma FresherCons(id: nat, rs: seq<Range>, n: nat)
    requires 0 < n <= |rs|
    ensures Fresher(id, rs[..n]) == [Fresh(id, rs[0])] + Fresher(id + 1, rs[1..][..n - 1])
    ensures rs[n..] == rs[1..][n - 1..]
  {
  }

  /** The buffer is started from its front, under new ids; a range stays in it only if no lane has capacity
      any more. */
  lemma {:induction false} DrainExact(m: Mon, now: int)
    ensures var e := DrainPending(m, now);
      var n := |e.spawned|;
      && n <= |m.pending| && e.mon.pending == m.pending[n..] && e.mon.nextId == m.nextId + n
      && e.spawned == Fresher(m.nextId, m.pending[..n])
      && (n < |m.pending| || Full(m.source) ==> Full(e.mon.source))
      && (Full(m.source) ==> n == 0)
    decreases |m.pending|
  {
    hide BuildRequest, Full;
    if m.pending != [] {
      RefusedIffFull(m, now);
      var (asked, grant) := BuildRequest(m, now);
      if grant.Granted? {
        var one := StartNew(asked.(pending := m.pending[1..]), grant.lane, m.pending[0]);
        DrainExact(one.mon, now);
        FresherCons(m.nextId, m.pending, 1 + |DrainPending(one.mon, now).spawned|);
      }
    }
  }

  function Ripe(ts: seq<Ticket>, now: int): seq<Ticket> {
    if ts == [] then [] else (if ts[0].readyAt <= now then [ts[0]] else []) + Ripe(ts[1..], now)
  }

  function Unripe(ts: seq<Ticket>, now: int): seq<Ticket> {
    if ts == [] then [] else (if ts[0].readyAt <= now then [] else [ts[0]]) + Unripe(ts[1..], now)
  }

  lemma {:induction false} FirstIsRipe(ts: seq<Ticket>, now: int)
    ensures var i := FirstRipe(ts, now);
      if i == |ts| then Ripe(ts, now) == [] && Unripe(ts, now) == ts
      else Ripe(ts, now) == [ts[i]] + Ripe(Remove(ts, i), now) && Unripe(ts, now) == Unripe(Remove(ts, i), now)
  {
    hide Ripe, Unripe, Remove;
    if ts == [] {
      ConsRipe(ts, now);
    } else {
      var head, tail := [ts[0]], ts[1..];
      var i := FirstRipe(tail, now);
      assert head + tail == ts;
      ConsRipe(ts, now);
      if ts[0].readyAt <= now {
        assert Remove(ts, 0) == tail by { HeadRemoved(ts); }
      } else {
        FirstIsRipe(tail, now);
        if i < |tail| {
          RemovalBehind(head, tail, i);
          ConsRipe(head + Remove(tail, i), now);
          assert (head + Remove(tail, i))[1..] == Remove(tail, i);
        }
      }
    }
  }

  lemma HeadRemoved<T>(ts: seq<T>)
    requires ts != []
    ensures Remove(ts, 0) == ts[1..]
  {
  }

  lemma ConsRipe(ts: seq<Ticket>, now: int)
    ensures ts == [] ==> Ripe(ts, now) == [] && Unripe(ts, now) == []
    ensures ts != [] && ts[0].readyAt <= now ==>
      Ripe(ts, now) == [ts[0]] + Ripe(ts[1..], now) && Unripe(ts, now) == Unripe(ts[1..], now)
    ensures ts != [] && ts[0].readyAt > now ==>
      Ripe(ts, now) == Ripe(ts[1..], now) && Unripe(ts, now) == [ts[0]] + Unripe(ts[1..], now)
  {
  }

  lemma {:induction false} RipeIff(ts: seq<Ticket>, now: int)
    ensures forall t :: t in Ripe(ts, now) <==> t in ts && t.readyAt <= now
    ensures forall t :: t in Unripe(ts, now) <==> t in ts && t.readyAt > now
  {
    if ts != [] {
      RipeIff(ts[1..], now);
      assert forall t :: t in ts <==> t == ts[0] || t in ts[1..];
    }
  }

  /** The workers that go on with these tickets, each under the ticket's id. */
  function Restarts(ts: seq<Ticket>): seq<Worker> {
    seq(|ts|, k requires 0 <= k < |ts| => Fresh(ts[k].id, Range(ts[k].start, ts[k].end)))
  }

  /** The pop-or-defer loop comes to this: the ripe tickets are restarted in their order, as many as get a
      lane; the others are queued again behind the unripe ones, and only if no lane has capacity. */
  lemma {:induction false} RetryExact(m: Mon, now: int, deferred: seq<Ticket>)
    requires deferred != [] ==> Full(m.source)
    ensures var e, ripe := RetryRipe(m, now, deferred), Ripe(m.queues.retry, now);
      var n := |e.spawned|;
      && n <= |ripe| && e.spawned == Restarts(ripe[..n])
      && e.mon.queues.retry == Unripe(m.queues.retry, now) + Requeued(deferred + ripe[n..], now)
      && (n < |ripe| || Full(m.source) ==> Full(e.mon.source))
      && (Full(m.source) ==> n == 0)
    decreases |m.queues.retry|
  {
    hide BuildRequest, Full, Ripe, Unripe, Remove;
    var q := m.queues.retry;
    FirstIsRipe(q, now);
    var i := FirstRipe(q, now);
    if i == |q| {
      assert deferred + [] == deferred;
    } else {
      var t := q[i];
      var rest := Ripe(Remove(q, i), now);
      RefusedIffFull(m, now);
      var (asked, grant) := BuildRequest(m, now);
      var popped := asked.(queues := m.queues.(retry := Remove(q, i)));
      if grant.Refused? {
        RetryExact(popped, now, deferred + [t]);
        assert deferred + [t] + rest == deferred + ([t] + rest);
      } else {
        var next := Bind(popped, t.id, grant.lane);
        RetryExact(next, now, deferred);
        RestartsCons(t, rest, |RetryRipe(next, now, deferred).spawned|);
      }
    }
  }

  lemma RestartsCons(t: Ticket, rest: seq<Ticket>, n: nat)
    requires n <= |rest|
    ensures Restarts(([t] + rest)[..n + 1]) == [Fresh(t.id, Range(t.start, t.end))] + Restarts(rest[..n])
    ensures ([t] + rest)[n + 1..] == rest[n..]
  {
  }

  /** A session starts its initial ranges from the first on, as many as get a lane, and buffers the rest. */
  lemma {:induction false} LaunchExact(m: Mon, ranges: seq<Range>, now: int)
    ensures var e := Launch(m, ranges, now);
      var n := |e.spawned|;
      && n <= |ranges| && e.mon.pending == m.pending + ranges[n..] && e.mon.nextId == m.nextId + n
      && e.spawned == Fresher(m.nextId, ranges[..n])
      && (n < |ranges| || Full(m.source) ==> Full(e.mon.source))
      && (Full(m.source) ==> n == 0)
    decreases |ranges|
  {
    hide BuildRequest, Full;
    if ranges == [] {
      assert m.pending + [] == m.pending;
    } else {
      RefusedIffFull(m, now);
      var (asked, grant) := BuildRequest(m, now);
      if grant.Refused? {
        LaunchExact(asked.(pending := m.pending + [ranges[0]]), ranges[1..], now);
        assert m.pending + [ranges[0]] + ranges[1..] == m.pending + ranges;
      } else {
        var one := StartNew(asked, grant.lane, ranges[0]);
        LaunchExact(one.mon, ranges[1..], now);
        FresherCons(m.nextId, ranges, 1 + |Launch(one.mon, ranges[1..], now).spawned|);
      }
    }
  }

  /** So a session begins with a worker for each of its first ranges, numbered from 0, and buffers a range
      only if no lane has capacity. */
  lemma BeginExact(p: Session)
    ensures var s := Begin(p);
      var n := |s.live|;
      && n <= |p.ranges| && s.live == Fresher(0, p.ranges[..n]) && s.mon.pending == p.ranges[n..]
      && (n < |p.ranges| ==> Full(s.mon.source))
  {
    hide Full;
    var m := NewMon(p.size, p.completed, p.source);
    LaunchExact(m, p.ranges, p.now);
    var launched := Launch(m, p.ranges, p.now);
    DrainExact(launched.mon, p.now);
    var drained := DrainPending(launched.mon, p.now);
    assert [] + p.ranges[|launched.spawned|..] == p.ranges[|launched.spawned|..];
    if |launched.spawned| < |p.ranges| {
      assert launched.spawned + [] == launched.spawned;
    }
  }

  /** The first n buffered ranges are started under new ids, and the first k ripe tickets under their own,
      buffered ranges first; something is left over only if no lane has capacity. */
  ghost predicate StartsFirst(m: Mon, now: int, e: Effect, n: nat, k: nat) {
    var q := ProcessQueues(m.queues, now).retry;
    var ripe := Ripe(q, now);
    && n <= |m.pending| && k <= |ripe|
    && e.spawned == Fresher(m.nextId, m.pending[..n]) + Restarts(ripe[..k])
    && e.mon.pending == m.pending[n..] && e.mon.nextId == m.nextId + n
    && e.mon.queues.retry == Unripe(q, now) + Requeued(ripe[k..], now)
    && (n < |m.pending| ==> k == 0)
    && (n < |m.pending| || k < |ripe| ==> Full(e.mon.source))
  }

  /** What a tick starts and what it leaves. */
  lemma RestartExact(m: Mon, now: int)
    ensures exists n: nat, k: nat :: StartsFirst(m, now, Restarted(m, now), n, k)
  {
    hide Full, Ripe, Unripe, ProcessQueues, RetryRipe, DrainPending, Restarts, Fresher, Requeued;
    var drained := DrainPending(m, now);
    DrainExact(m, now);
    DrainedQueues(m, now);
    var processed := drained.mon.(queues := ProcessQueues(drained.mon.queues, now));
    RetryExact(processed, now, []);
    var retried := RetryRipe(processed, now, []);
    RetriedPending(processed, now, []);
    var ripe, k := Ripe(ProcessQueues(m.queues, now).retry, now), |retried.spawned|;
    assert [] + ripe[k..] == ripe[k..];
    assert StartsFirst(m, now, Restarted(m, now), |drained.spawned|, k);
  }

  lemma {:induction false} DrainedQueues(m: Mon, now: int)
    ensures DrainPending(m, now).mon.queues == m.queues
    decreases |m.pending|
  {
    hide BuildRequest;
    if m.pending != [] {
      var (asked, grant) := BuildRequest(m, now);
      if grant.Granted? {
        DrainedQueues(StartNew(asked.(pending := m.pending[1..]), grant.lane, m.pending[0]).mon, now);
      }
    }
  }

  lemma {:induction false} RetriedPending(m: Mon, now: int, deferred: seq<Ticket>)
    ensures RetryRipe(m, now, deferred).mon.pending == m.pending
    ensures RetryRipe(m, now, deferred).mon.nextId == m.nextId
    decreases |m.queues.retry|
  {
    hide BuildRequest;
    var i := FirstRipe(m.queues.retry, now);
    if i < |m.queues.retry| {
      var t := m.queues.retry[i];
      var (asked, grant) := BuildRequest(m, now);
      var popped := asked.(queues := m.queues.(retry := Remove(m.queues.retry, i)));
      if grant.Refused? {
        RetriedPending(popped, now, deferred + [t]);
      } else {
        RetriedPending(Bind(popped, t.id, grant.lane), now, deferred);
      }
    }
  }

  /** In any state: after a tick, a buffered range or a ripe ticket is left only if no lane has capacity. */
  lemma TickLeavesOnlyBlocked(s: Sys, now: int)
    requires Protocol.Enabled(s, TickFires(now))
    ensures var m := Step(s, TickFires(now)).mon;
      m.pending != [] || (exists k :: 0 <= k < |m.queues.retry| && m.queues.retry[k].readyAt <= now)
      ==> Full(m.source)
  {
    hide Full, Restarted, StartsFirst;
    RestartExact(s.mon, now);
    var n: nat, k: nat :| StartsFirst(s.mon, now, Restarted(s.mon, now), n, k);
    LeftIsBlocked(s.mon, now, Restarted(s.mon, now), n, k);
  }

  lemma LeftIsBlocked(m: Mon, now: int, e: Effect, n: nat, k: nat)
    requires StartsFirst(m, now, e, n, k)
    ensures var q := e.mon.queues.retry;
      e.mon.pending != [] || (exists i :: 0 <= i < |q| && q[i].readyAt <= now) ==> Full(e.mon.source)
  {
    hide Full, Ripe, Unripe;
    var waiting := ProcessQueues(m.queues, now).retry;
    RipeIff(waiting, now);
    if k == |Ripe(waiting, now)| {
      assert Requeued([], now) == [];
      assert e.mon.queues.retry == Unripe(waiting, now);
      assert forall i | 0 <= i < |e.mon.queues.retry| :: e.mon.queues.retry[i] in Unripe(waiting, now);
    }
  }
}
