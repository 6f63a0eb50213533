/** The download monitor as the mutable object it is (src/monitor.rs). Every method is proved to do
    what the functions of MonitorSpec say, on which the whole-run theorems rest. */
module Monitor {
  import opened Ranges
  import opened Chunk
  import opened Ledger
  import opened Retry
  import opened Lanes
  import opened MonitorSpec
  import opened Protocol

  /** Taking the ticket out before asking for a lane, as the loop does, comes to the same. */
  lemma PopThenAsk(m: Mon, now: int, deferred: seq<Ticket>)
    requires FirstRipe(m.queues.retry, now) < |m.queues.retry|
    ensures var i := FirstRipe(m.queues.retry, now);
      var t := m.queues.retry[i];
      var (asked, grant) := BuildRequest(m.(queues := m.queues.(retry := Remove(m.queues.retry, i))), now);
      RetryRipe(m, now, deferred)
      == if grant.Refused? then RetryRipe(asked, now, deferred + [t])
         else var rest := RetryRipe(Bind(asked, t.id, grant.lane), now, deferred);
              Effect(rest.mon, [Fresh(t.id, Range(t.start, t.end))] + rest.spawned)
  {
  }

  lemma JoinedAll(a: seq<Worker>, b: seq<Worker>, c: seq<Worker>)
    ensures a + (b + c) == (a + b) + c
  {
  }

  lemma NothingRipe(m: Mon, now: int, deferred: seq<Ticket>)
    requires FirstRipe(m.queues.retry, now) == |m.queues.retry|
    ensures RetryRipe(m, now, deferred)
         == Effect(m.(queues := m.queues.(retry := m.queues.retry + Requeued(deferred, now))), [])
  {
  }

  class DownloadMonitor {
    const state: DownloadState
    const retryHandler: RetryHandler
    const runtime: LaneScheduler?     // null for a single-URL download
    var laneBindings: map<nat, Name>
    var pendingBisects: seq<Range>
    var retiredIds: set<nat>
    var stallTicks: nat
    var nextChunkId: nat

    ghost function Parts(): set<object> {
      {this, state, retryHandler} + if runtime == null then {} else {runtime}
    }

    function View(): Mon
      reads Parts()
    {
      Mon(state.View(retiredIds), retryHandler.View(), if runtime == null then None else Some(runtime.View()),
          laneBindings, pendingBisects, stallTicks, nextChunkId)
    }

    constructor (total: nat, completed: nat, runtime: LaneScheduler?)
      ensures View() == Mon(Books(total, map[], Min(completed, total), {}), EmptyQueues(),
                            if runtime == null then None else Some(runtime.View()), map[], [], 0, 0)
      ensures this.runtime == runtime && fresh(this) && fresh(state) && fresh(retryHandler)
    {
      state := new DownloadState.WithCompleted(total, completed);
      retryHandler := new RetryHandler();
      this.runtime := runtime;
      laneBindings, pendingBisects, retiredIds, stallTicks, nextChunkId := map[], [], {}, 0, 0;
      new;
      assert state.View(retiredIds) == state.View({});
    }

    method AskLane(now: int) returns (grant: Grant)
      modifies Parts()
      ensures (View(), grant) == BuildRequest(old(View()), now)
    {
      if runtime == null {
        return Granted(None);
      }
      var lane := runtime.ClaimLane(now);
      grant := if lane.Some? then Granted(lane) else Refused;
    }

    /** Starts a range under a fresh id. */
    method Spawn(lane: Option<Name>, r: Range) returns (worker: Worker)
      modifies this`laneBindings, this`nextChunkId
      ensures Effect(View(), [worker]) == StartNew(old(View()), lane, r)
    {
      worker := Fresh(nextChunkId, r);
      if lane.Some? {
        laneBindings := laneBindings[nextChunkId := lane.value];
      }
      nextChunkId := nextChunkId + 1;
    }

    method ReleaseLane(id: nat, failed: bool, now: int)
      modifies Parts()
      ensures View() == Unbind(old(View()), id, failed, now)
    {
      if id in laneBindings && runtime != null {
        runtime.ReleaseChunk(laneBindings[id], failed, now);
      }
      laneBindings := laneBindings - {id};
    }

    method HandleDownloadInfo(info: Info, now: int) returns (spawned: seq<Worker>)
      modifies Parts()
      ensures Effect(View(), spawned) == Handle(old(View()), info, now)
    {
      hide Release, Claim, OnChunkFailed;
      spawned := [];
      match info {
        case Progress(id, start, end, downloaded) =>
          if id !in retiredIds {
            state.Note(id, start, end, downloaded);
          }
        case Complete(id) =>
          state.Complete(id);
          retiredIds := retiredIds + {id};
          ReleaseLane(id, false, now);
          retryHandler.OnDownloadComplete(id);
        case Failed(id, start, end, error) =>
          ReleaseLane(id, true, now);
          retryHandler.Failed(id, start, end, error, now);
          state.Fail(id, start);
        case Bisected(id, start, end) =>
          state.Shrink(id, start - 1);
          var grant := AskLane(now);
          if grant.Refused? {
            pendingBisects := pendingBisects + [Range(start, end)];
          } else {
            var worker := Spawn(grant.lane, Range(start, end));
            spawned := [worker];
          }
      }
    }

    method DrainPending(now: int) returns (spawned: seq<Worker>)
      modifies Parts()
      ensures Effect(View(), spawned) == MonitorSpec.DrainPending(old(View()), now)
    {
      hide BuildRequest;
      spawned := [];
      while pendingBisects != []
        invariant var rest := MonitorSpec.DrainPending(View(), now);
          MonitorSpec.DrainPending(old(View()), now) == Effect(rest.mon, spawned + rest.spawned)
        decreases |pendingBisects|
      {
        ghost var before, count := View(), |pendingBisects|;
        var next := pendingBisects[0];
        var grant := AskLane(now);
        if grant.Refused? {
          return;
        }
        pendingBisects := pendingBisects[1..];
        var worker := Spawn(grant.lane, next);
        JoinedAll(spawned, [worker], MonitorSpec.DrainPending(View(), now).spawned);
        spawned := spawned + [worker];
      }
    }

    /** Restarts a ticket under its own id, if a lane can be had. */
    method Retry(t: Ticket, now: int) returns (worker: Option<Worker>)
      modifies Parts()
      ensures var (asked, grant) := BuildRequest(old(View()), now);
        if grant.Refused? then View() == asked && worker == None
        else View() == Bind(asked, t.id, grant.lane) && worker == Some(Fresh(t.id, Range(t.start, t.end)))
    {
      var grant := AskLane(now);
      if grant.Refused? {
        return None;
      }
      if grant.lane.Some? {
        laneBindings := laneBindings[t.id := grant.lane.value];
      }
      return Some(Fresh(t.id, Range(t.start, t.end)));
    }

    /** The start of a session (src/downloader.rs, orchestrate_downloads): a worker per initial range, as
        far as lanes go, then one attempt at the rest. */
    method Orchestrate(ranges: seq<Range>, now: int) returns (spawned: seq<Worker>)
      modifies Parts()
      ensures var launched := Launch(old(View()), ranges, now);
        var drained := MonitorSpec.DrainPending(launched.mon, now);
        Effect(View(), spawned) == Effect(drained.mon, launched.spawned + drained.spawned)
    {
      hide BuildRequest, MonitorSpec.DrainPending;
      spawned := [];
      var i := 0;
      while i < |ranges|
        invariant i <= |ranges|
        invariant Launch(old(View()), ranges, now)
               == Effect(Launch(View(), ranges[i..], now).mon, spawned + Launch(View(), ranges[i..], now).spawned)
      {
        assert ranges[i..][1..] == ranges[i + 1..];
        var grant := AskLane(now);
        if grant.Refused? {
          pendingBisects := pendingBisects + [ranges[i]];
        } else {
          var worker := Spawn(grant.lane, ranges[i]);
          JoinedAll(spawned, [worker], Launch(View(), ranges[i + 1..], now).spawned);
          spawned := spawned + [worker];
        }
        i := i + 1;
      }
      var drained := DrainPending(now);
      spawned := spawned + drained;
    }

    /** One round of the loop: the popped ticket is restarted or set aside. */
    method RestartOrDefer(ghost m: Mon, t: Ticket, now: int, deferred: seq<Ticket>)
      returns (aside: seq<Ticket>, started: seq<Worker>)
      requires var i := FirstRipe(m.queues.retry, now);
        && i < |m.queues.retry| && t == m.queues.retry[i]
        && View() == m.(queues := m.queues.(retry := Remove(m.queues.retry, i)))
      modifies Parts()
      ensures View().queues == old(View()).queues
      ensures var rest := RetryRipe(View(), now, aside);
        RetryRipe(m, now, deferred) == Effect(rest.mon, started + rest.spawned)
    {
      hide BuildRequest, RetryRipe, Remove, Fresh;
      PopThenAsk(m, now, deferred);
      var worker := Retry(t, now);
      if worker == None {
        aside, started := deferred + [t], [];
      } else {
        aside, started := deferred, [worker.value];
      }
    }

    method RetryReady(now: int) returns (spawned: seq<Worker>)
      modifies Parts()
      ensures Effect(View(), spawned) == RetryRipe(old(View()), now, [])
    {
      hide BuildRequest, RetryRipe, Requeued, Remove;
      spawned := [];
      var deferred: seq<Ticket> := [];
      var t := retryHandler.PopReady(now);
      ghost var m := old(View());
      while t.Some?
        invariant View() == m.(queues := m.queues.(retry := retryHandler.retryQueue))
        invariant var i := FirstRipe(m.queues.retry, now);
          if t.Some? then
            i < |m.queues.retry| && t.value == m.queues.retry[i]
            && retryHandler.retryQueue == Remove(m.queues.retry, i)
          else i == |m.queues.retry| && retryHandler.retryQueue == m.queues.retry
        invariant var rest := RetryRipe(m, now, deferred);
          RetryRipe(old(View()), now, []) == Effect(rest.mon, spawned + rest.spawned)
        decreases |m.queues.retry|
      {
        var started;
        deferred, started := RestartOrDefer(m, t.value, now, deferred);
        m := View();
        JoinedAll(spawned, started, RetryRipe(m, now, deferred).spawned);
        spawned := spawned + started;
        t := retryHandler.PopReady(now);
      }
      NothingRipe(m, now, deferred);
      PushBack(deferred, now);
    }

    method PushBack(deferred: seq<Ticket>, now: int)
      modifies retryHandler`retryQueue
      ensures retryHandler.retryQueue == old(retryHandler.retryQueue) + Requeued(deferred, now)
    {
      var i := 0;
      while i < |deferred|
        invariant i <= |deferred|
        invariant retryHandler.retryQueue == old(retryHandler.retryQueue) + Requeued(deferred[..i], now)
      {
        assert Requeued(deferred[..i + 1], now) == Requeued(deferred[..i], now) + [deferred[i].(readyAt := now)];
        retryHandler.PushBackWithBackoff(deferred[i], now);
        i := i + 1;
      }
      assert deferred[..i] == deferred;
    }

    method RestartRanges(now: int) returns (spawned: seq<Worker>)
      modifies Parts()
      ensures Effect(View(), spawned) == Restarted(old(View()), now)
    {
      hide RetryRipe, MonitorSpec.DrainPending, ProcessQueues;
      spawned := DrainPending(now);
      retryHandler.Process(now);
      var retried := RetryReady(now);
      spawned := spawned + retried;
    }

    /** Counts the ticks that find nothing to do although bytes are missing. */
    method NoteStall(idle: bool, total: nat)
      requires total == TotalDownloaded(View().books)
      modifies this`stallTicks, retryHandler
      ensures View() == Stalled(old(View()), idle)
    {
      if idle && state.chunks == map[] && retryHandler.retryQueue == [] && retryHandler.delayedRetryQueue == []
         && pendingBisects == [] {
        stallTicks := stallTicks + 1;
        if stallTicks >= STALL_LIMIT {
          retryHandler.FailStalled(total, state.totalFileSize);
        }
      } else {
        stallTicks := 0;
      }
    }

    /** `tasks` is the number of worker tasks not joined yet. */
    method HandleTick(tasks: nat, now: int) returns (spawned: seq<Worker>, done: bool)
      modifies Parts()
      ensures (Effect(View(), spawned), done) == Tick(old(View()), tasks, now)
    {
      hide RetryRipe, MonitorSpec.DrainPending, ProcessQueues, Restarted, Stalled;
      spawned := RestartRanges(now);
      var idle := tasks + |spawned| == 0;
      var waiting := retryHandler.retryQueue != [] || retryHandler.delayedRetryQueue != [];
      var total := state.Total();
      assert total == TotalDownloaded(View().books);
      if idle && !waiting && total >= state.totalFileSize {
        return spawned, true;
      }
      NoteStall(idle, total);
      done := idle && pendingBisects == [] && state.chunks == map[] && !waiting
              && state.completedBytes >= state.totalFileSize;
    }
  }
}
