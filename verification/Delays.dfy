/** Waiting ranges over whole runs with a clock that does not go back: the delayed queue stays sorted,
    and a tick leaves nothing behind whose time has come. */
module Delays {
  import opened Chunk
  import opened Retry
  import opened MonitorSpec
  import opened Protocol
  import opened Bindings
  import opened Bounds
  import opened Finish
  import opened OrderedLedger
  import opened Starts

  function TimeOf(e: Event, before: int): int {
    match e
    case ReceiveReliable(now) => now
    case TickFires(now) => now
    case _ => before
  }

  ghost predicate Clocked(es: seq<Event>, t: int)
    decreases |es|
  {
    es == [] || (t <= TimeOf(es[0], t) && Clocked(es[1..], TimeOf(es[0], t)))
  }

  function LastTime(es: seq<Event>, t: int): int
    decreases |es|
  {
    if es == [] then t else LastTime(es[1..], TimeOf(es[0], t))
  }

  lemma SortedLater(q: Queues, t: int, now: int)
    requires DelayedSorted(q, t) && t <= now
    ensures DelayedSorted(q, now)
  {
  }

  lemma RestartDelays(m: Mon, now: int)
    ensures Restarted(m, now).mon.queues.delayed == ProcessQueues(m.queues, now).delayed
  {
    DrainKeeps(m, now);
    var d := DrainPending(m, now).mon;
    RetryKeeps(d.(queues := ProcessQueues(d.queues, now)), now, []);
  }

  lemma TickDelays(s: Sys, now: int)
    requires Enabled(s, TickFires(now))
    ensures Step(s, TickFires(now)).mon.queues.delayed == ProcessQueues(s.mon.queues, now).delayed
    ensures Step(s, TickFires(now)).mon.queues.retry == Restarted(s.mon, now).mon.queues.retry
    ensures Step(s, TickFires(now)).mon.pending == Restarted(s.mon, now).mon.pending
  {
    hide Restarted, ProcessQueues;
    RestartDelays(s.mon, now);
  }

  lemma StepKeepsSorted(s: Sys, e: Event, t: int)
    requires Enabled(s, e) && DelayedSorted(s.mon.queues, t) && t <= TimeOf(e, t)
    ensures DelayedSorted(Step(s, e).mon.queues, TimeOf(e, t))
  {
    hide Handle, Tick, OnChunkFailed;
    match e
    case ReceiveReliable(now) =>
      var info := s.chan[0];
      HandleQueues(s.mon, info, now);
      SortedLater(s.mon.queues, t, now);
      if info.Failed? {
        FailureKeepsSorted(s.mon.queues, info.id, info.start, info.end, info.error, t, now);
      }
    case TickFires(now) =>
      TickDelays(s, now);
      ProcessTakesAllRipe(s.mon.queues, t, now);
    case StrayProgress(id, start, end, downloaded) =>
      HandleQueues(s.mon, Progress(id, start, end, downloaded), 0);
    case _ =>
  }

  lemma {:induction false} AlwaysSorted(s: Sys, es: seq<Event>, t: int)
    requires Legal(s, es) && Clocked(es, t) && DelayedSorted(s.mon.queues, t)
    ensures DelayedSorted(After(s, es).mon.queues, LastTime(es, t))
    decreases |es|
  {
    hide Step, DelayedSorted;
    if es != [] {
      StepKeepsSorted(s, es[0], t);
      AlwaysSorted(Step(s, es[0]), es[1..], TimeOf(es[0], t));
    }
  }

  /** After any tick of any run nothing delayed is overdue; and a buffered range or a ripe ticket is left
      only if no lane has capacity, so never with a single source. */
  lemma TickLeavesNothingRipe(p: Session, es: seq<Event>, now: int)
    requires Legal(Begin(p), es) && Clocked(es, p.now) && LastTime(es, p.now) <= now
    requires Enabled(After(Begin(p), es), TickFires(now))
    ensures var q := Step(After(Begin(p), es), TickFires(now)).mon.queues;
      && (forall i | 0 <= i < |q.delayed| :: now < q.delayed[i].retryAt <= now + DELAYED_RETRY_DURATION)
      && (forall i, j | 0 <= i < j < |q.delayed| :: q.delayed[i].retryAt <= q.delayed[j].retryAt)
    ensures var m := Step(After(Begin(p), es), TickFires(now)).mon;
      m.pending != [] || (exists k :: 0 <= k < |m.queues.retry| && m.queues.retry[k].readyAt <= now)
      ==> Full(m.source)
  {
    hide Begin, Step, Restarted, Full;
    var s := After(Begin(p), es);
    BeginsEmpty(p);
    AlwaysSorted(Begin(p), es, p.now);
    TickDelays(s, now);
    ProcessTakesAllRipe(s.mon.queues, LastTime(es, p.now), now);
    TickLeavesOnlyBlocked(s, now);
  }

  // ----- the retry cycle

  /** While a run goes on, an owned id's attempt counter keeps step with its total. */
  ghost predicate InCycle(s: Sys, k: nat) {
    var q := s.mon.queues;
    && (k >= s.mon.nextId ==> k !in q.attempts && k !in q.totals)
    && (s.outcome == Running && Owners(s, k) >= 1 ==> Count(q.attempts, k) == Count(q.totals, k) % (MAX_RETRIES + 1))
  }

  lemma ProcessKeepsCounters(q: Queues, now: int)
    ensures ProcessQueues(q, now).attempts == q.attempts && ProcessQueues(q, now).totals == q.totals
    decreases |q.delayed|
  {
    if !(q.delayed == [] || now < q.delayed[0].retryAt) {
      var t := q.delayed[0].chunk.(readyAt := now - RETRY_DELAY, attempts := 0);
      ProcessKeepsCounters(q.(delayed := q.delayed[1..], retry := q.retry + [t]), now);
    }
  }

  lemma QuietCounters(s: Sys, e: Event)
    requires Enabled(s, e) && !e.ReceiveReliable?
    ensures Step(s, e).mon.queues.attempts == s.mon.queues.attempts
    ensures Step(s, e).mon.queues.totals == s.mon.queues.totals
  {
    hide Handle, DrainPending, RetryRipe, ProcessQueues;
    match e
    case TickFires(now) =>
      DrainKeeps(s.mon, now);
      var d := DrainPending(s.mon, now).mon;
      ProcessKeepsCounters(d.queues, now);
      RetryKeeps(d.(queues := ProcessQueues(d.queues, now)), now, []);
    case StrayProgress(id, start, end, downloaded) =>
      HandleQueues(s.mon, Progress(id, start, end, downloaded), 0);
    case _ =>
  }

  /** The message at the head of the channel and the counters of id k. */
  lemma ReceiveInCycle(s: Sys, now: int, k: nat)
    requires Enabled(s, ReceiveReliable(now)) && UniqueIds(s) && Polled(s) && InCycle(s, k)
    ensures InCycle(Step(s, ReceiveReliable(now)), k)
  {
    hide Handle, OnChunkFailed;
    var info, t := s.chan[0], Step(s, ReceiveReliable(now));
    OwnersStep(s, ReceiveReliable(now), k);
    IdCountStep(s, ReceiveReliable(now), k);
    HandleQueues(s.mon, info, now);
    if info.Failed? {
      if info.id == k {
        HeadIsOwned(s, k);
        FailureInCycle(s.mon.queues, info, now, k);
      } else {
        OtherCounters(s.mon.queues, info, now, k);
      }
    }
  }

  lemma FailureInCycle(q: Queues, info: Info, now: int, k: nat)
    requires info.Failed? && info.id == k && Count(q.attempts, k) == Count(q.totals, k) % (MAX_RETRIES + 1)
    ensures var r := OnChunkFailed(q, info.id, info.start, info.end, info.error, now);
      r.permanent == [] ==> Count(r.attempts, k) == Count(r.totals, k) % (MAX_RETRIES + 1)
  {
    if info.error == Retriable && Count(q.totals, k) < MAX_TOTAL_ATTEMPTS {
      EveryEleventhWaits(q, info.id, info.start, info.end, now);
    }
  }

  lemma OtherCounters(q: Queues, info: Info, now: int, k: nat)
    requires info.Failed? && info.id != k
    ensures var r := OnChunkFailed(q, info.id, info.start, info.end, info.error, now);
      && (k in r.attempts <==> k in q.attempts) && (k in r.totals <==> k in q.totals)
      && Count(r.attempts, k) == Count(q.attempts, k) && Count(r.totals, k) == Count(q.totals, k)
  {
  }

  lemma StepInCycle(s: Sys, e: Event, k: nat)
    requires Enabled(s, e) && UniqueIds(s) && Polled(s) && InCycle(s, k)
    ensures InCycle(Step(s, e), k)
  {
    hide Step, Owners;
    if e.ReceiveReliable? {
      ReceiveInCycle(s, e.now, k);
    } else {
      OwnersStep(s, e, k);
      IdCountStep(s, e, k);
      QuietCounters(s, e);
    }
  }

  lemma {:induction false} AlwaysInCycle(s: Sys, es: seq<Event>, k: nat)
    requires Legal(s, es) && UniqueIds(s) && Polled(s) && InCycle(s, k)
    ensures UniqueIds(After(s, es)) && Polled(After(s, es)) && InCycle(After(s, es), k)
    decreases |es|
  {
    hide Step, InCycle, UniqueIds, Polled;
    if es != [] {
      StepKeepsUnique(s, es[0]);
      StepKeepsPolled(s, es[0]);
      StepInCycle(s, es[0], k);
      AlwaysInCycle(Step(s, es[0]), es[1..], k);
    }
  }

  /** Over every run: of the counted failures of one id, the eleventh and the twenty-second wait in the
      delayed queue, and each other one waits at least a second in the retry queue. */
  lemma EleventhFailureWaits(p: Session, es: seq<Event>, now: int)
    requires Legal(Begin(p), es) && Enabled(After(Begin(p), es), ReceiveReliable(now))
    requires var s := After(Begin(p), es);
      && s.chan[0].Failed? && s.chan[0].error == Retriable
      && Count(s.mon.queues.totals, s.chan[0].id) < MAX_TOTAL_ATTEMPTS
    ensures var s := After(Begin(p), es);
      var q, r, k := s.mon.queues, Step(s, ReceiveReliable(now)).mon.queues, s.chan[0].id;
      && Count(r.totals, k) == Count(q.totals, k) + 1
      && (Count(r.totals, k) % (MAX_RETRIES + 1) == 0 <==> |r.delayed| > |q.delayed|)
      && (|r.delayed| > |q.delayed| <==> r.retry == q.retry)
      && (|r.retry| > |q.retry| ==> r.retry[|q.retry|].readyAt >= now + 1000)
  {
    hide Begin, Step, Owners;
    var s := After(Begin(p), es);
    var info := s.chan[0];
    BeginsUnique(p);
    BeginsPolled(p);
    BeginsEmpty(p);
    AlwaysInCycle(Begin(p), es, info.id);
    HeadIsOwned(s, info.id);
    EveryEleventhWaits(s.mon.queues, info.id, info.start, info.end, now);
    ReceiveQueues(s, now);
  }

  /** A chunk that is nowhere any more has left no counter. */
  ghost predicate Forgotten(s: Sys, k: nat) {
    IdCount(s, k) <= 0 ==> k !in s.mon.queues.attempts && k !in s.mon.queues.totals
  }

  lemma StepKeepsForgotten(s: Sys, e: Event, k: nat)
    requires Enabled(s, e) && UniqueIds(s) && Forgotten(s, k)
    ensures Forgotten(Step(s, e), k)
  {
    hide Step, IdCount, OnChunkFailed;
    IdCountStep(s, e, k);
    MintedOnce(k, s.mon.nextId, Step(s, e).mon.nextId);
    if e.ReceiveReliable? {
      ReceiveForgets(s, e.now, k);
    } else {
      QuietCounters(s, e);
    }
  }

  lemma ReceiveForgets(s: Sys, now: int, k: nat)
    requires Enabled(s, ReceiveReliable(now)) && UniqueIds(s)
    ensures var info, q := s.chan[0], Step(s, ReceiveReliable(now)).mon.queues;
      && (info.Complete? && info.id == k ==> k !in q.attempts && k !in q.totals)
      && (IdCount(s, k) <= 0 ==> (k in q.attempts ==> k in s.mon.queues.attempts)
                                 && (k in q.totals ==> k in s.mon.queues.totals))
  {
    hide Handle, OnChunkFailed, IdCount;
    var info := s.chan[0];
    HandleQueues(s.mon, info, now);
    if info.Failed? {
      if info.id == k {
        HeadIsOwned(s, k);
        OwnersStep(s, ReceiveReliable(now), k);
      } else {
        OtherCounters(s.mon.queues, info, now, k);
      }
    }
  }

  /** Over every run. */
  lemma {:induction false} AlwaysForgotten(s: Sys, es: seq<Event>, k: nat)
    requires Legal(s, es) && UniqueIds(s) && Forgotten(s, k)
    ensures Forgotten(After(s, es), k)
    decreases |es|
  {
    hide Step, Forgotten, UniqueIds;
    if es != [] {
      StepKeepsUnique(s, es[0]);
      StepKeepsForgotten(s, es[0], k);
      AlwaysForgotten(Step(s, es[0]), es[1..], k);
    }
  }

  lemma ReceiveQueues(s: Sys, now: int)
    requires Enabled(s, ReceiveReliable(now)) && s.chan[0].Failed?
    ensures var info := s.chan[0];
      Step(s, ReceiveReliable(now)).mon.queues
      == OnChunkFailed(s.mon.queues, info.id, info.start, info.end, info.error, now)
  {
    hide Handle;
    HandleQueues(s.mon, s.chan[0], now);
  }
}
