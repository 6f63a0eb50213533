/** Failed ranges waiting for another attempt (src/retry.rs). Times are milliseconds. */
module Retry {
  import opened Ranges
  import opened Chunk

  const MAX_RETRIES: nat := 10
  const RETRY_DELAY: int := 2000
  const DELAYED_RETRY_DURATION: int := 10000
  const MAX_TOTAL_ATTEMPTS: nat := 30

  datatype Ticket = Ticket(id: nat, start: nat, end: int, readyAt: int, attempts: nat)

  datatype Delayed = Delayed(chunk: Ticket, retryAt: int)

  datatype PermanentFailure = OfChunk(ticket: Ticket) | Stall(downloaded: nat, total: nat)

  datatype Queues = Queues(
    retry: seq<Ticket>, delayed: seq<Delayed>, attempts: map<nat, nat>, totals: map<nat, nat>,
    permanent: seq<PermanentFailure>, lastFailure: Option<int>)

  function EmptyQueues(): Queues {
    Queues([], [], map[], map[], [], None)
  }

  function Count(m: map<nat, nat>, id: nat): nat {
    if id in m then m[id] else 0
  }

  /** Exponential back-off capped at 8 s, plus a jitter below 200 ms. */
  function RetryDelay(attempt: nat): (ms: int)
    ensures 1000 <= ms < 8200
  {
    (if attempt == 0 then 1000 else if attempt == 1 then 2000 else if attempt == 2 then 4000 else 8000)
    + attempt * 73 % 200
  }

  function GiveUp(q: Queues, t: Ticket): Queues {
    q.(permanent := q.permanent + [OfChunk(t)], attempts := q.attempts - {t.id})
  }

  predicate IsBatch(q: Queues, now: int) {
    q.lastFailure.Some? && now - q.lastFailure.value < 500 && |q.retry| >= 3
  }

  function OnChunkFailed(q: Queues, id: nat, start: nat, end: int, error: ErrorClass, now: int): Queues {
    if error != Retriable then
      GiveUp(q, Ticket(id, start, end, now, Count(q.totals, id) + 1))
    else
      var total := Count(q.totals, id) + 1;
      var counted := q.(totals := q.totals[id := total]);
      if total > MAX_TOTAL_ATTEMPTS then
        GiveUp(counted, Ticket(id, start, end, now, total))
      else
        Schedule(counted.(lastFailure := Some(now)), Ticket(id, start, end, now, Count(q.attempts, id) + 1),
                 now, IsBatch(q, now))
  }

  /** The first MAX_RETRIES failures of a cycle wait in the retry queue, the next one waits
      DELAYED_RETRY_DURATION and starts a new cycle. */
  function Schedule(q: Queues, t: Ticket, now: int, batch: bool): Queues {
    if t.attempts <= MAX_RETRIES then
      var readyAt := now + RetryDelay(t.attempts) + if batch then 200 * (|q.retry| + 1) else 0;
      q.(retry := q.retry + [t.(readyAt := readyAt)], attempts := q.attempts[t.id := t.attempts])
    else
      q.(delayed := q.delayed + [Delayed(t, now + DELAYED_RETRY_DURATION)], attempts := q.attempts - {t.id})
  }

  function ProcessQueues(q: Queues, now: int): Queues
    decreases |q.delayed|
  {
    if q.delayed == [] || now < q.delayed[0].retryAt then q
    else
      var t := q.delayed[0].chunk.(readyAt := now - RETRY_DELAY, attempts := 0);
      ProcessQueues(q.(delayed := q.delayed[1..], retry := q.retry + [t]), now)
  }

  /** The position of the first ripe ticket, or |tickets|. */
  function FirstRipe(tickets: seq<Ticket>, now: int): (i: nat)
    ensures i <= |tickets|
    ensures i < |tickets| ==> tickets[i].readyAt <= now
    ensures forall k | 0 <= k < i :: now < tickets[k].readyAt
  {
    if tickets == [] || tickets[0].readyAt <= now then 0 else 1 + FirstRipe(tickets[1..], now)
  }

  function Forget(q: Queues, id: nat): Queues {
    q.(attempts := q.attempts - {id}, totals := q.totals - {id})
  }

  // ----- what the queues conserve

  ghost function OfTicket(g: (nat, Range) -> int): Ticket -> int {
    (t: Ticket) => g(t.id, Range(t.start, t.end))
  }

  ghost function OfDelayed(g: (nat, Range) -> int): Delayed -> int {
    (d: Delayed) => g(d.chunk.id, Range(d.chunk.start, d.chunk.end))
  }

  ghost function OfPermanent(g: (nat, Range) -> int): PermanentFailure -> int {
    (p: PermanentFailure) => if p.OfChunk? then g(p.ticket.id, Range(p.ticket.start, p.ticket.end)) else 0
  }

  ghost function Held(q: Queues, g: (nat, Range) -> int): int {
    Sum(q.retry, OfTicket(g)) + Sum(q.delayed, OfDelayed(g)) + Sum(q.permanent, OfPermanent(g))
  }

  /** A failure is filed exactly once, in one of the three places, whatever is measured;
      it is permanent exactly for a fatal error or after MAX_TOTAL_ATTEMPTS counted ones. */
  lemma FailureFiledOnce(q: Queues, id: nat, start: nat, end: int, error: ErrorClass, now: int,
                         g: (nat, Range) -> int)
    ensures var r := OnChunkFailed(q, id, start, end, error, now);
      && Held(r, g) == Held(q, g) + g(id, Range(start, end))
      && |r.retry| + |r.delayed| + |r.permanent| == |q.retry| + |q.delayed| + |q.permanent| + 1
      && (|r.permanent| > |q.permanent| <==> error != Retriable || Count(q.totals, id) >= MAX_TOTAL_ATTEMPTS)
      && (|r.permanent| == |q.permanent| ==>
            r.totals == q.totals[id := Count(q.totals, id) + 1] && Count(r.totals, id) <= MAX_TOTAL_ATTEMPTS)
  {
    var r := OnChunkFailed(q, id, start, end, error, now);
    if |r.permanent| > |q.permanent| {
      SumSnoc(q.permanent, r.permanent[|q.permanent|], OfPermanent(g));
    } else if |r.retry| > |q.retry| {
      SumSnoc(q.retry, r.retry[|q.retry|], OfTicket(g));
    } else {
      SumSnoc(q.delayed, r.delayed[|q.delayed|], OfDelayed(g));
    }
  }

  /** The back-off in the documentation: it doubles from a second up to 8 s. */
  ghost function BackOff(attempt: nat): int {
    if attempt == 0 then 1000 else Min(2 * BackOff(attempt - 1), 8000)
  }

  lemma {:induction false} BackOffCapped(attempt: nat)
    requires attempt >= 3
    ensures BackOff(attempt) == 8000
  {
    if attempt > 3 {
      BackOffCapped(attempt - 1);
    } else {
      assert BackOff(2) == 4000;
    }
  }

  /** When a counted failure is due again. In the retry queue it waits the back-off for its attempt and less
      than 200 ms more; with three waiting and another failure within the last half second, 200 ms more
      for each that waits and one. In the delayed queue it waits 10 s. The range and the id stay. */
  lemma FailureDueTimes(q: Queues, id: nat, start: nat, end: int, now: int)
    requires Count(q.totals, id) < MAX_TOTAL_ATTEMPTS
    ensures var r := OnChunkFailed(q, id, start, end, Retriable, now);
      var attempt := Count(q.attempts, id) + 1;
      var crowded := q.lastFailure.Some? && now - q.lastFailure.value < 500 && |q.retry| >= 3;
      && r.lastFailure == Some(now) && r.permanent == q.permanent
      && if attempt <= MAX_RETRIES then
           exists t ::
             && r.retry == q.retry + [t] && r.delayed == q.delayed
             && t.id == id && t.start == start && t.end == end
             && 0 <= t.readyAt - now - BackOff(attempt) - (if crowded then 200 * (|q.retry| + 1) else 0) < 200
         else
           exists t ::
             && r.delayed == q.delayed + [Delayed(t, now + DELAYED_RETRY_DURATION)] && r.retry == q.retry
             && t.id == id && t.start == start && t.end == end
  {
    var attempt := Count(q.attempts, id) + 1;
    assert BackOff(1) == 2000 && BackOff(2) == 4000;
    if attempt >= 3 {
      BackOffCapped(attempt);
    }
    var r := OnChunkFailed(q, id, start, end, Retriable, now);
    if attempt <= MAX_RETRIES {
      assert r.retry == q.retry + [r.retry[|q.retry|]];
    } else {
      assert r.delayed == q.delayed + [Delayed(r.delayed[|q.delayed|].chunk, now + DELAYED_RETRY_DURATION)];
    }
  }

  /** Of an id's failures every (MAX_RETRIES + 1)-th waits in the delayed queue, the others in the retry
      queue for a second at least; its attempt counter keeps step with its total. */
  lemma EveryEleventhWaits(q: Queues, id: nat, start: nat, end: int, now: int)
    requires Count(q.attempts, id) == Count(q.totals, id) % (MAX_RETRIES + 1)
    requires Count(q.totals, id) < MAX_TOTAL_ATTEMPTS
    ensures var r := OnChunkFailed(q, id, start, end, Retriable, now);
      && Count(r.totals, id) == Count(q.totals, id) + 1
      && Count(r.attempts, id) == Count(r.totals, id) % (MAX_RETRIES + 1)
      && (Count(r.totals, id) % (MAX_RETRIES + 1) == 0 <==> |r.delayed| > |q.delayed|)
      && (|r.delayed| > |q.delayed| <==> r.retry == q.retry)
      && (|r.retry| > |q.retry| ==> r.retry[|q.retry|].readyAt >= now + 1000)
  {
    var total := Count(q.totals, id);
    assert total + 1 == (MAX_RETRIES + 1) * (total / (MAX_RETRIES + 1)) + total % (MAX_RETRIES + 1) + 1;
  }

  lemma {:induction false} ProcessConserves(q: Queues, now: int, g: (nat, Range) -> int)
    ensures var r := ProcessQueues(q, now);
      && Held(r, g) == Held(q, g) && r.permanent == q.permanent && r.totals == q.totals
      && |r.retry| + |r.delayed| == |q.retry| + |q.delayed|
    decreases |q.delayed|
  {
    if !(q.delayed == [] || now < q.delayed[0].retryAt) {
      var t := q.delayed[0].chunk.(readyAt := now - RETRY_DELAY, attempts := 0);
      SumSnoc(q.retry, t, OfTicket(g));
      ProcessConserves(q.(delayed := q.delayed[1..], retry := q.retry + [t]), now, g);
    }
  }

  // ----- nothing ripe is missed

  /** The delayed queue is ordered by due time and nothing in it is due later than
      DELAYED_RETRY_DURATION after `now`. */
  ghost predicate DelayedSorted(q: Queues, now: int) {
    && (forall i, j | 0 <= i < j < |q.delayed| :: q.delayed[i].retryAt <= q.delayed[j].retryAt)
    && (forall i | 0 <= i < |q.delayed| :: q.delayed[i].retryAt <= now + DELAYED_RETRY_DURATION)
  }

  lemma FailureKeepsSorted(q: Queues, id: nat, start: nat, end: int, error: ErrorClass, before: int, now: int)
    requires DelayedSorted(q, before) && before <= now
    ensures DelayedSorted(OnChunkFailed(q, id, start, end, error, now), now)
  {
  }

  /** Because the queue is sorted, stopping at the first unripe head leaves nothing ripe behind. */
  lemma {:induction false} ProcessTakesAllRipe(q: Queues, before: int, now: int)
    requires DelayedSorted(q, before) && before <= now
    ensures var r := ProcessQueues(q, now);
      && DelayedSorted(r, now)
      && (forall i | 0 <= i < |r.delayed| :: now < r.delayed[i].retryAt)
      && q.retry <= r.retry
      && (forall i | |q.retry| <= i < |r.retry| :: r.retry[i].readyAt <= now)
    decreases |q.delayed|
  {
    if !(q.delayed == [] || now < q.delayed[0].retryAt) {
      var t := q.delayed[0].chunk.(readyAt := now - RETRY_DELAY, attempts := 0);
      ProcessTakesAllRipe(q.(delayed := q.delayed[1..], retry := q.retry + [t]), before, now);
    }
  }

  // ----- the mutable handler

  class RetryHandler {
    var retryQueue: seq<Ticket>
    var delayedRetryQueue: seq<Delayed>
    var retryAttempts: map<nat, nat>
    var totalAttempts: map<nat, nat>
    var permanentFailures: seq<PermanentFailure>
    var lastFailureTime: Option<int>

    function View(): Queues
      reads this
    {
      Queues(retryQueue, delayedRetryQueue, retryAttempts, totalAttempts, permanentFailures, lastFailureTime)
    }

    constructor ()
      ensures View() == EmptyQueues()
    {
      retryQueue, delayedRetryQueue, retryAttempts, totalAttempts := [], [], map[], map[];
      permanentFailures, lastFailureTime := [], None;
    }

    method Failed(id: nat, start: nat, end: int, error: ErrorClass, now: int)
      modifies this
      ensures View() == OnChunkFailed(old(View()), id, start, end, error, now)
    {
      if error != Retriable {
        permanentFailures := permanentFailures + [OfChunk(Ticket(id, start, end, now, Count(totalAttempts, id) + 1))];
        retryAttempts := retryAttempts - {id};
        return;
      }
      var total := Count(totalAttempts, id) + 1;
      totalAttempts := totalAttempts[id := total];
      if total > MAX_TOTAL_ATTEMPTS {
        permanentFailures := permanentFailures + [OfChunk(Ticket(id, start, end, now, total))];
        retryAttempts := retryAttempts - {id};
        return;
      }
      var attempt := Count(retryAttempts, id) + 1;
      var isBatch := lastFailureTime.Some? && now - lastFailureTime.value < 500 && |retryQueue| >= 3;
      lastFailureTime := Some(now);
      if attempt <= MAX_RETRIES {
        var readyAt := now + RetryDelay(attempt);
        if isBatch {
          readyAt := readyAt + 200 * (|retryQueue| + 1);
        }
        retryQueue := retryQueue + [Ticket(id, start, end, readyAt, attempt)];
        retryAttempts := retryAttempts[id := attempt];
      } else {
        delayedRetryQueue := delayedRetryQueue
          + [Delayed(Ticket(id, start, end, now, attempt), now + DELAYED_RETRY_DURATION)];
        retryAttempts := retryAttempts - {id};
      }
    }

    method Process(now: int)
      modifies this
      ensures View() == ProcessQueues(old(View()), now)
    {
      while delayedRetryQueue != [] && delayedRetryQueue[0].retryAt <= now
        invariant ProcessQueues(View(), now) == ProcessQueues(old(View()), now)
        decreases |delayedRetryQueue|
      {
        var ripe := delayedRetryQueue[0].chunk.(readyAt := now - RETRY_DELAY, attempts := 0);
        delayedRetryQueue := delayedRetryQueue[1..];
        retryQueue := retryQueue + [ripe];
      }
    }

    /** Removes the first ripe ticket; None exactly when nothing is ripe. */
    method PopReady(now: int) returns (t: Option<Ticket>)
      modifies this`retryQueue
      ensures t == None <==> (forall k | 0 <= k < |old(retryQueue)| :: now < old(retryQueue)[k].readyAt)
      ensures var i := FirstRipe(old(retryQueue), now);
        if t == None then i == |retryQueue| && retryQueue == old(retryQueue)
        else i < |old(retryQueue)| && t == Some(old(retryQueue)[i]) && retryQueue == Remove(old(retryQueue), i)
    {
      var i := 0;
      while i < |retryQueue| && now < retryQueue[i].readyAt
        invariant 0 <= i <= |retryQueue|
        invariant forall k | 0 <= k < i :: now < retryQueue[k].readyAt
      {
        i := i + 1;
      }
      if i == |retryQueue| {
        return None;
      }
      t := Some(retryQueue[i]);
      retryQueue := Remove(retryQueue, i);
    }

    /** The deferral sets the ready time to now; the 2 s back-off its name speaks of is not there. */
    method PushBackWithBackoff(t: Ticket, now: int)
      modifies this`retryQueue
      ensures retryQueue == old(retryQueue) + [t.(readyAt := now)]
    {
      retryQueue := retryQueue + [t.(readyAt := now)];
    }

    method OnDownloadComplete(id: nat)
      modifies this`retryAttempts, this`totalAttempts
      ensures View() == Forget(old(View()), id)
    {
      retryAttempts, totalAttempts := retryAttempts - {id}, totalAttempts - {id};
    }

    method FailStalled(downloaded: nat, total: nat)
      modifies this`permanentFailures
      ensures permanentFailures
           == if old(permanentFailures) != [] then old(permanentFailures) else [Stall(downloaded, total)]
    {
      if permanentFailures == [] {
        permanentFailures := [Stall(downloaded, total)];
      }
    }
  }
}
