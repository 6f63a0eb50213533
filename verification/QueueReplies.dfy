/** What an answer of the queue means: a task that was paused is not started until it is resumed, one that
    was resumed is started next, one that was cancelled never again, and a result settles its task. */
module QueueReplies {
  import opened Ranges
  import opened Queue
  import opened QueueRuns

  /** Task k is where it was, as it was. */
  ghost predicate SameTask(w: World, t: World, k: nat) {
    && (k in t.s.all <==> k in w.s.all) && (k in w.s.all ==> t.s.all[k] == w.s.all[k])
    && (k in t.s.active <==> k in w.s.active) && (k in w.s.active ==> t.s.active[k] == w.s.active[k])
    && (k in t.s.queue <==> k in w.s.queue)
  }

  /** The queue without task id, in the same order. */
  ghost predicate LeftOut(q: seq<nat>, id: nat, r: seq<nat>) {
    if id in q then exists i :: 0 <= i < |q| && q[i] == id && r == Remove(q, i) else r == q
  }

  lemma WithoutLeavesOut(q: seq<nat>, id: nat)
    ensures LeftOut(q, id, Without(q, id))
  {
    if id in q {
      WithoutIsRemoval(q, id);
      PositionHolds(q, id);
    }
  }

  lemma {:induction false} PositionHolds(q: seq<nat>, id: nat)
    requires id in q
    ensures q[Position(q, id)] == id
  {
    if q[0] != id {
      PositionHolds(q[1..], id);
    }
  }

  // ----- pausing

  /** Pausing is granted to tasks that wait, run or are paused already; afterwards the task is paused, waits
      nowhere, and its download does not run. A refusal changes nothing. */
  lemma PauseStops(w: World, id: nat, late: bool)
    requires Placed(w)
    ensures var t, reply := Step(w, Pauses(id, late)), Pause(w.s, id).1;
      && (reply == Done <==> StatusOf(w, id) == Some(Paused) || id in w.s.queue || id in w.s.active)
      && (reply == NotFound <==> StatusOf(w, id) == None)
      && (reply != Done ==> t == w)
      && (reply == Done ==>
            && StatusOf(t, id) == Some(Paused) && t.s.all[id].path == w.s.all[id].path && id in t.paused
            && id !in t.s.queue && id !in t.s.active && !InHand(t, id)
            && (id in w.s.active ==> Job(id, w.s.active[id]) !in t.running))
      && t.s.occupied == w.s.occupied && t.hand == w.hand && t.started == w.started
      && LeftOut(w.s.queue, id, t.s.queue)
      && (forall k | k != id :: SameTask(w, t, k))
  {
    assert PlacedAt(w, id);
    WithoutLeavesOut(w.s.queue, id);
    WithoutKeeps(w.s.queue, id);
    hide Placed, LeftOut;
  }

  // ----- a task that does not start again

  /** Paused or removed, and no resumption of it is among the events. */
  ghost predicate Rests(w: World, es: seq<Event>, id: nat) {
    || StatusOf(w, id) == Some(Removed)
    || (StatusOf(w, id) == Some(Paused) && forall e | e in es :: e != Resumes(id))
  }

  lemma RestStep(w: World, e: Event, id: nat)
    requires Enabled(w, e) && Placed(w)
    requires StatusOf(w, id) == Some(Removed) || (StatusOf(w, id) == Some(Paused) && e != Resumes(id))
    ensures var t := Step(w, e);
      && StatusOf(t, id) in {Some(Paused), Some(Removed)}
      && (StatusOf(w, id) == Some(Removed) ==> StatusOf(t, id) == Some(Removed))
      && (t.started == w.started || exists k :: k != id && t.started == w.started + [k])
      && (forall job | job in t.running && job.id == id :: job in w.running)
  {
    assert PlacedAt(w, id);
    hide Placed, Without;
    match e
    case Takes => assert w.s.queue[0] in w.s.queue;
    case _ =>
  }

  /** However the run goes on, until it is resumed a paused task is not started, and a removed one never. */
  lemma {:induction false} NotStartedUntilResumed(w: World, es: seq<Event>, id: nat)
    requires Legal(w, es) && Placed(w) && Rests(w, es, id)
    ensures var t := After(w, es);
      && w.started <= t.started && id !in t.started[|w.started|..]
      && (forall job | job in t.running && job.id == id :: job in w.running)
      && StatusOf(t, id) in {Some(Paused), Some(Removed)}
    decreases |es|
  {
    hide Step, Placed, Enabled;
    if es != [] {
      var next := Step(w, es[0]);
      assert es[0] in es;
      RestStep(w, es[0], id);
      StepKeepsPlaced(w, es[0]);
      assert forall e | e in es[1..] :: e in es;
      NotStartedUntilResumed(next, es[1..], id);
      var t := After(next, es[1..]);
      assert forall k | k in t.started[|w.started|..] ::
        k in next.started[|w.started|..] || k in t.started[|next.started|..];
    }
  }

  /** From the start of the queue on: a pause that was answered with Done holds until the task is resumed. */
  lemma PauseHolds(max: nat, es: seq<Event>, id: nat, late: bool, more: seq<Event>)
    requires Legal(Start(max), es) && Pause(After(Start(max), es).s, id).1 == Done
    requires Legal(Step(After(Start(max), es), Pauses(id, late)), more) && Resumes(id) !in more
    ensures var w := After(Start(max), es);
      var t := After(Step(w, Pauses(id, late)), more);
      w.started <= t.started && id !in t.started[|w.started|..]
  {
    hide Legal, After, Step, Placed, Pause;
    StartPlaced(max);
    AlwaysPlaced(Start(max), es);
    var w := After(Start(max), es);
    PauseStops(w, id, late);
    StepKeepsPlaced(w, Pauses(id, late));
    NotStartedUntilResumed(Step(w, Pauses(id, late)), more, id);
  }

  // ----- resuming

  /** Exactly a paused task is resumed: it goes to the front. */
  lemma ResumeGoesFirst(w: World, id: nat)
    requires Placed(w)
    ensures var t, reply := Step(w, Resumes(id)), Resume(w.s, id).1;
      && (reply == Done <==> StatusOf(w, id) == Some(Paused))
      && (reply == NotFound <==> StatusOf(w, id) == None)
      && (reply != Done ==> t == w)
      && (reply == Done ==>
            && t.s.queue == [id] + w.s.queue && StatusOf(t, id) == Some(Queued)
            && t.s.all[id].path == w.s.all[id].path)
      && t.s.occupied == w.s.occupied && t.running == w.running && t.hand == w.hand && t.started == w.started
      && (forall k | k != id :: SameTask(w, t, k))
  {
  }

  /** Nothing takes a task, puts another in front, or takes this one out. */
  ghost predicate LeavesFront(e: Event, id: nat) {
    && !e.Takes? && !e.Resumes?
    && (e.Pauses? || e.Cancels? ==> e.id != id)
  }

  lemma {:induction false} FrontStays(w: World, es: seq<Event>, id: nat)
    requires Legal(w, es) && w.s.queue != [] && w.s.queue[0] == id
    requires forall e | e in es :: LeavesFront(e, id)
    ensures var t := After(w, es); t.s.queue != [] && t.s.queue[0] == id && t.started == w.started
    decreases |es|
  {
    hide Step, Enabled, LeavesFront;
    if es != [] {
      assert es[0] in es;
      FrontStep(w, es[0], id);
      assert forall e | e in es[1..] :: e in es;
      FrontStays(Step(w, es[0]), es[1..], id);
    }
  }

  lemma FrontStep(w: World, e: Event, id: nat)
    requires Enabled(w, e) && w.s.queue != [] && w.s.queue[0] == id && LeavesFront(e, id)
    ensures var t := Step(w, e); t.s.queue != [] && t.s.queue[0] == id && t.started == w.started
  {
  }

  /** A resumed task is the next to be started, unless by then another is resumed, or it is paused or
      cancelled again. */
  lemma ResumedIsNext(w: World, id: nat, es: seq<Event>)
    requires Placed(w) && Resume(w.s, id).1 == Done
    requires Legal(Step(w, Resumes(id)), es) && forall e | e in es :: LeavesFront(e, id)
    requires Enabled(After(Step(w, Resumes(id)), es), Takes)
    ensures Step(After(Step(w, Resumes(id)), es), Takes).started == w.started + [id]
    ensures InHand(Step(After(Step(w, Resumes(id)), es), Takes), id)
  {
    hide LeavesFront, Placed;
    ResumeGoesFirst(w, id);
    FrontStays(Step(w, Resumes(id)), es, id);
  }

  // ----- cancelling

  /** Cancelling is refused only in the moment between the pump's two lock sections. Otherwise the task is
      removed for good, waits nowhere, its download does not run, and its path is given up. */
  lemma CancelRemoves(w: World, id: nat, late: bool)
    requires Placed(w)
    ensures var t, reply := Step(w, Cancels(id, late)), Cancel(w.s, id).1;
      && (reply == InvalidState <==> InHand(w, id) && id in w.s.all)
      && (reply == NotFound <==> StatusOf(w, id) == None)
      && (reply != Done || StatusOf(w, id) == Some(Removed) ==> t == w)
      && (reply == Done ==>
            && StatusOf(t, id) == Some(Removed) && id !in t.s.queue && id !in t.s.active && !InHand(t, id)
            && (id in w.s.active ==> Job(id, w.s.active[id]) !in t.running))
      && t.s.occupied == (if reply == Done && StatusOf(w, id) != Some(Removed)
                          then w.s.occupied - {w.s.all[id].path} else w.s.occupied)
      && t.hand == w.hand && t.started == w.started
      && LeftOut(w.s.queue, id, t.s.queue)
      && (forall k | k != id :: SameTask(w, t, k))
  {
    assert PlacedAt(w, id);
    WithoutLeavesOut(w.s.queue, id);
    WithoutKeeps(w.s.queue, id);
    hide Placed, LeftOut;
  }

  // ----- results

  /** A joined result frees the slot and settles the task: Completed or Failed when it was active; a failure
      also fails a task that is queued again or done, and nothing touches a paused or removed one. */
  lemma JoinSettles(w: World, job: Job, ok: bool)
    requires Enabled(w, Joins(job, ok))
    ensures var t, id := Step(w, Joins(job, ok)), job.id;
      && id !in t.s.active && job !in t.ended && t.s.queue == w.s.queue && t.running == w.running
      && t.started == w.started && t.hand == w.hand
      && (StatusOf(w, id) == Some(Active) ==> StatusOf(t, id) == Some(if ok then Completed else Failed))
      && (StatusOf(w, id) in {Some(Queued), Some(Completed), Some(Failed)} ==>
            StatusOf(t, id) == if ok then StatusOf(w, id) else Some(Failed))
      && (StatusOf(w, id) in {None, Some(Paused), Some(Removed)} ==> StatusOf(t, id) == StatusOf(w, id))
      && t.s.occupied == (if StatusOf(t, id) in {Some(Completed), Some(Failed)}
                          then w.s.occupied - {w.s.all[id].path} else w.s.occupied)
      && (forall k | k != id :: SameTask(w, t, k))
  {
  }

  /** When the pump can do nothing, no slot is idle while a task waits. */
  lemma NoIdleSlot(w: World)
    requires Placed(w) && !Enabled(w, Takes) && !Enabled(w, Installs)
    ensures w.s.queue == [] || |w.s.active| == w.s.max
  {
  }
}
