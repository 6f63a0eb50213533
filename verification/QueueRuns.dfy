/** The task queue over whole runs: every interleaving of the pump's two lock sections with
    enqueueing, pausing, resuming, cancelling, and downloads that end, in time or too late. */
module QueueRuns {
  import opened Ranges
  import opened Queue

  /** A started download; its number tells it from earlier ones of the same task. */
  datatype Job = Job(id: nat, number: nat)

  datatype World = World(
    s: State,
    hand: Option<Job>,        // taken and started, not installed yet
    running: set<Job>,
    ended: set<Job>,          // ended with a result that the driver has not looked at yet
    next: nat,                // the next task id
    jobs: nat,                // the next download number
    started: seq<nat>,        // ids in the order they were taken
    paused: set<nat>)         // ids that were ever paused

  /** `late`: the download ends by itself before the abort reaches it. */
  datatype Event =
    | Enqueues(path: nat)
    | Pauses(id: nat, late: bool)
    | Resumes(id: nat)
    | Cancels(id: nat, late: bool)
    | Takes
    | Installs
    | Ends(job: Job)
    | Joins(job: Job, ok: bool)

  predicate Enabled(w: World, e: Event) {
    match e
    case Enqueues(path) => path !in w.s.occupied
    case Takes => w.hand == None && CanTake(w.s)
    case Installs => w.hand.Some?
    case Ends(job) => job in w.running
    case Joins(job, _) => job in w.ended && w.hand == None
    case _ => true
  }

  /** Aborting the download that a task is active with. */
  function Abort(w: World, id: nat, late: bool): World {
    if id !in w.s.active then w
    else
      var job := Job(id, w.s.active[id]);
      w.(running := w.running - {job}, ended := if late && job in w.running then w.ended + {job} else w.ended)
  }

  function Step(w: World, e: Event): World
    requires Enabled(w, e)
  {
    match e
    case Enqueues(path) =>
      w.(s := w.s.(queue := w.s.queue + [w.next], all := w.s.all[w.next := Task(path, Queued)],
                   occupied := w.s.occupied + {path}),
         next := w.next + 1)
    case Pauses(id, late) =>
      var (t, reply) := Pause(w.s, id);
      Abort(w, id, late).(s := t, paused := if reply == Done then w.paused + {id} else w.paused)
    case Resumes(id) => w.(s := Resume(w.s, id).0)
    case Cancels(id, late) => Abort(w, id, late).(s := Cancel(w.s, id).0)
    case Takes =>
      var job := Job(w.s.queue[0], w.jobs);
      w.(s := Take(w.s), hand := Some(job), running := w.running + {job}, jobs := w.jobs + 1,
         started := w.started + [job.id])
    case Installs =>
      var job := w.hand.value;
      w.(s := Install(w.s, job.id, job.number), hand := None,
         running := if TakenBack(w.s, job.id) then w.running - {job} else w.running)
    case Ends(job) => w.(running := w.running - {job}, ended := w.ended + {job})
    case Joins(job, ok) => w.(s := OnComplete(w.s, job.id, ok), ended := w.ended - {job})
  }

  ghost predicate Legal(w: World, es: seq<Event>)
    decreases |es|
  {
    es == [] || (Enabled(w, es[0]) && Legal(Step(w, es[0]), es[1..]))
  }

  ghost function After(w: World, es: seq<Event>): World
    requires Legal(w, es)
    decreases |es|
  {
    if es == [] then w else After(Step(w, es[0]), es[1..])
  }

  function Start(max: nat): World {
    World(State([], map[], map[], {}, max), None, {}, {}, 0, 0, [], {})
  }

  // ----- where a task is

  function StatusOf(w: World, id: nat): Option<Status> {
    if id in w.s.all then Some(w.s.all[id].status) else None
  }

  predicate InHand(w: World, id: nat) {
    w.hand.Some? && w.hand.value.id == id
  }

  ghost predicate NoTwice(q: seq<nat>) {
    forall i, j | 0 <= i < j < |q| :: q[i] != q[j]
  }

  /** A task is queued, active or in the pump's hand, or none of these; and its status says so. */
  ghost predicate PlacedAt(w: World, id: nat) {
    && (id in w.s.queue ==> id !in w.s.active && !InHand(w, id) && StatusOf(w, id) in {Some(Queued), Some(Failed)})
    && (id in w.s.active ==> !InHand(w, id) && StatusOf(w, id) == Some(Active))
    && (InHand(w, id) ==> StatusOf(w, id) == Some(Active))
    && (id in w.s.all ==> id < w.next)
    && (StatusOf(w, id) == Some(Active) ==> id in w.s.active || InHand(w, id))
    && (StatusOf(w, id) == Some(Queued) ==> id in w.s.queue)
  }

  ghost predicate WithinMax(w: World) {
    |w.s.active| + (if w.hand.Some? then 1 else 0) <= w.s.max
  }

  ghost predicate Placed(w: World) {
    NoTwice(w.s.queue) && WithinMax(w) && forall id: nat :: PlacedAt(w, id)
  }

  lemma {:induction false} WithoutKeeps(q: seq<nat>, id: nat)
    requires NoTwice(q)
    ensures NoTwice(Without(q, id))
    ensures forall x :: x in Without(q, id) <==> x in q && x != id
  {
    if q != [] && q[0] != id {
      var tail := q[1..];
      WithoutKeeps(tail, id);
      var r := Without(tail, id);
      assert forall x :: x in q <==> x == q[0] || x in tail;
      assert q[0] !in tail;
      forall k | 0 <= k < |r| ensures r[k] != q[0] {
        assert r[k] in tail;
      }
    } else if q != [] {
      assert forall x :: x in q <==> x == q[0] || x in q[1..];
      assert q[0] !in q[1..];
    }
  }

  lemma PausePlacedAt(w: World, e: Event, id: nat)
    requires e.Pauses? && NoTwice(w.s.queue) && PlacedAt(w, id)
    ensures PlacedAt(Step(w, e), id)
  {
    WithoutKeeps(w.s.queue, e.id);
  }

  lemma CancelPlacedAt(w: World, e: Event, id: nat)
    requires e.Cancels? && NoTwice(w.s.queue) && PlacedAt(w, id)
    ensures PlacedAt(Step(w, e), id)
  {
    CancelAt(w.s, e.id, id);
    hide Cancel, NoTwice;
  }

  /** Cancelling task k leaves another task id where it is; and it changes nothing, or takes k out. */
  lemma CancelAt(s: State, k: nat, id: nat)
    requires NoTwice(s.queue)
    ensures var t := Cancel(s, k).0;
      && (id != k ==> (id in t.queue <==> id in s.queue) && (id in t.active <==> id in s.active))
      && (id in t.all <==> id in s.all) && (id != k && id in s.all ==> t.all[id] == s.all[id])
      && (t == s || (k !in t.active && (k in t.all ==> t.all[k].status == Removed)
                     && (k !in t.queue || (k in s.active && t.queue == s.queue))))
  {
    WithoutKeeps(s.queue, k);
  }

  lemma TakePlacedAt(w: World, id: nat)
    requires Enabled(w, Takes) && NoTwice(w.s.queue) && PlacedAt(w, id)
    ensures PlacedAt(Step(w, Takes), id)
  {
    var q := w.s.queue;
    assert id in q <==> id == q[0] || id in q[1..];
    assert q[0] !in q[1..];
  }

  lemma JoinPlacedAt(w: World, e: Event, id: nat)
    requires Enabled(w, e) && e.Joins? && PlacedAt(w, id)
    ensures PlacedAt(Step(w, e), id)
  {
  }

  lemma OtherPlacedAt(w: World, e: Event, id: nat)
    requires Enabled(w, e) && PlacedAt(w, id)
    requires e.Enqueues? || e.Resumes? || e.Installs? || e.Ends?
    ensures PlacedAt(Step(w, e), id)
  {
  }

  lemma StepPlacedAt(w: World, e: Event, id: nat)
    requires Enabled(w, e) && NoTwice(w.s.queue) && PlacedAt(w, id)
    ensures PlacedAt(Step(w, e), id)
  {
    hide PlacedAt, Step, NoTwice;
    match e
    case Pauses(_, _) => PausePlacedAt(w, e, id);
    case Cancels(_, _) => CancelPlacedAt(w, e, id);
    case Takes => TakePlacedAt(w, id);
    case Joins(_, _) => JoinPlacedAt(w, e, id);
    case _ => OtherPlacedAt(w, e, id);
  }

  lemma StepQueue(w: World, e: Event)
    requires Enabled(w, e) && NoTwice(w.s.queue)
    requires e.Resumes? ==> PlacedAt(w, e.id)
    requires e.Enqueues? ==> PlacedAt(w, w.next)
    ensures NoTwice(Step(w, e).s.queue)
  {
    match e
    case Pauses(k, _) => WithoutKeeps(w.s.queue, k);
    case Cancels(k, _) => WithoutKeeps(w.s.queue, k);
    case _ =>
  }

  lemma StepSize(w: World, e: Event)
    requires Enabled(w, e) && WithinMax(w)
    ensures WithinMax(Step(w, e))
  {
  }

  lemma StepKeepsPlaced(w: World, e: Event)
    requires Enabled(w, e) && Placed(w)
    ensures Placed(Step(w, e))
  {
    hide PlacedAt, Step;
    StepQueue(w, e);
    StepSize(w, e);
    forall id: nat ensures PlacedAt(Step(w, e), id) {
      StepPlacedAt(w, e, id);
    }
  }

  lemma {:induction false} AlwaysPlaced(w: World, es: seq<Event>)
    requires Legal(w, es) && Placed(w)
    ensures Placed(After(w, es))
    decreases |es|
  {
    hide Placed, Step;
    if es != [] {
      StepKeepsPlaced(w, es[0]);
      AlwaysPlaced(Step(w, es[0]), es[1..]);
    }
  }

  lemma StartPlaced(max: nat)
    ensures Placed(Start(max))
  {
  }

  /** In every reachable state: no more than `max` tasks are active or about to be, no task is in two
      places or twice in the queue, and a paused or removed task is in none. */
  lemma PlacesOverRuns(max: nat, es: seq<Event>, id: nat)
    requires Legal(Start(max), es)
    ensures var w := After(Start(max), es);
      && |w.s.active| + (if w.hand.Some? then 1 else 0) <= max
      && NoTwice(w.s.queue)
      && (if id in w.s.queue then 1 else 0) + (if id in w.s.active then 1 else 0)
         + (if InHand(w, id) then 1 else 0) <= 1
      && (StatusOf(w, id) in {Some(Paused), Some(Removed)} ==>
            id !in w.s.queue && id !in w.s.active && !InHand(w, id))
  {
    hide Step, Legal, After;
    StartPlaced(max);
    AlwaysPlaced(Start(max), es);
    MaxStays(Start(max), es);
    assert PlacedAt(After(Start(max), es), id);
  }

  lemma {:induction false} MaxStays(w: World, es: seq<Event>)
    requires Legal(w, es)
    ensures After(w, es).s.max == w.s.max
    decreases |es|
  {
    if es != [] {
      MaxStays(Step(w, es[0]), es[1..]);
    }
  }

  /** The guard of the pump's second lock section never fires: between the two sections a task answers
      pause and cancel with InvalidState and stays Active. */
  lemma NeverTakenBack(max: nat, es: seq<Event>)
    requires Legal(Start(max), es) && After(Start(max), es).hand.Some?
    ensures var w := After(Start(max), es);
      && !TakenBack(w.s, w.hand.value.id)
      && Pause(w.s, w.hand.value.id) == (w.s, InvalidState)
      && Cancel(w.s, w.hand.value.id) == (w.s, InvalidState)
  {
    hide Step, Legal, After;
    StartPlaced(max);
    AlwaysPlaced(Start(max), es);
    var w := After(Start(max), es);
    assert PlacedAt(w, w.hand.value.id) && InHand(w, w.hand.value.id);
  }

  /** Removed is final. */
  lemma {:induction false} RemovedStays(w: World, es: seq<Event>, id: nat)
    requires Legal(w, es) && Placed(w) && StatusOf(w, id) == Some(Removed)
    ensures StatusOf(After(w, es), id) == Some(Removed)
    decreases |es|
  {
    hide Step, Placed;
    if es != [] {
      RemovedStep(w, es[0], id);
      StepKeepsPlaced(w, es[0]);
      RemovedStays(Step(w, es[0]), es[1..], id);
    }
  }

  lemma RemovedStep(w: World, e: Event, id: nat)
    requires Enabled(w, e) && Placed(w) && StatusOf(w, id) == Some(Removed)
    ensures StatusOf(Step(w, e), id) == Some(Removed)
  {
    assert PlacedAt(w, id);
  }

  // ----- first come, first served

  /** Ids that were never paused stand in the order of enqueueing. */
  ghost predicate InOrder(q: seq<nat>, paused: set<nat>) {
    forall i, j | 0 <= i < j < |q| && q[i] !in paused && q[j] !in paused :: q[i] < q[j]
  }

  ghost predicate Lined(w: World) {
    InOrder(w.started + w.s.queue, w.paused) && forall id | id in w.started + w.s.queue :: id < w.next
  }

  ghost predicate PausesKnown(w: World) {
    forall id: nat :: StatusOf(w, id) == Some(Paused) ==> id in w.paused
  }

  ghost predicate Fair(w: World) {
    Lined(w) && PausesKnown(w)
  }

  lemma RemovalInOrder(q: seq<nat>, i: nat, paused: set<nat>)
    requires i < |q| && InOrder(q, paused)
    ensures InOrder(Remove(q, i), paused)
    ensures forall id | id in Remove(q, i) :: id in q
  {
    var r := Remove(q, i);
    assert forall k | 0 <= k < |r| :: r[k] == q[if k < i then k else k + 1];
  }

  function Position(q: seq<nat>, id: nat): (i: nat)
    requires id in q
    ensures i < |q|
  {
    if q[0] == id then 0 else 1 + Position(q[1..], id)
  }

  lemma {:induction false} WithoutIsRemoval(q: seq<nat>, id: nat)
    requires id in q
    ensures Without(q, id) == Remove(q, Position(q, id))
  {
    if q[0] != id {
      WithoutIsRemoval(q[1..], id);
      RemovalBehind([q[0]], q[1..], Position(q[1..], id));
      assert [q[0]] + q[1..] == q;
    }
  }

  lemma WithoutInOrder(a: seq<nat>, q: seq<nat>, id: nat, paused: set<nat>)
    requires InOrder(a + q, paused)
    ensures InOrder(a + Without(q, id), paused)
    ensures forall x | x in a + Without(q, id) :: x in a + q
  {
    hide InOrder, Without, Remove, Position;
    if id in q {
      WithoutIsRemoval(q, id);
      RemovalInOrder(a + q, |a| + Position(q, id), paused);
      RemovalBehind(a, q, Position(q, id));
    }
  }

  lemma FrontInOrder(a: seq<nat>, q: seq<nat>, id: nat, paused: set<nat>)
    requires InOrder(a + q, paused) && id in paused
    ensures InOrder(a + ([id] + q), paused)
    ensures forall x | x in a + ([id] + q) :: x == id || x in a + q
  {
    var r := a + ([id] + q);
    assert forall k | 0 <= k < |r| && k != |a| :: r[k] == (a + q)[if k < |a| then k else k - 1];
  }

  lemma BackInOrder(q: seq<nat>, id: nat, paused: set<nat>)
    requires InOrder(q, paused) && forall x | x in q :: x < id
    ensures InOrder(q + [id], paused)
    ensures forall x | x in q + [id] :: x == id || x in q
  {
    assert forall k | 0 <= k < |q| :: q[k] in q;
  }

  lemma LinedWithout(w: World, e: Event)
    requires (e.Pauses? || e.Cancels?) && Lined(w)
    ensures Lined(Step(w, e))
  {
    WithoutInOrder(w.started, w.s.queue, e.id, w.paused);
  }

  lemma StepKeepsLined(w: World, e: Event)
    requires Enabled(w, e) && Lined(w)
    requires e.Resumes? && StatusOf(w, e.id) == Some(Paused) ==> e.id < w.next && e.id in w.paused
    ensures Lined(Step(w, e))
  {
    hide InOrder, Pause, Cancel;
    match e
    case Pauses(_, _) => LinedWithout(w, e);
    case Cancels(_, _) => LinedWithout(w, e);
    case Resumes(id) =>
      if StatusOf(w, id) == Some(Paused) {
        FrontInOrder(w.started, w.s.queue, id, w.paused);
      }
    case Takes =>
      assert w.started + [w.s.queue[0]] + w.s.queue[1..] == w.started + w.s.queue;
    case Enqueues(_) =>
      BackInOrder(w.started + w.s.queue, w.next, w.paused);
      assert w.started + (w.s.queue + [w.next]) == (w.started + w.s.queue) + [w.next];
    case _ =>
  }

  lemma PauseKnown(w: World, e: Event, id: nat)
    requires Enabled(w, e) && PausesKnown(w) && StatusOf(Step(w, e), id) == Some(Paused)
    ensures id in Step(w, e).paused
  {
    if StatusOf(w, id) == Some(Paused) {
      assert id in w.paused;
    }
  }

  lemma StepKeepsFair(w: World, e: Event)
    requires Enabled(w, e) && Placed(w) && Fair(w)
    ensures Fair(Step(w, e))
  {
    hide Placed, Step, Lined;
    if e.Resumes? && StatusOf(w, e.id) == Some(Paused) {
      PausedIsOld(w, e.id);
    }
    StepKeepsLined(w, e);
    forall id: nat | StatusOf(Step(w, e), id) == Some(Paused) ensures id in Step(w, e).paused {
      PauseKnown(w, e, id);
    }
  }

  lemma PausedIsOld(w: World, id: nat)
    requires Placed(w) && StatusOf(w, id) == Some(Paused)
    ensures id < w.next
  {
    assert PlacedAt(w, id);
  }

  lemma {:induction false} AlwaysFair(w: World, es: seq<Event>)
    requires Legal(w, es) && Placed(w) && Fair(w)
    ensures Fair(After(w, es))
    decreases |es|
  {
    hide Placed, Fair, Step;
    if es != [] {
      StepKeepsPlaced(w, es[0]);
      StepKeepsFair(w, es[0]);
      AlwaysFair(Step(w, es[0]), es[1..]);
    }
  }

  /** Tasks that were never paused are started in the order they were enqueued, each once, and none of
      them is overtaken while it is still queued. */
  lemma FirstComeFirstServed(max: nat, es: seq<Event>, a: nat, b: nat)
    requires Legal(Start(max), es)
    requires var w := After(Start(max), es); a !in w.paused && b !in w.paused && b in w.started
    ensures var w := After(Start(max), es);
      && (a in w.s.queue ==> b < a)
      && (forall i, j | 0 <= i < j < |w.started| && w.started[i] == a && w.started[j] == b :: a < b)
  {
    hide Step, Legal, After;
    StartPlaced(max);
    AlwaysFair(Start(max), es);
    var w := After(Start(max), es);
    var all := w.started + w.s.queue;
    assert forall k | 0 <= k < |w.started| :: all[k] == w.started[k];
    assert forall k | 0 <= k < |w.s.queue| :: all[|w.started| + k] == w.s.queue[k];
  }

  // ----- what a late result can break

  predicate Live(w: World, id: nat) {
    StatusOf(w, id) in {Some(Queued), Some(Active), Some(Paused)}
  }

  /** Every running download is the one its task is active with, or the one in hand. */
  ghost predicate Accounted(w: World) {
    forall job | job in w.running ::
      (job.id in w.s.active && w.s.active[job.id] == job.number) || w.hand == Some(job)
  }

  ghost predicate LivePaths(w: World) {
    && (forall id | id in w.s.queue :: StatusOf(w, id) == Some(Queued))
    && (forall id | Live(w, id) :: w.s.all[id].path in w.s.occupied)
    && (forall a, b | Live(w, a) && Live(w, b) && a != b :: w.s.all[a].path != w.s.all[b].path)
  }

  /** Still going on: by its status, or because a download of it runs. */
  ghost predicate GoingOn(w: World, id: nat) {
    id in w.s.all && (Live(w, id) || exists number :: Job(id, number) in w.running)
  }

  /** Tasks that are going on have paths of their own, and these are occupied. */
  ghost predicate OwnPaths(w: World) {
    && LivePaths(w)
    && (forall id | GoingOn(w, id) :: w.s.all[id].path in w.s.occupied)
    && (forall a, b | GoingOn(w, a) && GoingOn(w, b) && a != b :: w.s.all[a].path != w.s.all[b].path)
  }

  ghost predicate PathUnused(w: World, path: nat) {
    forall id | Live(w, id) :: w.s.all[id].path != path
  }

  /** The joined result does not belong to an earlier download of a task that is running again. */
  ghost predicate NotStale(w: World, job: Job) {
    !(job.id in w.s.active && Job(job.id, w.s.active[job.id]) in w.running)
  }

  /** No result fails a task that is queued again, and no path is given up for a task that no longer
      owns it. */
  ghost predicate KeepsPaths(w: World, e: Event) {
    match e
    case Joins(job, ok) =>
      && (StatusOf(w, job.id) == Some(Queued) ==> ok)
      && (StatusOf(w, job.id) in {Some(Completed), Some(Failed)} ==> PathUnused(w, w.s.all[job.id].path))
    case Cancels(id, _) =>
      id !in w.s.active && StatusOf(w, id) in {Some(Completed), Some(Failed)} ==> PathUnused(w, w.s.all[id].path)
    case _ => true
  }

  /** Exactly a stale result lets a download run on that its task no longer counts as active. */
  lemma AccountedIff(w: World, e: Event)
    requires Enabled(w, e) && Placed(w) && Accounted(w)
    ensures Accounted(Step(w, e)) <==> (e.Joins? ==> NotStale(w, e.job))
  {
    match e
    case Installs => assert PlacedAt(w, w.hand.value.id) && InHand(w, w.hand.value.id);
    case Takes => assert PlacedAt(w, w.s.queue[0]);
    case Joins(job, ok) =>
      if !NotStale(w, job) {
        assert Job(job.id, w.s.active[job.id]) in Step(w, e).running;
      }
    case _ =>
  }

  lemma {:induction false} JobsOf(active: map<nat, nat>)
    ensures |set id | id in active :: Job(id, active[id])| <= |active|
    decreases |active|
  {
    var js := set id | id in active :: Job(id, active[id]);
    if js == {} {
    } else {
      var job :| job in js;
      var rest := active - {job.id};
      var others := set id | id in rest :: Job(id, rest[id]);
      JobsOf(rest);
      forall j | j in js ensures j in others + {job} {
        assert j != job ==> j.id in rest;
      }
      assert js == others + {job};
    }
  }

  /** As long as every running download is accounted for, no more than `max` run. */
  lemma AccountedWithinMax(w: World)
    requires Placed(w) && Accounted(w)
    ensures |w.running| <= w.s.max
  {
    var js := set id | id in w.s.active :: Job(id, w.s.active[id]);
    var hand := if w.hand.Some? then {w.hand.value} else {};
    JobsOf(w.s.active);
    assert w.running <= js + hand;
    SubsetSize(w.running, js + hand);
  }

  lemma {:induction false} SubsetSize(a: set<Job>, b: set<Job>)
    requires a <= b
    ensures |a| <= |b|
    decreases a
  {
    if a != {} {
      var x :| x in a;
      SubsetSize(a - {x}, b - {x});
    }
  }

  lemma JoinPathsIff(w: World, e: Event)
    requires Enabled(w, e) && e.Joins? && PlacedAt(w, e.job.id) && LivePaths(w)
    ensures LivePaths(Step(w, e)) <==> KeepsPaths(w, e)
  {
    hide Step, LivePaths, KeepsPaths;
    if KeepsPaths(w, e) {
      JoinKeepsPaths(w, e);
    } else {
      JoinLosesPath(w, e);
    }
  }

  lemma JoinKeepsPaths(w: World, e: Event)
    requires Enabled(w, e) && e.Joins? && PlacedAt(w, e.job.id) && LivePaths(w) && KeepsPaths(w, e)
    ensures LivePaths(Step(w, e))
  {
    hide Step;
    JoinChanges(w, e);
  }

  lemma JoinLosesPath(w: World, e: Event)
    requires Enabled(w, e) && e.Joins? && PlacedAt(w, e.job.id) && LivePaths(w) && !KeepsPaths(w, e)
    ensures !LivePaths(Step(w, e))
  {
    hide Step;
    var t, id := Step(w, e), e.job.id;
    JoinChanges(w, e);
    if StatusOf(w, id) in {Some(Completed), Some(Failed)} {
      var k :| Live(w, k) && w.s.all[k].path == w.s.all[id].path;
      assert Live(t, k) && t.s.all[k].path !in t.s.occupied;
    }
  }

  /** A joined result ends a task and gives up its path, or changes nothing that LivePaths looks at. */
  lemma JoinChanges(w: World, e: Event)
    requires Enabled(w, e) && e.Joins?
    ensures var t, id := Step(w, e), e.job.id;
      && t.s.queue == w.s.queue
      && (forall k | k != id :: StatusOf(t, k) == StatusOf(w, k))
      && (forall k | k in w.s.all :: k in t.s.all && t.s.all[k].path == w.s.all[k].path)
      && (if StatusOf(w, id) in {Some(Active), Some(Completed), Some(Failed)}
             || (StatusOf(w, id) == Some(Queued) && !e.ok)
          then StatusOf(t, id) in {Some(Completed), Some(Failed)} && t.s.occupied == w.s.occupied - {w.s.all[id].path}
          else t.s.occupied == w.s.occupied && StatusOf(t, id) == StatusOf(w, id))
  {
  }

  lemma CancelPathsIff(w: World, e: Event)
    requires Enabled(w, e) && e.Cancels? && PlacedAt(w, e.id) && NoTwice(w.s.queue) && LivePaths(w)
    ensures LivePaths(Step(w, e)) <==> KeepsPaths(w, e)
  {
    var t, id := Step(w, e), e.id;
    CancelTakesOut(w, e);
    hide Step, NoTwice, PlacedAt;
    if !KeepsPaths(w, e) {
      var k :| Live(w, k) && w.s.all[k].path == w.s.all[id].path;
      assert Live(t, k) && t.s.all[k].path !in t.s.occupied;
    }
  }

  /** Cancelling removes a task and gives up its path, or changes nothing that LivePaths looks at. */
  lemma CancelTakesOut(w: World, e: Event)
    requires e.Cancels? && PlacedAt(w, e.id) && NoTwice(w.s.queue)
    ensures var t := Step(w, e);
      && (forall k | k != e.id :: StatusOf(t, k) == StatusOf(w, k))
      && (forall k | k in w.s.all :: k in t.s.all && t.s.all[k].path == w.s.all[k].path)
      && (forall k | k in t.s.queue :: k in w.s.queue && k != e.id)
      && (if (Live(w, e.id) && !InHand(w, e.id)) || StatusOf(w, e.id) in {Some(Completed), Some(Failed)}
          then !Live(t, e.id) && t.s.occupied == w.s.occupied - {w.s.all[e.id].path}
          else t.s.occupied == w.s.occupied && StatusOf(t, e.id) == StatusOf(w, e.id))
  {
    WithoutKeeps(w.s.queue, e.id);
  }

  lemma PausePaths(w: World, e: Event)
    requires e.Pauses? && PlacedAt(w, e.id) && NoTwice(w.s.queue) && LivePaths(w)
    ensures LivePaths(Step(w, e))
  {
    WithoutKeeps(w.s.queue, e.id);
    assert forall k :: Live(Step(w, e), k) <==> Live(w, k);
  }

  lemma EnqueuePaths(w: World, e: Event)
    requires Enabled(w, e) && e.Enqueues? && PlacedAt(w, w.next) && LivePaths(w)
    ensures LivePaths(Step(w, e))
  {
  }

  lemma TakePaths(w: World)
    requires Enabled(w, Takes) && NoTwice(w.s.queue) && LivePaths(w)
    ensures LivePaths(Step(w, Takes))
  {
    assert forall x :: x in w.s.queue <==> x == w.s.queue[0] || x in w.s.queue[1..];
    assert forall k :: Live(Step(w, Takes), k) <==> Live(w, k);
  }

  lemma OtherPaths(w: World, e: Event)
    requires Enabled(w, e) && LivePaths(w) && (e.Resumes? || e.Installs? || e.Ends?)
    ensures LivePaths(Step(w, e))
  {
    assert forall k :: Live(Step(w, e), k) <==> Live(w, k);
  }

  lemma LivePathsIff(w: World, e: Event)
    requires Enabled(w, e) && Placed(w) && LivePaths(w)
    ensures LivePaths(Step(w, e)) <==> KeepsPaths(w, e)
  {
    hide LivePaths, Step, PlacedAt;
    match e
    case Joins(job, _) =>
      assert PlacedAt(w, job.id);
      JoinPathsIff(w, e);
    case Cancels(id, _) =>
      assert PlacedAt(w, id);
      CancelPathsIff(w, e);
    case Pauses(id, _) =>
      assert PlacedAt(w, id);
      PausePaths(w, e);
    case Enqueues(_) =>
      assert PlacedAt(w, w.next);
      EnqueuePaths(w, e);
    case Takes => TakePaths(w);
    case _ => OtherPaths(w, e);
  }

  /** When every running download is accounted for, what is going on is what its status says. */
  lemma AccountedGoesOn(w: World, id: nat)
    requires Placed(w) && Accounted(w)
    ensures GoingOn(w, id) <==> Live(w, id)
  {
    assert PlacedAt(w, id);
  }

  lemma AccountedOwnPaths(w: World)
    requires Placed(w) && Accounted(w)
    ensures OwnPaths(w) <==> LivePaths(w)
  {
    hide Placed, Accounted, GoingOn, Live;
    forall id ensures GoingOn(w, id) <==> Live(w, id) {
      AccountedGoesOn(w, id);
    }
    LiveKnown(w);
  }

  lemma LiveKnown(w: World)
    ensures forall id | Live(w, id) :: id in w.s.all
  {
  }

  /** A stale result takes the path away from a task whose download runs. */
  lemma StaleLosesPath(w: World, e: Event)
    requires Enabled(w, e) && e.Joins? && PlacedAt(w, e.job.id) && !NotStale(w, e.job)
    ensures !OwnPaths(Step(w, e))
  {
    var t, id := Step(w, e), e.job.id;
    assert Job(id, w.s.active[id]) in t.running;
    assert GoingOn(t, id) && t.s.all[id].path !in t.s.occupied;
  }

  /** Not a step that takes from a task what belongs to it: a stale result, a failure of a task that is
      queued again, or giving up a path that another task has by now. */
  ghost predicate Harmless(w: World, e: Event) {
    (e.Joins? ==> NotStale(w, e.job)) && KeepsPaths(w, e)
  }

  /** Exactly those steps make two tasks that are going on share a path, or one of them lose its path. */
  lemma OwnPathsIff(w: World, e: Event)
    requires Enabled(w, e) && Placed(w) && Accounted(w) && OwnPaths(w)
    ensures OwnPaths(Step(w, e)) <==> Harmless(w, e)
  {
    hide OwnPaths, LivePaths, Step, Accounted, PlacedAt, NotStale, KeepsPaths;
    AccountedOwnPaths(w);
    LivePathsIff(w, e);
    StepKeepsPlaced(w, e);
    if e.Joins? && !NotStale(w, e.job) {
      assert PlacedAt(w, e.job.id);
      StaleLosesPath(w, e);
    } else {
      AccountedIff(w, e);
      AccountedOwnPaths(Step(w, e));
    }
  }

  ghost predicate Tidy(w: World, es: seq<Event>)
    requires Legal(w, es)
    decreases |es|
  {
    es == [] || (Harmless(w, es[0]) && Tidy(Step(w, es[0]), es[1..]))
  }

  lemma {:induction false} TidyStays(w: World, es: seq<Event>)
    requires Legal(w, es) && Tidy(w, es) && Placed(w) && Accounted(w) && OwnPaths(w)
    ensures Placed(After(w, es)) && Accounted(After(w, es)) && OwnPaths(After(w, es))
    decreases |es|
  {
    hide Placed, Accounted, OwnPaths, Step, NotStale, KeepsPaths;
    if es != [] {
      StepKeepsPlaced(w, es[0]);
      AccountedIff(w, es[0]);
      OwnPathsIff(w, es[0]);
      TidyStays(Step(w, es[0]), es[1..]);
    }
  }

  /** In a run of such steps no more than `max` downloads that were not aborted run, and tasks that are
      queued, active, paused or downloading have different paths. */
  lemma TidyRuns(max: nat, es: seq<Event>, a: nat, b: nat)
    requires Legal(Start(max), es) && Tidy(Start(max), es)
    ensures var w := After(Start(max), es);
      && |w.running| <= max
      && (GoingOn(w, a) && GoingOn(w, b) && a != b ==> w.s.all[a].path != w.s.all[b].path)
  {
    hide Legal, After, Tidy, Step;
    StartPlaced(max);
    TidyStays(Start(max), es);
    MaxStays(Start(max), es);
    AccountedWithinMax(After(Start(max), es));
  }

  /** A download ends just before its task is paused; the task is resumed and started again; then the
      old result is joined. */
  function StaleRun(): seq<Event> {
    [Enqueues(0), Takes, Installs, Ends(Job(0, 0)), Pauses(0, false), Resumes(0), Takes, Installs,
     Joins(Job(0, 0), true), Enqueues(1), Takes]
  }

  lemma RunStep(w: World, e: Event, es: seq<Event>)
    requires es != [] && es[0] == e && Enabled(w, e)
    ensures Legal(w, es) <==> Legal(Step(w, e), es[1..])
    ensures Legal(w, es) ==> After(w, es) == After(Step(w, e), es[1..])
  {
  }

  /** The world of that run while it only has its first task. */
  function One(status: Status, queue: seq<nat>, active: map<nat, nat>, hand: Option<Job>, running: set<Job>,
               ended: set<Job>, jobs: nat, started: seq<nat>, paused: set<nat>): World
  {
    World(State(queue, active, map[0 := Task(0, status)], if status == Completed then {} else {0}, 1),
          hand, running, ended, 1, jobs, started, paused)
  }

  lemma StaleBeginSteps()
    ensures Step(Start(1), Enqueues(0)) == One(Queued, [0], map[], None, {}, {}, 0, [], {})
    ensures Step(One(Queued, [0], map[], None, {}, {}, 0, [], {}), Takes)
         == One(Active, [], map[], Some(Job(0, 0)), {Job(0, 0)}, {}, 1, [0], {})
    ensures Step(One(Active, [], map[], Some(Job(0, 0)), {Job(0, 0)}, {}, 1, [0], {}), Installs)
         == One(Active, [], map[0 := 0], None, {Job(0, 0)}, {}, 1, [0], {})
    ensures Step(One(Active, [], map[0 := 0], None, {Job(0, 0)}, {}, 1, [0], {}), Ends(Job(0, 0)))
         == One(Active, [], map[0 := 0], None, {}, {Job(0, 0)}, 1, [0], {})
  {
  }

  lemma StaleBegins()
    ensures var es := StaleRun()[..4];
      Legal(Start(1), es) && After(Start(1), es) == One(Active, [], map[0 := 0], None, {}, {Job(0, 0)}, 1, [0], {})
  {
    hide Legal, After, Step;
    var es := StaleRun()[..4];
    var w1 := One(Queued, [0], map[], None, {}, {}, 0, [], {});
    var w2 := One(Active, [], map[], Some(Job(0, 0)), {Job(0, 0)}, {}, 1, [0], {});
    var w3 := One(Active, [], map[0 := 0], None, {Job(0, 0)}, {}, 1, [0], {});
    var w4 := One(Active, [], map[0 := 0], None, {}, {Job(0, 0)}, 1, [0], {});
    StaleBeginSteps();
    RunStep(Start(1), es[0], es);
    RunStep(w1, es[1], es[1..]);
    RunStep(w2, es[2], es[1..][1..]);
    RunStep(w3, es[3], es[1..][1..][1..]);
    RunEnds(w4, es[1..][1..][1..][1..]);
  }

  lemma RunEnds(w: World, es: seq<Event>)
    requires es == []
    ensures Legal(w, es) && After(w, es) == w
  {
  }

  lemma StaleResumeSteps()
    ensures Step(One(Active, [], map[0 := 0], None, {}, {Job(0, 0)}, 1, [0], {}), Pauses(0, false))
         == One(Paused, [], map[], None, {}, {Job(0, 0)}, 1, [0], {0})
    ensures Step(One(Paused, [], map[], None, {}, {Job(0, 0)}, 1, [0], {0}), Resumes(0))
         == One(Queued, [0], map[], None, {}, {Job(0, 0)}, 1, [0], {0})
  {
  }

  lemma StaleRestartSteps()
    ensures Step(One(Queued, [0], map[], None, {}, {Job(0, 0)}, 1, [0], {0}), Takes)
         == One(Active, [], map[], Some(Job(0, 1)), {Job(0, 1)}, {Job(0, 0)}, 2, [0, 0], {0})
    ensures Step(One(Active, [], map[], Some(Job(0, 1)), {Job(0, 1)}, {Job(0, 0)}, 2, [0, 0], {0}), Installs)
         == One(Active, [], map[0 := 1], None, {Job(0, 1)}, {Job(0, 0)}, 2, [0, 0], {0})
  {
  }

  lemma StaleRestarts()
    ensures var es := StaleRun()[4..8];
      var w := One(Active, [], map[0 := 0], None, {}, {Job(0, 0)}, 1, [0], {});
      Legal(w, es) && After(w, es) == One(Active, [], map[0 := 1], None, {Job(0, 1)}, {Job(0, 0)}, 2, [0, 0], {0})
  {
    hide Legal, After, Step;
    var es := StaleRun()[4..8];
    var w4 := One(Active, [], map[0 := 0], None, {}, {Job(0, 0)}, 1, [0], {});
    var w5 := One(Paused, [], map[], None, {}, {Job(0, 0)}, 1, [0], {0});
    var w6 := One(Queued, [0], map[], None, {}, {Job(0, 0)}, 1, [0], {0});
    var w7 := One(Active, [], map[], Some(Job(0, 1)), {Job(0, 1)}, {Job(0, 0)}, 2, [0, 0], {0});
    var w8 := One(Active, [], map[0 := 1], None, {Job(0, 1)}, {Job(0, 0)}, 2, [0, 0], {0});
    StaleResumeSteps();
    StaleRestartSteps();
    RunStep(w4, es[0], es);
    RunStep(w5, es[1], es[1..]);
    RunStep(w6, es[2], es[1..][1..]);
    RunStep(w7, es[3], es[1..][1..][1..]);
    RunEnds(w8, es[1..][1..][1..][1..]);
  }

  function StaleEnd(): World {
    One(Completed, [], map[], None, {Job(0, 1)}, {}, 2, [0, 0], {0})
  }

  function StaleNext(): World {
    World(State([1], map[], map[0 := Task(0, Completed), 1 := Task(1, Queued)], {1}, 1), None, {Job(0, 1)}, {},
          2, 2, [0, 0], {0})
  }

  lemma StaleJoinStep()
    ensures var w8 := One(Active, [], map[0 := 1], None, {Job(0, 1)}, {Job(0, 0)}, 2, [0, 0], {0});
      Enabled(w8, Joins(Job(0, 0), true)) && Step(w8, Joins(Job(0, 0), true)) == StaleEnd()
    ensures Enabled(StaleEnd(), Enqueues(1)) && Step(StaleEnd(), Enqueues(1)) == StaleNext()
  {
  }

  lemma StaleTakeStep()
    ensures Enabled(StaleNext(), Takes)
    ensures Step(StaleNext(), Takes).running == {Job(0, 1), Job(1, 2)}
    ensures StatusOf(Step(StaleNext(), Takes), 0) == Some(Completed)
  {
  }

  lemma StaleJoins()
    ensures var es := StaleRun()[8..];
      var w := One(Active, [], map[0 := 1], None, {Job(0, 1)}, {Job(0, 0)}, 2, [0, 0], {0});
      && Legal(w, es)
      && After(w, es).running == {Job(0, 1), Job(1, 2)} && StatusOf(After(w, es), 0) == Some(Completed)
  {
    hide Legal, After, Step, StaleEnd, StaleNext;
    StaleJoinStep();
    StaleTakeStep();
    var es := StaleRun()[8..];
    var w8 := One(Active, [], map[0 := 1], None, {Job(0, 1)}, {Job(0, 0)}, 2, [0, 0], {0});
    RunStep(w8, es[0], es);
    RunStep(StaleEnd(), es[1], es[1..]);
    RunStep(StaleNext(), es[2], es[1..][1..]);
    RunEnds(Step(StaleNext(), es[2]), es[1..][1..][1..]);
  }

  lemma {:induction false} RunJoins(w: World, es: seq<Event>, more: seq<Event>)
    requires Legal(w, es)
    ensures Legal(w, es + more) <==> Legal(After(w, es), more)
    ensures Legal(w, es + more) ==> After(w, es + more) == After(After(w, es), more)
    decreases |es|
  {
    hide Step;
    if es == [] {
      assert es + more == more;
    } else {
      RunJoins(Step(w, es[0]), es[1..], more);
      assert (es + more)[1..] == es[1..] + more;
    }
  }

  /** After it, two downloads run although one is the limit, and a task whose download is running
      counts as completed. */
  lemma StaleRunExceedsMax()
    ensures Legal(Start(1), StaleRun())
    ensures var w := After(Start(1), StaleRun());
      w.running == {Job(0, 1), Job(1, 2)} && |w.running| > w.s.max && StatusOf(w, 0) == Some(Completed)
  {
    hide Legal, After, Step;
    var es := StaleRun();
    StaleBegins();
    StaleRestarts();
    StaleJoins();
    RunJoins(One(Active, [], map[0 := 0], None, {}, {Job(0, 0)}, 1, [0], {}), es[4..8], es[8..]);
    RunJoins(Start(1), es[..4], es[4..8] + es[8..]);
    assert es[..4] + (es[4..8] + es[8..]) == es;
    MaxStays(Start(1), es);
  }

  /** A download fails just before its task is paused; the task is resumed, and then the old failure is
      joined. The failed task stays in the queue without its path, which the next task gets. */
  function SharedPathRun(): seq<Event> {
    [Enqueues(0), Takes, Installs, Ends(Job(0, 0)), Pauses(0, false), Resumes(0), Joins(Job(0, 0), false),
     Enqueues(0), Takes]
  }

  lemma SharedPathEnds()
    ensures var es := SharedPathRun()[4..];
      var w := One(Active, [], map[0 := 0], None, {}, {Job(0, 0)}, 1, [0], {});
      && Legal(w, es)
      && After(w, es).s.all == map[0 := Task(0, Active), 1 := Task(0, Queued)]
  {
    hide Legal, After, Step, FailedInQueue, SharedNext;
    StaleResumeSteps();
    SharedJoinStep();
    SharedTakeStep();
    var es := SharedPathRun()[4..];
    var w4 := One(Active, [], map[0 := 0], None, {}, {Job(0, 0)}, 1, [0], {});
    var w5 := One(Paused, [], map[], None, {}, {Job(0, 0)}, 1, [0], {0});
    var w6 := One(Queued, [0], map[], None, {}, {Job(0, 0)}, 1, [0], {0});
    RunStep(w4, es[0], es);
    RunStep(w5, es[1], es[1..]);
    RunStep(w6, es[2], es[1..][1..]);
    RunStep(FailedInQueue(), es[3], es[1..][1..][1..]);
    RunStep(SharedNext(), es[4], es[1..][1..][1..][1..]);
    RunEnds(Step(SharedNext(), es[4]), es[1..][1..][1..][1..][1..]);
  }

  function FailedInQueue(): World {
    World(State([0], map[], map[0 := Task(0, Failed)], {}, 1), None, {}, {}, 1, 1, [0], {0})
  }

  function SharedNext(): World {
    World(State([0, 1], map[], map[0 := Task(0, Failed), 1 := Task(0, Queued)], {0}, 1), None, {}, {},
          2, 1, [0], {0})
  }

  lemma SharedJoinStep()
    ensures var w6 := One(Queued, [0], map[], None, {}, {Job(0, 0)}, 1, [0], {0});
      Enabled(w6, Joins(Job(0, 0), false)) && Step(w6, Joins(Job(0, 0), false)) == FailedInQueue()
    ensures Enabled(FailedInQueue(), Enqueues(0)) && Step(FailedInQueue(), Enqueues(0)) == SharedNext()
  {
  }

  lemma SharedTakeStep()
    ensures Enabled(SharedNext(), Takes)
    ensures Step(SharedNext(), Takes).s.all == map[0 := Task(0, Active), 1 := Task(0, Queued)]
  {
  }

  /** After it, two tasks that are going on have the same path. */
  lemma SharedPathRunCollides()
    ensures Legal(Start(1), SharedPathRun())
    ensures var w := After(Start(1), SharedPathRun());
      Live(w, 0) && Live(w, 1) && w.s.all[0].path == w.s.all[1].path
  {
    hide Legal, After, Step;
    var es := SharedPathRun();
    StaleBegins();
    SharedPathEnds();
    assert es[..4] == StaleRun()[..4];
    RunJoins(Start(1), es[..4], es[4..]);
    assert es[..4] + es[4..] == es;
  }
}
