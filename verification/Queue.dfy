/** The task queue (src/queue.rs). A pump takes a task under one lock and installs it under another;
    in between, and around it, the public operations and finished downloads interleave freely. Ids
    stand for the order of enqueueing, paths for themselves. */
module Queue {
  import opened Ranges

  datatype Status = Queued | Active | Paused | Completed | Failed | Removed

  datatype Task = Task(path: nat, status: Status)

  /** `active` maps a task to the download that was started for it. */
  datatype State = State(queue: seq<nat>, active: map<nat, nat>, all: map<nat, Task>, occupied: set<nat>, max: nat)

  datatype Reply = Done | InvalidState | NotFound

  // ----- the operations under the lock

  function Mark(s: State, id: nat, status: Status): State {
    if id in s.all then s.(all := s.all[id := s.all[id].(status := status)]) else s
  }

  function Vacate(s: State, id: nat): State {
    if id in s.all then s.(occupied := s.occupied - {s.all[id].path}) else s
  }

  function Without(q: seq<nat>, id: nat): (r: seq<nat>)
    ensures id !in q ==> r == q
  {
    if q == [] then [] else if q[0] == id then q[1..] else [q[0]] + Without(q[1..], id)
  }

  function Pause(s: State, id: nat): (State, Reply) {
    if id in s.active then (Mark(s.(active := s.active - {id}), id, Paused), Done)
    else if id in s.queue then (Mark(s.(queue := Without(s.queue, id)), id, Paused), Done)
    else if id !in s.all then (s, NotFound)
    else (s, if s.all[id].status == Paused then Done else InvalidState)
  }

  function Resume(s: State, id: nat): (State, Reply) {
    if id !in s.all then (s, NotFound)
    else if s.all[id].status != Paused then (s, InvalidState)
    else (Mark(s.(queue := [id] + s.queue), id, Queued), Done)
  }

  function Cancel(s: State, id: nat): (State, Reply) {
    var gone := Vacate(Mark(s, id, Removed), id);
    if id in s.active then (gone.(active := s.active - {id}), Done)
    else if id in s.queue then (gone.(queue := Without(s.queue, id)), Done)
    else if id !in s.all then (s, NotFound)
    else match s.all[id].status
      case Paused => (gone, Done)
      case Removed => (s, Done)
      case Completed => (gone, Done)
      case Failed => (gone, Done)
      case _ => (s, InvalidState)
  }

  predicate CanTake(s: State) {
    |s.active| < s.max && s.queue != []
  }

  function Take(s: State): State
    requires CanTake(s)
  {
    Mark(s.(queue := s.queue[1..]), s.queue[0], Active)
  }

  /** The guard of the second lock section: the task was taken back in between. */
  predicate TakenBack(s: State, id: nat) {
    id in s.all && s.all[id].status in {Removed, Paused}
  }

  function Install(s: State, id: nat, download: nat): State {
    if TakenBack(s, id) then s else s.(active := s.active[id := download])
  }

  function OnComplete(s: State, id: nat, ok: bool): State {
    var off := s.(active := s.active - {id});
    if id !in s.all then off
    else
      var was := s.all[id].status;
      var now := if ok then (if was == Active then Completed else was)
                else if was != Removed && was != Paused then Failed else was;
      var marked := Mark(off, id, now);
      if now in {Completed, Failed} then Vacate(marked, id) else marked
  }

  // ----- the mutable queue

  class TaskQueue {
    const max: nat
    var queue: seq<nat>
    var active: map<nat, nat>
    var all: map<nat, Task>
    var occupied: set<nat>

    function View(): State
      reads this
    {
      State(queue, active, all, occupied, max)
    }

    constructor (maxConcurrent: nat)
      ensures View() == State([], map[], map[], {}, Max(1, Min(maxConcurrent, 64)))
    {
      max := Max(1, Min(maxConcurrent, 64));
      queue, active, all, occupied := [], map[], map[], {};
    }

    /** The locked part of one round of enqueueing; a path that is taken leads to another round. */
    method TryEnqueue(id: nat, path: nat, onDisk: bool) returns (ok: bool)
      modifies this
      ensures ok <==> path !in old(occupied) && !onDisk
      ensures View() == if ok then State(old(queue) + [id], old(active), old(all)[id := Task(path, Queued)],
                                         old(occupied) + {path}, max)
                        else old(View())
    {
      if path in occupied || onDisk {
        return false;
      }
      occupied := occupied + {path};
      queue := queue + [id];
      all := all[id := Task(path, Queued)];
      return true;
    }

    method SetStatus(id: nat, status: Status)
      modifies this`all
      ensures View() == Mark(old(View()), id, status)
    {
      if id in all {
        all := all[id := all[id].(status := status)];
      }
    }

    method RemoveQueued(id: nat) returns (found: bool)
      modifies this`queue
      ensures found <==> id in old(queue)
      ensures queue == Without(old(queue), id)
    {
      var pos := 0;
      while pos < |queue| && queue[pos] != id
        invariant pos <= |queue| && id !in queue[..pos]
        invariant Without(queue, id) == queue[..pos] + Without(queue[pos..], id)
      {
        assert queue[..pos] + ([queue[pos]] + Without(queue[pos..][1..], id))
            == queue[..pos + 1] + Without(queue[pos + 1..], id);
        pos := pos + 1;
      }
      if pos == |queue| {
        return false;
      }
      queue := queue[..pos] + queue[pos + 1..];
      return true;
    }

    method PauseTask(id: nat) returns (reply: Reply)
      modifies this
      ensures (View(), reply) == Pause(old(View()), id)
    {
      if id in active {
        active := active - {id};
        SetStatus(id, Paused);
        return Done;
      }
      var found := RemoveQueued(id);
      if found {
        SetStatus(id, Paused);
        return Done;
      }
      if id !in all {
        return NotFound;
      }
      return if all[id].status == Paused then Done else InvalidState;
    }

    method ResumeTask(id: nat) returns (reply: Reply)
      modifies this
      ensures (View(), reply) == Resume(old(View()), id)
    {
      if id !in all {
        return NotFound;
      }
      if all[id].status != Paused {
        return InvalidState;
      }
      SetStatus(id, Queued);
      queue := [id] + queue;
      return Done;
    }

    method Release(id: nat)
      modifies this`all, this`occupied
      ensures View() == Vacate(Mark(old(View()), id, Removed), id)
    {
      SetStatus(id, Removed);
      if id in all {
        occupied := occupied - {all[id].path};
      }
    }

    method CancelTask(id: nat) returns (reply: Reply)
      modifies this
      ensures (View(), reply) == Cancel(old(View()), id)
    {
      if id in active {
        active := active - {id};
        Release(id);
        return Done;
      }
      var found := RemoveQueued(id);
      if found {
        Release(id);
        return Done;
      }
      if id !in all {
        return NotFound;
      }
      match all[id].status {
        case Removed =>
          return Done;
        case Queued =>
          return InvalidState;
        case Active =>
          return InvalidState;
        case _ =>
          Release(id);
          return Done;
      }
    }

    /** The pump's first lock section. */
    method TakeNext() returns (taken: Option<nat>)
      modifies this
      ensures taken.Some? <==> CanTake(old(View()))
      ensures View() == if taken.Some? then Take(old(View())) else old(View())
      ensures taken.Some? ==> taken.value == old(queue)[0]
    {
      if |active| >= max || queue == [] {
        return None;
      }
      taken := Some(queue[0]);
      SetStatus(queue[0], Active);
      queue := queue[1..];
    }

    /** The pump's second lock section. */
    method InstallTask(id: nat, download: nat) returns (kept: bool)
      modifies this`active
      ensures kept <==> !TakenBack(old(View()), id)
      ensures View() == Install(old(View()), id, download)
    {
      if id in all && (all[id].status == Removed || all[id].status == Paused) {
        return false;
      }
      active := active[id := download];
      return true;
    }

    method CompleteTask(id: nat, ok: bool)
      modifies this
      ensures View() == OnComplete(old(View()), id, ok)
    {
      active := active - {id};
      if id in all {
        var was := all[id].status;
        if ok {
          if was == Active {
            SetStatus(id, Completed);
          }
        } else if was != Removed && was != Paused {
          SetStatus(id, Failed);
        }
        if all[id].status == Completed || all[id].status == Failed {
          occupied := occupied - {all[id].path};
        }
      }
    }
  }
}
