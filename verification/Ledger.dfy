/** The monitor's byte ledger (src/state.rs) and what each worker message does to it
    (src/monitor.rs, handle_download_info). */
module Ledger {
  import opened Ranges
  import opened Chunk

  datatype Entry = Entry(start: nat, end: int, downloaded: nat)

  function EntrySize(e: Entry): nat {
    Size(Range(e.start, e.end))
  }

  datatype Books = Books(total: nat, chunks: map<nat, Entry>, completed: nat, retired: set<nat>)

  // ----- specification

  ghost function InFlight(chunks: map<nat, Entry>): nat {
    if chunks == map[] then 0
    else
      var id :| id in chunks;
      chunks[id].downloaded + InFlight(chunks - {id})
  }

  lemma {:induction false} InFlightRemove(chunks: map<nat, Entry>, id: nat)
    requires id in chunks
    ensures InFlight(chunks) == chunks[id].downloaded + InFlight(chunks - {id})
    decreases |chunks|
  {
    var k :| k in chunks && InFlight(chunks) == chunks[k].downloaded + InFlight(chunks - {k});
    if k != id {
      InFlightRemove(chunks - {k}, id);
      InFlightRemove(chunks - {id}, k);
      assert chunks - {k} - {id} == chunks - {id} - {k};
    }
  }

  lemma InFlightSet(chunks: map<nat, Entry>, id: nat, e: Entry)
    ensures InFlight(chunks[id := e])
         == InFlight(chunks) + e.downloaded - (if id in chunks then chunks[id].downloaded else 0)
  {
    InFlightRemove(chunks[id := e], id);
    assert chunks[id := e] - {id} == chunks - {id};
    if id in chunks {
      InFlightRemove(chunks, id);
    } else {
      assert chunks - {id} == chunks;
    }
  }

  ghost function Raw(b: Books): nat {
    b.completed + InFlight(b.chunks)
  }

  ghost function TotalDownloaded(b: Books): nat {
    Min(Raw(b), b.total)
  }

  predicate IsFinished(b: Books) {
    b.completed >= b.total
  }

  function CompleteChunk(b: Books, id: nat): Books {
    if id in b.chunks then b.(chunks := b.chunks - {id}, completed := b.completed + EntrySize(b.chunks[id])) else b
  }

  /** Failure keeps the larger of the reported and the exact prefix, then drops the entry. */
  function FailChunk(b: Books, id: nat, start: nat): Books {
    if id in b.chunks then
      var e := b.chunks[id];
      var exact := if start >= e.start then start - e.start else 0;
      b.(chunks := b.chunks - {id}, completed := b.completed + Max(e.downloaded, Min(exact, EntrySize(e))))
    else b
  }

  function NoteProgress(b: Books, id: nat, start: nat, end: int, downloaded: nat): Books {
    if id in b.retired then b
    else
      var e := if id in b.chunks then b.chunks[id] else Entry(start, end, 0);
      b.(chunks := b.chunks[id := e.(downloaded := Max(e.downloaded, downloaded), end := end)])
  }

  function ShrinkChunk(b: Books, id: nat, mid: int): Books {
    if id in b.chunks then
      var e := b.chunks[id].(end := mid);
      b.(chunks := b.chunks[id := e.(downloaded := Min(e.downloaded, EntrySize(e)))])
    else b
  }

  function Apply(b: Books, m: Info): Books {
    match m
    case Progress(id, start, end, downloaded) => NoteProgress(b, id, start, end, downloaded)
    case Complete(id) => CompleteChunk(b, id).(retired := b.retired + {id})
    case Failed(id, start, _, _) => FailChunk(b, id, start)
    case Bisected(id, start, _) => ShrinkChunk(b, id, start - 1)
  }

  ghost function Drain(b: Books, msgs: seq<Info>): Books
    decreases |msgs|
  {
    if msgs == [] then b else Drain(Apply(b, msgs[0]), msgs[1..])
  }

  /** The message neither completes nor cuts an entry that already counts more than fits. */
  ghost predicate Honest(b: Books, m: Info) {
    match m
    case Complete(id) => id in b.chunks ==> b.chunks[id].downloaded <= EntrySize(b.chunks[id])
    case Bisected(id, start, _) =>
      id in b.chunks ==> b.chunks[id].downloaded <= EntrySize(b.chunks[id].(end := start - 1))
    case _ => true
  }

  ghost predicate AllHonest(b: Books, msgs: seq<Info>)
    decreases |msgs|
  {
    msgs == [] || (Honest(b, msgs[0]) && AllHonest(Apply(b, msgs[0]), msgs[1..]))
  }

  lemma {:induction false} DrainAppend(b: Books, u: seq<Info>, v: seq<Info>)
    ensures Drain(b, u + v) == Drain(Drain(b, u), v)
    ensures AllHonest(b, u + v) <==> AllHonest(b, u) && AllHonest(Drain(b, u), v)
    decreases |u|
  {
    if u == [] {
      assert u + v == v;
    } else {
      DrainAppend(Apply(b, u[0]), u[1..], v);
      assert (u + v)[1..] == u[1..] + v;
    }
  }

  lemma ApplyGrows(b: Books, m: Info)
    requires Honest(b, m)
    ensures Raw(Apply(b, m)) >= Raw(b) && Apply(b, m).total == b.total
  {
    match m
    case Progress(id, start, end, downloaded) =>
      if id !in b.retired { InFlightSet(b.chunks, id, Apply(b, m).chunks[id]); }
    case Complete(id) => if id in b.chunks { InFlightRemove(b.chunks, id); }
    case Failed(id, start, _, _) => if id in b.chunks { InFlightRemove(b.chunks, id); }
    case Bisected(id, start, _) =>
      if id in b.chunks { InFlightSet(b.chunks, id, Apply(b, m).chunks[id]); }
  }

  /** Whatever is reported, in whatever order: a completion books the attempt's size, a failure no more than
      the attempt has or was reported, a cut leaves no entry that counts more than what is left of it, and
      the total is never more than the file. */
  lemma CountsAreCapped(b: Books, m: Info)
    ensures var c := Apply(b, m);
      && (m.Progress? || m.Bisected? || m.id !in b.chunks ==> c.completed == b.completed)
      && (m.Complete? && m.id in b.chunks ==> c.completed == b.completed + EntrySize(b.chunks[m.id]))
      && (m.Failed? && m.id in b.chunks ==>
            var e := b.chunks[m.id];
            && b.completed + e.downloaded <= c.completed <= b.completed + Max(e.downloaded, EntrySize(e))
            && (e.start <= m.start <= e.end + 1 ==>
                  c.completed == b.completed + Max(e.downloaded, m.start - e.start)))
      && (m.Bisected? && m.id in b.chunks ==>
            c.chunks[m.id].end == m.start - 1 && c.chunks[m.id].downloaded <= EntrySize(c.chunks[m.id]))
      && TotalDownloaded(c) <= c.total
  {
    hide InFlight;
  }

  lemma {:induction false} DrainGrows(b: Books, msgs: seq<Info>)
    requires AllHonest(b, msgs)
    ensures Raw(Drain(b, msgs)) >= Raw(b)
    decreases |msgs|
  {
    if msgs != [] {
      ApplyGrows(b, msgs[0]);
      DrainGrows(Apply(b, msgs[0]), msgs[1..]);
    }
  }

  /** A failure books the attempt's exact prefix if and only if the ledger has an entry for it, or there
      is no prefix: when every progress message of an attempt was lost, its bytes are forgotten. */
  lemma PrefixBookedIff(b: Books, id: nat, first: nat, start: nat, end: int, error: ErrorClass)
    requires first <= start
    requires id in b.chunks ==> b.chunks[id].start == first
                                && b.chunks[id].downloaded <= start - first <= EntrySize(b.chunks[id])
    ensures Apply(b, Failed(id, start, end, error)).completed == b.completed + (start - first)
            <==> id in b.chunks || start == first
  {
  }

  // ----- the mutable state

  class DownloadState {
    var totalFileSize: nat
    var chunks: map<nat, Entry>
    var completedBytes: nat

    function View(retired: set<nat>): Books
      reads this
    {
      Books(totalFileSize, chunks, completedBytes, retired)
    }

    constructor WithCompleted(total: nat, completed: nat)
      ensures View({}) == Books(total, map[], Min(completed, total), {})
    {
      totalFileSize, chunks, completedBytes := total, map[], Min(completed, total);
    }

    method Complete(id: nat)
      modifies this
      ensures forall r: set<nat> :: View(r) == CompleteChunk(old(View(r)), id)
    {
      if id in chunks {
        completedBytes := completedBytes + EntrySize(chunks[id]);
        chunks := chunks - {id};
      }
    }

    /** Without an entry the exact count is booked as it is; `Fail` only calls it with one. */
    method PreservePartialExact(id: nat, exactDownloaded: nat)
      modifies this`completedBytes
      ensures completedBytes == old(completedBytes)
        + if id in chunks then Max(chunks[id].downloaded, Min(exactDownloaded, EntrySize(chunks[id])))
          else exactDownloaded
    {
      if id in chunks {
        var best := Max(chunks[id].downloaded, Min(exactDownloaded, EntrySize(chunks[id])));
        completedBytes := completedBytes + best;
      } else {
        completedBytes := completedBytes + exactDownloaded;
      }
    }

    /** The ledger's part of a failure: keep the prefix, then forget the entry. */
    method Fail(id: nat, start: nat)
      modifies this
      ensures forall r: set<nat> :: View(r) == FailChunk(old(View(r)), id, start)
    {
      if id in chunks {
        var exact: nat := if start >= chunks[id].start then start - chunks[id].start else 0;
        PreservePartialExact(id, exact);
      }
      chunks := chunks - {id};
    }

    method Note(id: nat, start: nat, end: int, downloaded: nat)
      modifies this
      ensures forall r: set<nat> | id !in r :: View(r) == NoteProgress(old(View(r)), id, start, end, downloaded)
    {
      var e := if id in chunks then chunks[id] else Entry(start, end, 0);
      e := e.(downloaded := Max(e.downloaded, downloaded));
      chunks := chunks[id := e.(end := end)];
    }

    method Shrink(id: nat, mid: int)
      modifies this
      ensures forall r: set<nat> :: View(r) == ShrinkChunk(old(View(r)), id, mid)
    {
      if id in chunks {
        var e := chunks[id].(end := mid);
        if e.downloaded > EntrySize(e) {
          e := e.(downloaded := EntrySize(e));
        }
        chunks := chunks[id := e];
      }
    }

    method Total() returns (n: nat)
      ensures n == TotalDownloaded(View({}))
    {
      var left := chunks;
      n := completedBytes;
      while left != map[]
        invariant n + InFlight(left) == completedBytes + InFlight(chunks)
        decreases |left|
      {
        var id :| id in left;
        InFlightRemove(left, id);
        n := n + left[id].downloaded;
        left := left - {id};
      }
      n := Min(n, totalFileSize);
    }
  }
}
