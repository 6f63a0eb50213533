/** From the network to the disk: if the responses carry the source's bytes for the ranges that were asked
    for, then every write handed over is a piece of the source, and a finished download is the source. */
module Network {
  import opened Ranges
  import opened Files
  import opened Chunk
  import opened Protocol
  import opened Partition
  import opened Resume
  import opened Writer
  import EndToEnd
  import Finish
  import Lanes

  /** Network data is what the source has where the worker stands, as far as the worker's range goes; what
      a response holds beyond it is arbitrary. Data is not empty at the very start of the file. */
  ghost predicate Delivers(s: Sys, e: Event, source: seq<Byte>)
    requires Protocol.Enabled(s, e)
  {
    e.WorkerActs? && e.input.Data? ==>
      var w, bytes := s.live[e.i], e.input.bytes;
      && (bytes == [] ==> w.offset > 0)
      && (forall k | 0 <= k < |bytes| && w.offset + k <= w.end && w.offset + k < |source| ::
            bytes[k] == source[w.offset + k])
  }

  ghost predicate Delivered(s: Sys, es: seq<Event>, source: seq<Byte>)
    requires Legal(s, es)
    decreases |es|
  {
    es == [] || (Delivers(s, es[0], source) && Delivered(Protocol.Step(s, es[0]), es[1..], source))
  }

  /** No live worker reaches past the end of the file. */
  ghost predicate Inside(s: Sys, size: nat) {
    forall i | 0 <= i < |s.live| && s.live[i].offset <= s.live[i].end :: s.live[i].end < size
  }

  lemma AlwaysInside(p: Session, es: seq<Event>)
    requires Proper(p) && Legal(Begin(p), es)
    ensures Inside(After(Begin(p), es), p.size)
  {
    hide Begin, Open;
    var s := After(Begin(p), es);
    forall i | 0 <= i < |s.live| && s.live[i].offset <= s.live[i].end ensures s.live[i].end < p.size {
      PartitionAlways(p, es, s.live[i].end);
      OpenHoldsLive(s, i, s.live[i].end);
      SumNonneg(s.trusted, Holds(s.live[i].end));
      SumNonneg(s.handed, Covers(s.live[i].end));
    }
  }

  lemma OpenHoldsLive(s: Sys, i: nat, x: int)
    requires i < |s.live|
    ensures Open(s, RestOf(Holds(x)), Plain(Holds(x))) >= Holds(x)(Rest(s.live[i]))
  {
    OpenParts(s, RestOf(Holds(x)), Plain(Holds(x)));
    SumAtLeast(s.live, i, RestOf(Holds(x)));
  }

  /** What a worker makes of delivered data is a piece of the source. */
  lemma ReactGenuine(s: Sys, e: Event, source: seq<Byte>)
    requires Protocol.Enabled(s, e) && e.WorkerActs? && Delivers(s, e, source) && Inside(s, |source|)
    ensures AllGenuine(React(s.live[e.i], e.input).writes, source)
  {
    var w := s.live[e.i];
    var writes := React(w, e.input).writes;
    if writes != [] {
      var taken := e.input.bytes[..Min(w.end - w.offset + 1, |e.input.bytes|)];
      assert writes == [Piece(w.offset, taken)];
      TakenAgrees(e.input.bytes, w.offset, w.end, source);
    }
  }

  lemma TakenAgrees(bytes: seq<Byte>, offset: nat, end: int, source: seq<Byte>)
    requires offset <= end < |source|
    requires forall k | 0 <= k < |bytes| && offset + k <= end && offset + k < |source| :: bytes[k] == source[offset + k]
    ensures Agrees(offset, bytes[..Min(end - offset + 1, |bytes|)], source)
  {
  }

  lemma StepGenuine(s: Sys, e: Event, source: seq<Byte>)
    requires Protocol.Enabled(s, e) && Delivers(s, e, source) && Inside(s, |source|)
    requires AllGenuine(s.handed, source)
    ensures AllGenuine(Protocol.Step(s, e).handed, source)
  {
    hide Genuine, React;
    if e.WorkerActs? {
      ReactGenuine(s, e, source);
    }
  }

  lemma {:induction false} LastDelivers(s: Sys, es: seq<Event>, source: seq<Byte>)
    requires es != [] && Legal(s, es) && Delivered(s, es, source)
    ensures var front, last := es[..|es| - 1], es[|es| - 1];
      && Legal(s, front) && Protocol.Enabled(After(s, front), last)
      && Delivered(s, front, source) && Delivers(After(s, front), last, source)
    decreases |es|
  {
    hide Protocol.Step, Protocol.Enabled, Delivers;
    LastStep(s, es);
    var front := es[..|es| - 1];
    if |es| > 1 {
      LastDelivers(Protocol.Step(s, es[0]), es[1..], source);
      assert front[1..] == es[1..][..|es| - 2] && front[0] == es[0];
    }
  }

  /** Every write of every such run is a piece of the source. */
  lemma {:induction false} HandedIsGenuine(p: Session, es: seq<Event>, source: seq<Byte>)
    requires Proper(p) && p.size == |source| && Legal(Begin(p), es) && Delivered(Begin(p), es, source)
    ensures AllGenuine(After(Begin(p), es).handed, source)
    decreases |es|
  {
    hide Begin, Protocol.Step, Genuine, Delivers, Inside;
    if es == [] {
      BeginsWithNothing(p);
    } else {
      var front := es[..|es| - 1];
      LastStep(Begin(p), es);
      LastDelivers(Begin(p), es, source);
      HandedIsGenuine(p, front, source);
      AlwaysInside(p, front);
      StepGenuine(After(Begin(p), front), es[|es| - 1], source);
    }
  }

  lemma BeginsWithNothing(p: Session)
    ensures Begin(p).handed == []
  {
  }

  /** From end to end: a session prepared from whatever a crash left, run with any workers, lanes, errors,
      commands and timing over a network that delivers the source's bytes, until a tick or, in an ordered
      run, a join finishes it. On a working disk it is accepted, and its file starts with the source; it is
      the source if and only if the session did not begin with a longer file. */
  lemma DownloadIsTheSource(d: EndToEnd.Disk, r: EndToEnd.Run, source: seq<Byte>, h: Hash, workers: nat,
                            lanes: Option<Lanes.Schedule>, start: int, es: seq<Event>, last: Event)
    requires HonestSidecar(d.sidecar, source, h) && SafeHash(d.sidecar, source, h) && EndToEnd.WorkingDisk(r)
    requires Prepare(r.resume, d.sidecar, d.file, |source|, r.io, h).plan.Some?
    requires Proper(Session(0, 0, [], [], lanes, start)) && Finish.CanStart(lanes)
    requires var plan := Prepare(r.resume, d.sidecar, d.file, |source|, r.io, h).plan.value;
      var p := EndToEnd.SessionOf(plan, |source|, workers, lanes, start);
      && EndToEnd.Finishes(p, es, last) && Pieces(r.steps) == EndToEnd.Handed(p, es, last)
      && Delivered(Begin(p), es, source)
    ensures var (e, ok) := EndToEnd.RunSession(d, r, |source|, h);
      && ok && EndToEnd.Holding(e, source)
      && (e.file == Some(source) <==> |EndToEnd.Found(d, r, |source|, h)| <= |source|)
  {
    hide Prepare, Begin, Proper, EndToEnd.WorkingDisk, HonestSidecar, SafeHash, EndToEnd.RunSession, EndToEnd.Found,
         Finish.CanStart, Genuine, Delivered;
    var plan := Prepare(r.resume, d.sidecar, d.file, |source|, r.io, h).plan.value;
    var p := EndToEnd.SessionOf(plan, |source|, workers, lanes, start);
    PlanIsProper(r.resume, d.sidecar, d.file, |source|, r.io, h, workers, lanes, start);
    HandedIsGenuine(p, es, source);
    LastHandsNothing(p, es, last);
    EndToEnd.FinishedDownloadIsTheSource(d, r, source, h, workers, lanes, start, es, last);
  }

  lemma LastHandsNothing(p: Session, es: seq<Event>, last: Event)
    requires EndToEnd.Finishes(p, es, last)
    ensures EndToEnd.Handed(p, es, last) == After(Begin(p), es).handed
  {
    hide Begin;
  }
}
