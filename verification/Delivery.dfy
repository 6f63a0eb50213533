/** What a worker does with what it receives: nothing that arrives for its range is dropped, cut short or
    put elsewhere, its cuts are the ones that were asked for, and its reports keep up with it. */
module Delivery {
  import opened Ranges
  import opened Files
  import opened Chunk

  // ----- every received byte is written

  /** The network bytes that a worker takes from its first n inputs. */
  ghost function Received(w: Worker, inputs: seq<Input>, n: nat): seq<Byte>
    requires Valid(w) && n <= |inputs|
  {
    if n == 0 then []
    else
      Received(w, inputs, n - 1)
      + if Run(w, inputs, n - 1).alive && inputs[n - 1].Data? then inputs[n - 1].bytes else []
  }

  /** One input: the data that fits the range is written where the worker stands, and only data that does
      not fit ends it. */
  lemma DataIsWritten(w: Worker, input: Input)
    requires Valid(w)
    ensures var r := React(w, input);
      var fits := if input.Data? then input.bytes[..Min(|input.bytes|, Len(Rest(w)))] else [];
      && Joined(r.writes) == fits
      && r.worker.offset == w.offset + |fits|
      && (forall p | p in r.writes :: p.offset == w.offset)
      && (input.Data? && w.offset <= w.end ==> (r.alive <==> |input.bytes| <= Len(Rest(w))))
      && (r.worker.end == w.end || (input.Bisect? && w.offset <= r.worker.end < w.end))
  {
    var r := React(w, input);
    if r.writes != [] {
      assert r.writes == [r.writes[0]] && Joined(r.writes[1..]) == [];
    }
  }

  /** The stream is written through: what a worker has written is, byte for byte and in order, what it has
      received, clipped at the end of the range it still has; and it goes on while more can come. */
  lemma {:induction false} StreamIsWritten(w: Worker, inputs: seq<Input>, n: nat)
    requires Valid(w) && n <= |inputs|
    ensures var r, got := Run(w, inputs, n), Received(w, inputs, n);
      && w.offset <= r.worker.end + 1
      && Joined(r.writes) == got[..Min(|got|, r.worker.end + 1 - w.offset)]
      && r.worker.offset == w.offset + Min(|got|, r.worker.end + 1 - w.offset)
      && (r.alive ==> Joined(r.writes) == got)
    decreases n
  {
    hide React;
    if n > 0 {
      StreamIsWritten(w, inputs, n - 1);
      var p, had := Run(w, inputs, n - 1), Received(w, inputs, n - 1);
      if p.alive {
        StreamStep(p, had, w.offset, inputs[n - 1]);
      } else {
        assert had + [] == had;
      }
    }
  }

  lemma StreamStep(p: Reaction, had: seq<Byte>, from: nat, input: Input)
    requires Valid(p.worker) && p.alive
    requires from <= p.worker.offset && p.worker.offset == from + |had| && Joined(p.writes) == had
    ensures var r := React(p.worker, input);
      var got := had + if input.Data? then input.bytes else [];
      && from <= r.worker.end + 1
      && Joined(p.writes + r.writes) == got[..Min(|got|, r.worker.end + 1 - from)]
      && r.worker.offset == from + Min(|got|, r.worker.end + 1 - from)
      && (r.alive ==> Joined(p.writes + r.writes) == got)
  {
    hide React, Joined;
    var r := React(p.worker, input);
    DataIsWritten(p.worker, input);
    ReactKeepsValid(p.worker, input);
    JoinedAppend(p.writes, r.writes);
    OverrunStops(p.worker, input);
    Clipped(had, if input.Data? then input.bytes else [], Len(Rest(p.worker)));
  }

  lemma OverrunStops(w: Worker, input: Input)
    requires Valid(w)
    ensures React(w, input).alive && input.Data? ==> |input.bytes| <= Len(Rest(w))
  {
  }

  lemma Clipped(had: seq<Byte>, more: seq<Byte>, room: nat)
    ensures (had + more)[..Min(|had + more|, |had| + room)] == had + more[..Min(|more|, room)]
  {
  }

  // ----- cuts

  /** A cut happens exactly when it is asked for and twice the minimum is left; a plain one halves within a
      byte, a skewed one leaves the worker an eighth, or the minimum if that is more. */
  lemma CutsExactly(w: Worker, input: Input)
    requires Valid(w)
    ensures var r := React(w, input);
      && (r.worker.end < w.end <==> input.Bisect? && Len(Rest(w)) >= 2 * MIN_CHUNK_SIZE)
      && (input.Bisect? ==>
            && r.alive && r.worker == w.(end := r.worker.end)
            && r.sent == if r.worker.end == w.end then [] else [Bisected(w.id, r.worker.end + 1, w.end)])
      && (r.worker.end < w.end ==>
            var kept, given := Len(Rest(r.worker)), Len(Range(r.worker.end + 1, w.end));
            if !input.skewed then 0 <= given - kept <= 1
            else if kept == MIN_CHUNK_SIZE then Len(Rest(w)) < 8 * (MIN_CHUNK_SIZE + 1)
            else kept > MIN_CHUNK_SIZE && 0 <= Len(Rest(w)) - 8 * kept < 8)
  {
  }

  // ----- reports

  /** The count in the last progress message, or `before` when there is none. */
  ghost function LastReport(msgs: seq<Info>, before: nat): nat {
    if msgs == [] then before
    else LastReport(msgs[1..], if msgs[0].Progress? then msgs[0].downloaded else before)
  }

  lemma {:induction false} LastReportAppend(u: seq<Info>, v: seq<Info>, before: nat)
    ensures LastReport(u + v, before) == LastReport(v, LastReport(u, before))
  {
    if u == [] {
      assert u + v == v;
    } else {
      LastReportAppend(u[1..], v, if u[0].Progress? then u[0].downloaded else before);
      assert (u + v)[1..] == u[1..] + v;
    }
  }

  /** How far a running worker may be ahead of its last report. */
  ghost predicate KeepsUp(w: Worker) {
    && w.start <= w.offset && w.reported <= Downloaded(w)
    && Downloaded(w) - w.reported < PROGRESS_THROTTLE_BYTES
    && (w.offset > w.start && w.offset >= w.end ==> w.reported == Downloaded(w))
  }

  lemma FailReports(w: Worker, error: ErrorClass)
    requires w.start <= w.offset
    ensures LastReport(Fail(w, error), w.reported) == Downloaded(w)
    ensures forall m | m in Fail(w, error) && m.Progress? :: m == ProgressOf(w)
  {
    LastReportAppend(StaleProgress(w), [Failed(w.id, w.offset, w.end, error)], w.reported);
    assert [Failed(w.id, w.offset, w.end, error)][1..] == [] && [ProgressOf(w)][1..] == [];
  }

  lemma ExitReport(w: Worker)
    requires Valid(w)
    ensures LastReport(ExitReports(w), w.reported) == Downloaded(w)
    ensures forall m | m in ExitReports(w) && m.Progress? :: m == ProgressOf(w)
  {
    FailReports(w, Retriable);
    LastReportAppend([ProgressOf(w)], [Complete(w.id)], w.reported);
    assert [ProgressOf(w)][1..] == [] && [Complete(w.id)][1..] == [];
    assert [ProgressOf(w), Complete(w.id)] == [ProgressOf(w)] + [Complete(w.id)];
  }

  lemma ReactReports(w: Worker, input: Input)
    requires Valid(w) && KeepsUp(w) && input != Terminate
    ensures var r := React(w, input);
      && r.worker.start == w.start
      && LastReport(r.sent, w.reported) == (if r.alive then r.worker.reported else Downloaded(r.worker))
      && (forall m | m in r.sent && m.Progress? :: m == ProgressOf(r.worker))
      && (r.alive ==> KeepsUp(r.worker))
      && (r.alive && input.Data? && input.slow ==> r.worker.reported == Downloaded(r.worker))
      && (r.alive && input.Data? && r.sent != [] ==>
            input.slow || Downloaded(r.worker) - w.reported >= PROGRESS_THROTTLE_BYTES
            || r.worker.offset >= r.worker.end)
  {
    var r := React(w, input);
    match input
    case Fault(error) => FailReports(w, error);
    case Eof =>
      FailReports(w, Retriable);
      ExitReport(w);
    case Bisect(_) =>
    case Data(_, _) =>
      if w.offset > w.end {
        ExitReport(w);
      } else {
        DataReports(w, input);
      }
  }

  lemma DataReports(w: Worker, input: Input)
    requires Valid(w) && KeepsUp(w) && input.Data? && w.offset <= w.end
    ensures var r := React(w, input);
      && LastReport(r.sent, w.reported) == (if r.alive then r.worker.reported else Downloaded(r.worker))
      && (forall m | m in r.sent && m.Progress? :: m == ProgressOf(r.worker))
      && (r.alive ==> KeepsUp(r.worker))
      && (r.alive && input.slow ==> r.worker.reported == Downloaded(r.worker))
      && (r.alive && r.sent != [] ==>
            input.slow || Downloaded(r.worker) - w.reported >= PROGRESS_THROTTLE_BYTES
            || r.worker.offset >= r.worker.end)
  {
    var r := React(w, input);
    var sent := [ProgressOf(r.worker)];
    assert sent[1..] == [];
    if !r.alive {
      ExitReport(r.worker);
      LastReportAppend(sent, ExitReports(r.worker), w.reported);
    }
  }

  /** Over a whole attempt that is not terminated: every progress message counts what was written when it
      was sent, a running worker is less than 64 KiB ahead of its last one, and not at all once it stands
      at its end; and the last one before a worker stops is exact. */
  lemma {:induction false} ReportsKeepUp(id: nat, range: Range, inputs: seq<Input>, n: nat)
    requires range.start <= range.end + 1 && n <= |inputs|
    requires forall k | 0 <= k < n :: inputs[k] != Terminate
    ensures var r := Run(Fresh(id, range), inputs, n);
      && r.worker.start == range.start
      && LastReport(r.sent, 0) == (if r.alive then r.worker.reported else Downloaded(r.worker))
      && (r.alive ==> KeepsUp(r.worker))
      && (forall m | m in r.sent && m.Progress? :: m.id == id && m.start == range.start
                                                   && m.downloaded <= Downloaded(r.worker))
    decreases n
  {
    hide React, KeepsUp;
    var w := Fresh(id, range);
    if n == 0 {
      FreshKeepsUp(id, range);
    } else {
      ReportsKeepUp(id, range, inputs, n - 1);
      var p := Run(w, inputs, n - 1);
      if p.alive {
        ReactReports(p.worker, inputs[n - 1]);
        DataIsWritten(p.worker, inputs[n - 1]);
        RunConserves(w, inputs, n - 1, 0);
        RunConserves(w, inputs, n, 0);
        LastReportAppend(p.sent, React(p.worker, inputs[n - 1]).sent, 0);
      }
    }
  }

  lemma FreshKeepsUp(id: nat, range: Range)
    requires range.start <= range.end + 1
    ensures KeepsUp(Fresh(id, range))
  {
  }
}
