/** One download worker (src/chunk.rs): how it cuts its range, hands bytes to the
    writer and reports to the monitor. The network and the control commands are
    an arbitrary sequence of inputs. */
module Chunk {
  import opened Ranges
  import opened Files

  const MIN_CHUNK_SIZE: nat := 10 * 1024
  const PROGRESS_THROTTLE_BYTES: nat := 64 * 1024

  /** How the monitor classifies an error text; the text itself is not modelled. */
  datatype ErrorClass = LocalIo | PermanentStatus | Retriable

  datatype Info =
    | Progress(id: nat, start: nat, end: int, downloaded: nat)
    | Complete(id: nat)
    | Failed(id: nat, start: nat, end: int, error: ErrorClass)
    | Bisected(id: nat, start: nat, end: int)

  /** The loop variables of a worker; it has handed start..offset-1 to the writer. */
  datatype Worker = Worker(id: nat, start: nat, offset: nat, end: int, reported: nat)

  datatype Input =
    | Data(bytes: seq<Byte>, slow: bool)    // from the network; `slow` is the 50 ms progress timer
    | Bisect(skewed: bool)
    | Fault(error: ErrorClass)              // kill, request or stream error, idle timeout, writer gone
    | Eof
    | Terminate

  datatype Reaction = Reaction(worker: Worker, writes: seq<Piece>, sent: seq<Info>, alive: bool)

  ghost predicate Valid(w: Worker) {
    w.start <= w.offset <= w.end + 1 && w.start + w.reported <= w.offset
  }

  function Fresh(id: nat, r: Range): Worker {
    Worker(id, r.start, r.start, r.end, 0)
  }

  /** What the worker still owes. */
  function Rest(w: Worker): Range {
    Range(w.offset, w.end)
  }

  /** The midpoint of a cut of offset..end, when both sides can keep MIN_CHUNK_SIZE. */
  function SplitRange(offset: nat, end: int, skewed: bool): (mid: Option<int>)
    ensures mid.Some? <==> Len(Range(offset, end)) >= 2 * MIN_CHUNK_SIZE
    ensures mid.Some? ==> mid.value - offset + 1 >= MIN_CHUNK_SIZE && end - mid.value >= MIN_CHUNK_SIZE
    ensures mid.Some? && !skewed ==> 0 <= (end - mid.value) - (mid.value - offset + 1) <= 1
    ensures mid.Some? && skewed && Len(Range(offset, end)) >= 8 * MIN_CHUNK_SIZE
            ==> 0 <= Len(Range(offset, end)) - 8 * (mid.value - offset + 1) < 8
    ensures mid.Some? && skewed && Len(Range(offset, end)) < 8 * MIN_CHUNK_SIZE
            ==> mid.value - offset + 1 == MIN_CHUNK_SIZE
  {
    var remaining := Size(Range(offset, end));
    if remaining < MIN_CHUNK_SIZE * 2 then
      None
    else
      var left := if skewed then Min(Max(remaining / 8, MIN_CHUNK_SIZE), remaining - MIN_CHUNK_SIZE)
                  else remaining / 2;
      Some(offset + left - 1)
  }

  function Downloaded(w: Worker): nat
    requires w.start <= w.offset
  {
    w.offset - w.start
  }

  function ProgressOf(w: Worker): Info
    requires w.start <= w.offset
  {
    Progress(w.id, w.start, w.end, Downloaded(w))
  }

  function StaleProgress(w: Worker): seq<Info>
    requires w.start <= w.offset
  {
    if Downloaded(w) != w.reported then [ProgressOf(w)] else []
  }

  function Fail(w: Worker, error: ErrorClass): seq<Info>
    requires w.start <= w.offset
  {
    StaleProgress(w) + [Failed(w.id, w.offset, w.end, error)]
  }

  /** The code after the loop, reached without a failure: completion exactly when the
      byte count equals the (saturating) size of the attempt, early EOF otherwise. */
  function ExitReports(w: Worker): seq<Info>
    requires w.start <= w.offset
  {
    if Downloaded(w) == Size(Range(w.start, w.end)) then [ProgressOf(w), Complete(w.id)] else Fail(w, Retriable)
  }

  function React(w: Worker, input: Input): Reaction
    requires Valid(w)
  {
    match input
    case Terminate => Reaction(w, [], [], false)
    case Fault(error) => Reaction(w, [], Fail(w, error), false)
    case Eof =>
      Reaction(w, [], if w.offset < w.end + 1 then Fail(w, Retriable) else ExitReports(w), false)
    case Bisect(skewed) =>
      (match SplitRange(w.offset, w.end, skewed)
       case None => Reaction(w, [], [], true)
       case Some(mid) => Reaction(w.(end := mid), [], [Bisected(w.id, mid + 1, w.end)], true))
    case Data(bytes, slow) =>
      if w.offset > w.end then
        Reaction(w, [], ExitReports(w), false)
      else
        var take := Min(w.end - w.offset + 1, |bytes|);
        var moved := w.(offset := w.offset + take);
        var report := Downloaded(moved) - w.reported >= PROGRESS_THROTTLE_BYTES
                      || slow || moved.offset >= w.end || take < |bytes|;
        var next := if report then moved.(reported := Downloaded(moved)) else moved;
        var sent := if report then [ProgressOf(moved)] else [];
        var piece := Piece(w.offset, bytes[..take]);
        if take < |bytes| then
          Reaction(next, [piece], sent + ExitReports(next), false)
        else
          Reaction(next, [piece], sent, true)
  }

  // ----- what one reaction does with the worker's range

  /** Something to be counted: what an identified range, a completion and an announced
      half are each worth. */
  datatype Measure = Measure(owned: (nat, Range) -> int, done: nat -> int, loose: Range -> int)

  ghost function Plain(g: Range -> int): Measure {
    Measure((id: nat, r: Range) => g(r), (id: nat) => 0, g)
  }

  /** The measure a message puts in the monitor's hands. */
  ghost function CarriedBy(m: Measure): Info -> int {
    (i: Info) =>
      match i
      case Failed(id, start, end, _) => m.owned(id, Range(start, end))
      case Bisected(_, start, end) => m.loose(Range(start, end))
      case Complete(id) => m.done(id)
      case Progress(_, _, _, _) => 0
  }

  ghost function Covers(x: int): Piece -> int {
    (p: Piece) => if p.offset <= x < p.offset + |p.data| then 1 else 0
  }

  /** A worker completes when it leaves its loop without a failure and its count matches. */
  predicate Completes(w: Worker, input: Input)
    requires Valid(w)
  {
    w.start <= w.end &&
    match input
    case Eof => w.offset == w.end + 1
    case Data(bytes, _) => w.offset == w.end + 1 || w.end - w.offset + 1 < |bytes|
    case _ => false
  }

  lemma FailCarries(w: Worker, error: ErrorClass, g: Measure)
    requires w.start <= w.offset
    ensures Sum(Fail(w, error), CarriedBy(g)) == g.owned(w.id, Rest(w))
  {
    SumOne(Failed(w.id, w.offset, w.end, error), CarriedBy(g));
    SumTwo(ProgressOf(w), Failed(w.id, w.offset, w.end, error), CarriedBy(g));
    if Downloaded(w) != w.reported {
      assert Fail(w, error) == [ProgressOf(w), Failed(w.id, w.offset, w.end, error)];
    } else {
      assert Fail(w, error) == [Failed(w.id, w.offset, w.end, error)];
    }
  }

  lemma ExitCarries(w: Worker, g: Measure)
    requires Valid(w) && w.offset == w.end + 1
    ensures Sum(ExitReports(w), CarriedBy(g)) == if w.start <= w.end then g.done(w.id) else g.owned(w.id, Rest(w))
    ensures w.start <= w.end ==> ExitReports(w) == [ProgressOf(w), Complete(w.id)]
  {
    SumTwo(ProgressOf(w), Complete(w.id), CarriedBy(g));
    FailCarries(w, Retriable, g);
  }

  /** The range-carrying part of what one input makes a worker send, whatever is measured. */
  lemma ReactCarries(w: Worker, input: Input, g: Measure)
    requires Valid(w)
    ensures var r := React(w, input);
      && Valid(r.worker) && r.worker.id == w.id && r.worker.start == w.start
      && Sum(r.sent, CarriedBy(g))
         == if Completes(w, input) then g.done(w.id)
            else if r.worker.end < w.end then g.loose(Range(r.worker.end + 1, w.end))
            else if r.alive || input == Terminate then 0
            else g.owned(w.id, Rest(w))
  {
    var r := React(w, input);
    match input
    case Terminate =>
    case Fault(error) => FailCarries(w, error, g);
    case Eof =>
      if w.offset < w.end + 1 { FailCarries(w, Retriable, g); } else { ExitCarries(w, g); }
    case Bisect(skewed) =>
      if r.sent != [] { SumOne(r.sent[0], CarriedBy(g)); }
    case Data(bytes, slow) =>
      if w.offset > w.end {
        ExitCarries(w, g);
      } else {
        var moved := w.(offset := w.offset + Min(w.end - w.offset + 1, |bytes|));
        SumOne(ProgressOf(moved), CarriedBy(g));
        if Min(w.end - w.offset + 1, |bytes|) < |bytes| {
          ExitCarries(r.worker, g);
          SumAppend([ProgressOf(moved)], ExitReports(r.worker), CarriedBy(g));
        }
      }
  }

  /** Every byte the worker owed before an input is, afterwards, handed to the writer,
      announced in a message, or still owed: exactly one of the three. */
  lemma ReactConserves(w: Worker, input: Input, x: int)
    requires Valid(w) && input != Terminate
    ensures var r := React(w, input);
      Holds(x)(Rest(w)) == Sum(r.writes, Covers(x)) + Sum(r.sent, CarriedBy(Plain(Holds(x))))
                           + (if r.alive then Holds(x)(Rest(r.worker)) else 0)
  {
    ReactCarries(w, input, Plain(Holds(x)));
    var r := React(w, input);
    if r.writes != [] {
      SumOne(r.writes[0], Covers(x));
    }
  }

  // ----- a whole run

  /** The reaction to the first n inputs; nothing is consumed after the worker stops. */
  ghost function Run(w: Worker, inputs: seq<Input>, n: nat): (r: Reaction)
    requires Valid(w) && n <= |inputs|
    ensures Valid(r.worker)
  {
    if n == 0 then
      Reaction(w, [], [], true)
    else
      var p := Run(w, inputs, n - 1);
      ReactKeepsValid(p.worker, inputs[n - 1]);
      if p.alive then
        var r := React(p.worker, inputs[n - 1]);
        r.(writes := p.writes + r.writes, sent := p.sent + r.sent)
      else p
  }

  lemma ReactKeepsValid(w: Worker, input: Input)
    requires Valid(w)
    ensures Valid(React(w, input).worker)
  {
    ReactCarries(w, input, Plain(Length()));
  }

  lemma {:induction false} RunStays(w: Worker, inputs: seq<Input>, k: nat, n: nat)
    requires Valid(w) && k <= n <= |inputs| && !Run(w, inputs, k).alive
    ensures Run(w, inputs, n) == Run(w, inputs, k)
    decreases n
  {
    if k < n {
      RunStays(w, inputs, k, n - 1);
    }
  }

  datatype Turn = Continue | FailedOut | Terminated | LeftLoop

  /** One turn of the worker's select loop; the terminal reports come after the loop. */
  method TakeTurn(w: Worker, input: Input)
    returns (next: Worker, writes: seq<Piece>, sent: seq<Info>, turn: Turn)
    requires Valid(w)
    ensures Valid(next) && (turn == LeftLoop ==> next.offset == next.end + 1)
    ensures React(w, input)
         == Reaction(next, writes, if turn == LeftLoop then sent + ExitReports(next) else sent, turn == Continue)
  {
    next, writes, sent, turn := w, [], [], Continue;
    match input {
      case Terminate =>
        turn := Terminated;
      case Bisect(skewed) =>
        match SplitRange(w.offset, w.end, skewed) {
          case None =>
          case Some(midpoint) =>
            sent := [Bisected(w.id, midpoint + 1, w.end)];
            next := w.(end := midpoint);
        }
      case Fault(error) =>
        sent, turn := Fail(w, error), FailedOut;
      case Eof =>
        if w.offset < w.end + 1 {
          sent, turn := Fail(w, Retriable), FailedOut;
        } else {
          turn := LeftLoop;
        }
      case Data(bytes, slow) =>
        if w.offset > w.end {
          turn := LeftLoop;
        } else {
          var writeLen := Min(w.end - w.offset + 1, |bytes|);
          writes := [Piece(w.offset, bytes[..writeLen])];
          next := w.(offset := w.offset + writeLen);
          var downloaded := next.offset - w.start;
          if downloaded - w.reported >= PROGRESS_THROTTLE_BYTES || slow || next.offset >= w.end || writeLen < |bytes| {
            sent := [Progress(w.id, w.start, w.end, downloaded)];
            next := next.(reported := downloaded);
          }
          if writeLen < |bytes| {
            turn := LeftLoop;
          }
        }
    }
  }

  /** The worker task itself: the loop over inputs and the terminal logic after it. */
  method ChunkRun(id: nat, range: Range, inputs: seq<Input>)
    returns (writes: seq<Piece>, sent: seq<Info>, open: bool, last: Worker)
    requires range.start <= range.end + 1
    ensures Reaction(last, writes, sent, open) == Run(Fresh(id, range), inputs, |inputs|)
  {
    last, writes, sent := Fresh(id, range), [], [];
    var turn := Continue;
    var k := 0;
    while k < |inputs| && turn == Continue
      invariant 0 <= k <= |inputs| && Valid(last) && (turn == LeftLoop ==> last.offset == last.end + 1)
      invariant Run(Fresh(id, range), inputs, k)
        == Reaction(last, writes, if turn == LeftLoop then sent + ExitReports(last) else sent, turn == Continue)
    {
      var newWrites, newSent;
      ghost var sent0 := sent;
      last, newWrites, newSent, turn := TakeTurn(last, inputs[k]);
      writes, sent := writes + newWrites, sent + newSent;
      assert sent0 + (newSent + ExitReports(last)) == sent + ExitReports(last);
      k := k + 1;
    }
    ghost var looped := sent;
    if turn == LeftLoop {
      if last.offset - last.start == Size(Range(last.start, last.end)) {
        sent := sent + [ProgressOf(last), Complete(last.id)];
      } else {
        sent := sent + Fail(last, Retriable);
      }
      assert sent == looped + ExitReports(last);
    }
    open := turn == Continue;
    if !open {
      RunStays(Fresh(id, range), inputs, k, |inputs|);
    }
  }

  ghost function Terminal(): Info -> int {
    (m: Info) => if m.Failed? || m.Complete? then 1 else 0
  }

  ghost function Completion(): Info -> int {
    (m: Info) => if m.Complete? then 1 else 0
  }

  /** The writes are one contiguous stretch from a up to, not including, b. */
  ghost predicate Contiguous(writes: seq<Piece>, a: nat, b: nat) {
    if writes == [] then a == b
    else writes[0].offset == a && Contiguous(writes[1..], a + |writes[0].data|, b)
  }

  lemma {:induction false} ContiguousAppend(u: seq<Piece>, v: seq<Piece>, a: nat, b: nat, c: nat)
    requires Contiguous(u, a, b) && Contiguous(v, b, c)
    ensures Contiguous(u + v, a, c)
  {
    if u == [] {
      assert u + v == v;
    } else {
      ContiguousAppend(u[1..], v, a + |u[0].data|, b, c);
      assert (u + v)[1..] == u[1..] + v;
    }
  }

  lemma ReactTerminals(w: Worker, input: Input)
    requires Valid(w)
    ensures var r := React(w, input);
      && Sum(r.sent, Terminal()) == (if r.alive || input == Terminate then 0 else 1)
      && Sum(r.sent, Completion()) == (if Completes(w, input) then 1 else 0)
  {
    var r := React(w, input);
    match input
    case Terminate =>
    case Fault(error) => FailTerminals(w, error);
    case Eof => if w.offset < w.end + 1 { FailTerminals(w, Retriable); } else { ExitTerminals(w); }
    case Bisect(skewed) =>
      if r.sent != [] {
        SumOne(r.sent[0], Terminal());
        SumOne(r.sent[0], Completion());
      }
    case Data(_, _) => if w.offset > w.end { ExitTerminals(w); } else { DataTerminals(w, input); }
  }

  lemma ExitTerminals(w: Worker)
    requires Valid(w) && w.offset == w.end + 1
    ensures Sum(ExitReports(w), Terminal()) == 1
    ensures Sum(ExitReports(w), Completion()) == if w.start <= w.end then 1 else 0
  {
    FailTerminals(w, Retriable);
    SumTwo(ProgressOf(w), Complete(w.id), Terminal());
    SumTwo(ProgressOf(w), Complete(w.id), Completion());
  }

  lemma DataTerminals(w: Worker, input: Input)
    requires Valid(w) && input.Data? && w.offset <= w.end
    ensures Sum(React(w, input).sent, Terminal()) == if w.end - w.offset + 1 < |input.bytes| then 1 else 0
    ensures Sum(React(w, input).sent, Completion()) == if w.end - w.offset + 1 < |input.bytes| then 1 else 0
  {
    var moved := w.(offset := w.offset + Min(w.end - w.offset + 1, |input.bytes|));
    SumOne(ProgressOf(moved), Terminal());
    SumOne(ProgressOf(moved), Completion());
    if w.end - w.offset + 1 < |input.bytes| {
      var last := React(w, input).worker;
      ExitTerminals(last);
      SumAppend([ProgressOf(moved)], ExitReports(last), Terminal());
      SumAppend([ProgressOf(moved)], ExitReports(last), Completion());
    }
  }

  /** A completing worker has everything; one that stops otherwise reports a failure, with the class of
      the fault; and a cut leaves both sides long enough. */
  lemma ReactStops(w: Worker, input: Input)
    requires Valid(w)
    ensures var r := React(w, input);
      && (Completes(w, input) ==> !r.alive && r.worker.offset == r.worker.end + 1)
      && (!r.alive && input != Terminate && !Completes(w, input) ==>
            r.sent == Fail(w, if input.Fault? then input.error else Retriable))
      && (forall m | m in r.sent && m.Bisected? :: Len(Range(m.start, m.end)) >= MIN_CHUNK_SIZE
                                               && Len(Rest(r.worker)) >= MIN_CHUNK_SIZE)
  {
    if w.offset == w.end + 1 {
      ExitCarries(w, Plain(Length()));
      assert w.start > w.end ==> ExitReports(w) == Fail(w, Retriable);
    }
  }

  lemma FailTerminals(w: Worker, error: ErrorClass)
    requires w.start <= w.offset
    ensures Sum(Fail(w, error), Terminal()) == 1 && Sum(Fail(w, error), Completion()) == 0
  {
    var failed := Failed(w.id, w.offset, w.end, error);
    SumOne(failed, Terminal());
    SumOne(failed, Completion());
    SumTwo(ProgressOf(w), failed, Terminal());
    SumTwo(ProgressOf(w), failed, Completion());
    assert Fail(w, error) == if Downloaded(w) != w.reported then [ProgressOf(w), failed] else [failed];
  }

  /** A worker's whole run, for every sequence of data, cuts and errors: what it wrote is
      exactly start..offset-1; written bytes, announced halves, the failure report and what an
      unfinished or terminated worker still owes partition its range; it ends with at most one
      terminal message; and it completes only with every byte of a nonempty attempt written. */
  lemma {:induction false} RunConserves(w: Worker, inputs: seq<Input>, n: nat, x: int)
    requires Valid(w) && n <= |inputs|
    ensures var r := Run(w, inputs, n);
      && r.worker.start == w.start && r.worker.id == w.id
      && Contiguous(r.writes, w.offset, r.worker.offset)
      && 0 <= Sum(r.sent, Completion()) <= Sum(r.sent, Terminal()) <= (if r.alive then 0 else 1)
      && Holds(x)(Rest(w)) == Sum(r.writes, Covers(x)) + Sum(r.sent, CarriedBy(Plain(Holds(x))))
                              + (if Sum(r.sent, Terminal()) == 0 then Holds(x)(Rest(r.worker)) else 0)
      && (Sum(r.sent, Completion()) == 1 ==> w.start <= r.worker.end && r.worker.offset == r.worker.end + 1)
      && (forall m | m in r.sent && m.Bisected? :: Len(Range(m.start, m.end)) >= MIN_CHUNK_SIZE)
  {
    hide React, Contiguous;
    if n == 0 {
      assert Contiguous([], w.offset, w.offset) by { NoWrites(w.offset); }
    } else {
      var p := Run(w, inputs, n - 1);
      RunConserves(w, inputs, n - 1, x);
      if p.alive {
        StepConserves(p.worker, inputs[n - 1], x);
        var r := React(p.worker, inputs[n - 1]);
        ContiguousAppend(p.writes, r.writes, w.offset, p.worker.offset, r.worker.offset);
        SumAppend(p.writes, r.writes, Covers(x));
        SumAppend(p.sent, r.sent, CarriedBy(Plain(Holds(x))));
        SumAppend(p.sent, r.sent, Terminal());
        SumAppend(p.sent, r.sent, Completion());
      }
    }
  }

  lemma NoWrites(a: nat)
    ensures Contiguous([], a, a)
  {
  }

  lemma StepConserves(w: Worker, input: Input, x: int)
    requires Valid(w)
    ensures var r := React(w, input);
      && Valid(r.worker) && r.worker.start == w.start && r.worker.id == w.id
      && Contiguous(r.writes, w.offset, r.worker.offset)
      && Sum(r.sent, Terminal()) == (if r.alive || input == Terminate then 0 else 1)
      && 0 <= Sum(r.sent, Completion()) <= Sum(r.sent, Terminal())
      && Holds(x)(Rest(w)) == Sum(r.writes, Covers(x)) + Sum(r.sent, CarriedBy(Plain(Holds(x))))
                              + (if r.alive || input == Terminate then Holds(x)(Rest(r.worker)) else 0)
      && (Sum(r.sent, Completion()) == 1 ==> w.start <= r.worker.end && r.worker.offset == r.worker.end + 1)
      && (forall m | m in r.sent && m.Bisected? :: Len(Range(m.start, m.end)) >= MIN_CHUNK_SIZE)
  {
    var r := React(w, input);
    ReactTerminals(w, input);
    ReactStops(w, input);
    ReactCarries(w, input, Plain(Holds(x)));
    if input != Terminate {
      ReactConserves(w, input, x);
    }
    if r.writes != [] {
      assert r.writes[1..] == [];
    }
  }
}
