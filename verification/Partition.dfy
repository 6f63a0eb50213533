/** No byte is ever lost or handed to the writer twice: in every reachable state the file is the disjoint union
    of what was trusted, what was handed to the writer and what is still open somewhere. */
module Partition {
  import opened Ranges
  import opened Chunk
  import opened Retry
  import opened MonitorSpec
  import opened Protocol

  ghost function RestOf(g: Range -> int): Worker -> int {
    (w: Worker) => g(Rest(w))
  }

  ghost function Zero(): nat -> int {
    (id: nat) => 0
  }

  lemma {:induction false} MintedZero(from: nat, to: nat)
    ensures Minted(Zero(), from, to) == 0
  {
    if from < to {
      MintedZero(from, to - 1);
    }
  }

  lemma PlainCompatible(g: Range -> int)
    ensures Compatible(RestOf(g), Plain(g), Zero())
  {
    forall id: nat, r: Range ensures RestOf(g)(Fresh(id, r)) == g(r) {
      assert Rest(Fresh(id, r)) == r;
    }
  }

  // ----- every range in the system is well formed

  ghost function Malformed(): Range -> int {
    (r: Range) => if r.start <= r.end + 1 then 0 else 1
  }

  ghost function Invalid(): Worker -> int {
    (w: Worker) => if Valid(w) then 0 else 1
  }

  ghost function Faults(s: Sys): int {
    Open(s, Invalid(), Plain(Malformed()))
  }

  lemma StepKeepsWellFormed(s: Sys, e: Event)
    requires Enabled(s, e)
    ensures Faults(Step(s, e)) == Faults(s)
  {
    if e.WorkerActs? {
      WorkerStepMeasure(s, e, Invalid(), Plain(Malformed()));
      ReactCarries(s.live[e.i], e.input, Plain(Malformed()));
    } else {
      MonitorStepMeasure(s, e, Invalid(), Plain(Malformed()), Zero());
      MintedZero(s.mon.nextId, Step(s, e).mon.nextId);
    }
  }

  lemma {:induction false} AlwaysWellFormed(s: Sys, es: seq<Event>)
    requires Legal(s, es) && Faults(s) == 0
    ensures Faults(After(s, es)) == 0
    decreases |es|
  {
    if es != [] {
      StepKeepsWellFormed(s, es[0]);
      AlwaysWellFormed(Step(s, es[0]), es[1..]);
    }
  }

  lemma BeginsWellFormed(p: Session)
    requires Proper(p)
    ensures Faults(Begin(p)) == 0
  {
    BeginMeasure(p, Invalid(), Plain(Malformed()), Zero());
    MintedZero(0, Begin(p).mon.nextId);
    SumZero(p.ranges, Malformed());
  }

  /** The validity that Enabled asks of an acting worker is never what stops it. */
  lemma LiveWorkersValid(p: Session, es: seq<Event>, i: nat)
    requires Proper(p) && Legal(Begin(p), es) && i < |After(Begin(p), es).live|
    ensures Valid(After(Begin(p), es).live[i])
  {
    hide Begin, Step, Faults;
    BeginsWellFormed(p);
    AlwaysWellFormed(Begin(p), es);
    NoFaultIsValid(After(Begin(p), es), i);
  }

  /** The model leaves nothing out by getting stuck: while a run goes on, every worker may meet any input,
      with its progress lost or not, and the monitor's loop has a next step. */
  lemma NeverStuck(p: Session, es: seq<Event>, i: nat, input: Input, now: int)
    requires Proper(p) && Legal(Begin(p), es) && After(Begin(p), es).outcome == Running
    ensures var s := After(Begin(p), es);
      && (i < |s.live| && input != Terminate ==>
            && Valid(s.live[i])
            && Enabled(s, WorkerActs(i, input, React(s.live[i], input).sent))
            && Enabled(s, WorkerActs(i, input, Reliable(React(s.live[i], input).sent))))
      && (exists e :: Enabled(s, e) && !e.WorkerActs? && !e.StrayProgress?)
      && (s.phase == PolledJoins ==> Enabled(s, TickFires(now)))
      && (s.phase == PolledReliable && s.exited > 0 ==> Enabled(s, Join))
  {
    hide Begin, React;
    var s := After(Begin(p), es);
    if i < |s.live| {
      LiveWorkersValid(p, es, i);
      ReliableTwice(React(s.live[i], input).sent);
    }
    var next := if s.phase == AtTop then (if s.chan == [] then ReliableEmpty else ReceiveReliable(now))
                else if s.phase == PolledReliable then (if s.exited > 0 then Join else NoJoin)
                else TickFires(now);
    assert Enabled(s, next);
  }

  lemma {:induction false} ReliableTwice(msgs: seq<Info>)
    ensures Reliable(Reliable(msgs)) == Reliable(msgs)
  {
    if msgs != [] {
      ReliableTwice(msgs[1..]);
      if !msgs[0].Progress? {
        assert Reliable(msgs)[1..] == Reliable(msgs[1..]);
      } else {
        assert Reliable(msgs) == Reliable(msgs[1..]);
      }
    }
  }

  lemma NoFaultIsValid(s: Sys, i: nat)
    requires Faults(s) == 0 && i < |s.live|
    ensures Valid(s.live[i])
  {
    OpenParts(s, Invalid(), Plain(Malformed()));
    SumAtLeast(s.live, i, Invalid());
  }

  /** A measure that is never negative is at least each of its parts. */
  lemma OpenParts(s: Sys, w: Worker -> int, g: Measure)
    requires forall x: Worker :: w(x) >= 0
    requires forall id: nat, r: Range :: g.owned(id, r) >= 0
    requires forall r: Range :: g.loose(r) >= 0
    requires forall id: nat :: g.done(id) >= 0
    ensures Sum(s.live, w) >= 0 && Sum(s.chan, CarriedBy(g)) >= 0 && Sum(s.mon.pending, g.loose) >= 0
    ensures Held(s.mon.queues, g.owned) >= 0
    ensures Sum(s.mon.queues.retry, OfTicket(g.owned)) >= 0 && Sum(s.mon.queues.delayed, OfDelayed(g.owned)) >= 0
    ensures Sum(s.mon.queues.permanent, OfPermanent(g.owned)) >= 0
  {
    SumNonneg(s.live, w);
    SumNonneg(s.chan, CarriedBy(g));
    SumNonneg(s.mon.pending, g.loose);
    var q := s.mon.queues;
    forall t: Ticket ensures OfTicket(g.owned)(t) >= 0 {
      assert g.owned(t.id, Range(t.start, t.end)) >= 0;
    }
    forall d: Delayed ensures OfDelayed(g.owned)(d) >= 0 {
      assert g.owned(d.chunk.id, Range(d.chunk.start, d.chunk.end)) >= 0;
    }
    forall f: PermanentFailure ensures OfPermanent(g.owned)(f) >= 0 {
      if f.OfChunk? {
        assert g.owned(f.ticket.id, Range(f.ticket.start, f.ticket.end)) >= 0;
      }
    }
    SumNonneg(q.retry, OfTicket(g.owned));
    SumNonneg(q.delayed, OfDelayed(g.owned));
    SumNonneg(q.permanent, OfPermanent(g.owned));
  }

  // ----- the partition

  /** In how many places byte x is: trusted, handed to the writer, or still open. */
  ghost function Places(s: Sys, x: int): int {
    Sum(s.trusted, Holds(x)) + Sum(s.handed, Covers(x)) + Open(s, RestOf(Holds(x)), Plain(Holds(x)))
  }

  lemma StepKeepsPlaces(s: Sys, e: Event, x: int)
    requires Enabled(s, e)
    ensures Places(Step(s, e), x) == Places(s, x)
    ensures Step(s, e).trusted == s.trusted
  {
    var g := Plain(Holds(x));
    if e.WorkerActs? {
      var w := s.live[e.i];
      WorkerStepMeasure(s, e, RestOf(Holds(x)), g);
      ReactConserves(w, e.input, x);
      SumAppend(s.handed, React(w, e.input).writes, Covers(x));
    } else {
      PlainCompatible(Holds(x));
      MonitorStepMeasure(s, e, RestOf(Holds(x)), g, Zero());
      MintedZero(s.mon.nextId, Step(s, e).mon.nextId);
    }
  }

  lemma {:induction false} RunKeepsPlaces(s: Sys, es: seq<Event>, x: int)
    requires Legal(s, es)
    ensures Places(After(s, es), x) == Places(s, x) && After(s, es).trusted == s.trusted
    decreases |es|
  {
    if es != [] {
      StepKeepsPlaces(s, es[0], x);
      RunKeepsPlaces(Step(s, es[0]), es[1..], x);
    }
  }

  /** The whole-run partition: after any legal sequence of events, whatever the network, the
      commands, the clock and the loss of progress messages do, every byte of the file is in
      exactly one place and no byte outside it is anywhere. */
  lemma PartitionAlways(p: Session, es: seq<Event>, x: int)
    requires Proper(p) && Legal(Begin(p), es)
    ensures Places(After(Begin(p), es), x) == if 0 <= x < p.size then 1 else 0
  {
    PlainCompatible(Holds(x));
    BeginMeasure(p, RestOf(Holds(x)), Plain(Holds(x)), Zero());
    MintedZero(0, Begin(p).mon.nextId);
    RunKeepsPlaces(Begin(p), es, x);
  }
}
