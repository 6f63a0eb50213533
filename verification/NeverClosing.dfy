/** A run with a server that never closes its stream, event by event: one worker, one byte. The byte
    arrives and is handed to the writer, the idle timeout ends the worker, the monitor reads both of its
    messages and joins it; nothing is running or unread, and the tick does not finish the download. */
module NeverClosing {
  import opened Ranges
  import opened Files
  import opened Chunk
  import opened Ledger
  import opened Retry
  import opened MonitorSpec
  import opened Protocol
  import opened Finish
  import opened OrderedLedger
  import opened EmptyAttempts

  function OneByte(): Session {
    Session(1, 0, [], [Range(0, 0)], None, 0)
  }

  const ARRIVED := Progress(0, 0, 0, 1)
  const TIMED_OUT := Failed(0, 1, 0, Retriable)

  function Events(): seq<Event> {
    [WorkerActs(0, Data([0], false), [ARRIVED]), WorkerActs(0, Fault(Retriable), [TIMED_OUT]),
     ReceiveReliable(0), ReceiveReliable(0), ReliableEmpty, Join, ReliableEmpty, NoJoin]
  }

  /** The states of this run. */
  function At(books: Books, queues: Queues, live: seq<Worker>, exited: nat, chan: seq<Info>, handed: seq<Piece>,
              phase: Phase): Sys
  {
    Sys([], Mon(books, queues, None, map[], [], 0, 1), live, exited, chan, handed, phase, Running)
  }

  function Bare(): Books { Books(1, map[], 0, {}) }

  function Full(): Books { Books(1, map[], 1, {}) }

  function OneWaiting(): Queues {
    Queues([Ticket(0, 1, 0, 2073, 1)], [], map[0 := 1], map[0 := 1], [], Some(0))
  }

  function Started(): Sys {
    At(Bare(), EmptyQueues(), [Worker(0, 0, 0, 0, 0)], 0, [], [], AtTop)
  }

  function AfterData(): Sys {
    At(Bare(), EmptyQueues(), [Worker(0, 0, 1, 0, 1)], 0, [ARRIVED], [Piece(0, [0])], AtTop)
  }

  function AfterTimeout(): Sys {
    At(Bare(), EmptyQueues(), [], 1, [ARRIVED, TIMED_OUT], [Piece(0, [0])], AtTop)
  }

  function AfterProgress(): Sys {
    At(Books(1, map[0 := Entry(0, 0, 1)], 0, {}), EmptyQueues(), [], 1, [TIMED_OUT], [Piece(0, [0])], AtTop)
  }

  function Waiting(exited: nat, phase: Phase): Sys {
    At(Full(), OneWaiting(), [], exited, [], [Piece(0, [0])], phase)
  }

  lemma BeginsStarted()
    ensures Begin(OneByte()) == Started()
    ensures Proper(OneByte()) && CanStart(OneByte().source)
  {
    var m := NewMon(1, 0, None);
    var one := StartNew(m, None, Range(0, 0));
    assert Launch(one.mon, [], 0) == Effect(one.mon, []);
    assert [Range(0, 0)][1..] == [];
    assert Launch(m, [Range(0, 0)], 0) == Effect(one.mon, one.spawned + []);
    SumOne(Range(0, 0), Length());
    forall x: int ensures Sum([Range(0, 0)], Holds(x)) == if x == 0 then 1 else 0 {
      SumOne(Range(0, 0), Holds(x));
    }
  }

  lemma DataStep()
    ensures Enabled(Started(), Events()[0]) && Step(Started(), Events()[0]) == AfterData()
    ensures InOrder(Started(), Events()[0])
  {
    assert [0][..1] == [0];
    assert React(Started().live[0], Data([0], false))
        == Reaction(Worker(0, 0, 1, 0, 1), [Piece(0, [0])], [ARRIVED], true);
  }

  lemma TimeoutStep()
    ensures Enabled(AfterData(), Events()[1]) && Step(AfterData(), Events()[1]) == AfterTimeout()
    ensures InOrder(AfterData(), Events()[1])
  {
    assert React(AfterData().live[0], Fault(Retriable)).sent == [TIMED_OUT];
  }

  lemma ProgressStep()
    ensures Enabled(AfterTimeout(), ReceiveReliable(0)) && Step(AfterTimeout(), ReceiveReliable(0)) == AfterProgress()
  {
  }

  lemma FailureStep()
    ensures Enabled(AfterProgress(), ReceiveReliable(0))
    ensures Step(AfterProgress(), ReceiveReliable(0)) == Waiting(1, AtTop)
  {
    assert map[0 := Entry(0, 0, 1)] - {0} == map[];
    assert FailChunk(Books(1, map[0 := Entry(0, 0, 1)], 0, {}), 0, 1) == Full();
    assert OnChunkFailed(EmptyQueues(), 0, 1, 0, Retriable, 0) == OneWaiting();
    assert Unbind(AfterProgress().mon, 0, true, 0) == AfterProgress().mon;
  }

  lemma JoinSteps()
    ensures Enabled(Waiting(1, AtTop), ReliableEmpty)
    ensures Step(Waiting(1, AtTop), ReliableEmpty) == Waiting(1, PolledReliable)
    ensures Enabled(Waiting(1, PolledReliable), Join) && Step(Waiting(1, PolledReliable), Join) == Waiting(0, AtTop)
    ensures Enabled(Waiting(0, AtTop), ReliableEmpty)
    ensures Step(Waiting(0, AtTop), ReliableEmpty) == Waiting(0, PolledReliable)
    ensures Enabled(Waiting(0, PolledReliable), NoJoin)
    ensures Step(Waiting(0, PolledReliable), NoJoin) == Waiting(0, PolledJoins)
  {
  }

  /** From s, the event goes to t and the rest of the events to u, in order. */
  lemma Chain(s: Sys, es: seq<Event>, u: Sys)
    requires es != [] && Enabled(s, es[0]) && InOrder(s, es[0])
    requires Legal(Step(s, es[0]), es[1..]) && OrderedRun(Step(s, es[0]), es[1..])
    requires After(Step(s, es[0]), es[1..]) == u
    ensures Legal(s, es) && OrderedRun(s, es) && After(s, es) == u
  {
    hide Step;
  }

  lemma Stop(s: Sys, es: seq<Event>)
    requires es == []
    ensures Legal(s, es) && OrderedRun(s, es) && After(s, es) == s
  {
  }

  lemma TailRuns()
    ensures var es := Events()[2..];
      && Legal(AfterTimeout(), es) && OrderedRun(AfterTimeout(), es)
      && After(AfterTimeout(), es) == Waiting(0, PolledJoins)
  {
    hide Step, Legal, After, OrderedRun, Waiting, AfterTimeout, AfterProgress;
    var es := Events();
    var end := Waiting(0, PolledJoins);
    ProgressStep();
    FailureStep();
    JoinSteps();
    assert es[2..][1..] == es[3..] && es[3..][1..] == es[4..] && es[4..][1..] == es[5..];
    assert es[5..][1..] == es[6..] && es[6..][1..] == es[7..] && es[7..][1..] == [];
    Stop(end, []);
    Chain(Waiting(0, PolledReliable), es[7..], end);
    Chain(Waiting(0, AtTop), es[6..], end);
    Chain(Waiting(1, PolledReliable), es[5..], end);
    Chain(Waiting(1, AtTop), es[4..], end);
    Chain(AfterProgress(), es[3..], end);
    Chain(AfterTimeout(), es[2..], end);
  }

  lemma WholeRun()
    ensures var es := Events();
      Legal(Started(), es) && OrderedRun(Started(), es) && After(Started(), es) == Waiting(0, PolledJoins)
  {
    hide Step, Legal, After, OrderedRun, Waiting, Started, AfterData, AfterTimeout;
    var es := Events();
    DataStep();
    TimeoutStep();
    TailRuns();
    assert es[1..][1..] == es[2..];
    Chain(AfterData(), es[1..], Waiting(0, PolledJoins));
    Chain(Started(), es, Waiting(0, PolledJoins));
  }

  /** The run exists, in order and from a proper session; at its end every byte is handed over and every
      task is joined, and the tick, at any time, does not finish the download. */
  lemma HandedOverButUnfinished(now: int)
    ensures var p := OneByte();
      && Proper(p) && CanStart(p.source) && Legal(Begin(p), Events()) && OrderedRun(Begin(p), Events())
      && var s := After(Begin(p), Events());
      && AllHanded(p, s) && Tasks(s) == 0 && s.chan == [] && Enabled(s, TickFires(now))
      && Step(s, TickFires(now)).outcome != Finished
      && CompleteFailures(Begin(p), Events()) > 0
  {
    hide Begin, Step, OrderedRun, Legal, After, CompleteFailures, Started;
    BeginsStarted();
    WholeRun();
    var s := After(Begin(OneByte()), Events());
    assert s == Waiting(0, PolledJoins);
    forall x: int | 0 <= x < 1 ensures Sum(s.handed, Covers(x)) >= 1 {
      SumOne(Piece(0, [0]), Covers(x));
    }
    NothingTrusted(s);
    TickStaysOpen(now);
    FinishesIffNoCompleteFailure(OneByte(), Events(), now);
  }

  lemma NothingTrusted(s: Sys)
    requires forall x: int :: 0 <= x < 1 ==> Sum(s.handed, Covers(x)) >= 1
    ensures AllHanded(OneByte(), s)
  {
  }

  lemma TickStaysOpen(now: int)
    ensures Enabled(Waiting(0, PolledJoins), TickFires(now))
    ensures Step(Waiting(0, PolledJoins), TickFires(now)).outcome != Finished
  {
    hide Restarted;
    var m := Waiting(0, PolledJoins).mon;
    if Step(Waiting(0, PolledJoins), TickFires(now)).outcome == Finished {
      FinishedIsShortCircuit(m, 0, now);
      OneStays(m, now);
    }
  }

  /** The waiting ticket is started, or still waits. */
  lemma OneStays(m: Mon, now: int)
    requires m == Waiting(0, PolledJoins).mon
    ensures Restarted(m, now).spawned != [] || !QueuesEmpty(Restarted(m, now).mon)
  {
    var t := m.queues.retry[0];
    assert t.readyAt > now ==> FirstRipe(m.queues.retry, now) == 1;
  }
}
