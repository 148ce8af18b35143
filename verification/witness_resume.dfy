/** A run in which resuming from the number in a terminal frame loses an event. */
module MidBatchWitness {
  import opened Events
  import opened EventCaches
  import opened Subscription
  import opened Connections
  import opened ConnectionInvariant
  import opened Placement
  import opened Pipeline
  import opened Delivery
  import opened Resume
  import opened WitnessRuns
  import Tailing

  const CFG := Config(4, 4, 0, 0, 100, 100)
  const A: Bytes := [1]
  const B: Bytes := [2]
  const C: Bytes := [3]
  const I0 := Item(0, CachedEvent(1, A))
  const I1 := Item(1, CachedEvent(1, B))
  const I2 := Item(2, CachedEvent(2, C))
  const FIRST: seq<CachedEvent> := [CachedEvent(1, A), CachedEvent(1, B)]
  const ALL: seq<CachedEvent> := [CachedEvent(1, A), CachedEvent(1, B), CachedEvent(2, C)]

  function Fresh(): Conn {
    NewConn(4, 0)
  }

  // ----- The first connection -----

  function Live0(): Conn {
    Fresh().(pc := CheckingShutdown([]), ranged := Some(0))
  }

  function Live1(): Conn {
    Live0().(sub := NewSub<Item>(4, 0).(queue := [Live(I0), Live(I1)]), enqueued := [I0, I1])
  }

  /** It has written the first event of the batch; the second is still queued. */
  function Live2(): Conn {
    Live1().(sub := NewSub<Item>(4, 0).(queue := [Live(I1)], lastDelivered := 1), taken := 1, wire := [EventFrame(I0)])
  }

  function Flagged(): Conn {
    Live2().(sub := Live2().sub.(shutdownRequested := true))
  }

  function Told(): Conn {
    Live2().(sub := NewSub<Item>(4, 0).(queue := [Live(I1), Shutdown], lastDelivered := 1, shutdownRequested := true))
  }

  function Gone(): Conn {
    Told().(pc := Finished, sub := Told().sub.(receiverOpen := false), wire := [EventFrame(I0), ServerShutdownFrame(1)])
  }

  lemma BatchToFirst()
    ensures Offered(Offered(Live0(), I0, Sending), I1, Sending) == Live1()
    ensures OfferAccess(Live0().sub, I0, Sending).1.None?
    ensures OfferAccess(Offered(Live0(), I0, Sending).sub, I1, Sending).1.None?
    ensures !Offered(Live0(), I0, Sending).sub.disconnected
  {
    assert [I0] + [I1] == [I0, I1] && [] + [I0] == [I0];
    assert [Live(I0)] + [Live(I1)] == [Live(I0), Live(I1)];
  }

  lemma FirstWritesOne()
    ensures var w := Live1().(pc := Receiving([]));
            Act(Act(w, TakeNext), WriteNext(true)) == Live2()
  {
    assert [Live(I0), Live(I1)][1..] == [Live(I1)];
    assert [] + [EventFrame(I0)] == [EventFrame(I0)];
  }

  lemma FirstIsTold()
    ensures Signalled(Live2(), Looking) == Live2() && SignalAccess(Live2().sub, Looking).1 == Some(Flagging)
    ensures Signalled(Live2(), Flagging) == Flagged() && SignalAccess(Live2().sub, Flagging).1 == Some(Waking)
    ensures Signalled(Flagged(), Waking) == Told() && SignalAccess(Flagged().sub, Waking).1.None?
    ensures Left(Act(Told(), CheckShutdown(true))) == Gone()
    ensures Act(Told(), CheckShutdown(true)).pc.Unregistering?
  {
    assert [Live(I1)] + [Shutdown] == [Live(I1), Shutdown];
    assert [EventFrame(I0)] + [ServerShutdownFrame(1)] == [EventFrame(I0), ServerShutdownFrame(1)];
  }

  // ----- The run, up to the end of the first connection -----

  lemma TwoConnections() returns (run: seq<State>)
    ensures IsRun(run) && Last(run) == Init(CFG).(conns := [Fresh().(pc := Ranging), Fresh()], registry := [0])
  {
    hide IsRun;
    var s := Init(CFG);
    run := Begin(CFG);
    run := Extend(run, Run(ObserveStop));
    run := Extend(run, Run(AcceptConn));
    assert Last(run) == s.(conns := [Fresh()]);
    run := Extend(run, Run(ObserveStop));
    run := Extend(run, Run(AcceptConn));
    assert Last(run) == s.(conns := [Fresh(), Fresh()]);
    run := Extend(run, Thread(0, AcceptHandshake(0)));
    run := Extend(run, Register(0));
  }

  function Base(c: Conn): State {
    Init(CFG).(conns := [c, Fresh()], registry := [0], file := TwoFrames())
  }

  lemma FirstIsLive() returns (run: seq<State>)
    ensures IsRun(run) && Last(run) == Base(Live0())
  {
    hide IsRun, TwoFrames;
    var s := Init(CFG);
    run := TwoConnections();
    run := Extend(run, RangeCache(0));
    run := Extend(run, Thread(0, FinishBackfill));
    assert Last(run) == s.(conns := [Fresh().(pc := StopChecking, ranged := Some(0)), Fresh()], registry := [0]);
    run := Extend(run, Thread(0, Local.CheckStop(false)));
    run := Extend(run, Thread(0, EnterDispatch));
    assert Last(run) == s.(conns := [Live0(), Fresh()], registry := [0]);
    run := Extend(run, Append(TwoFrames()));
    assert [] + TwoFrames() == TwoFrames();
  }

  function Reading(c: Conn): State {
    Base(c).(tail := Tailing.Tail(20, 2), frames := [[]])
  }

  lemma FirstFrameIsRead() returns (run: seq<State>)
    ensures IsRun(run) && Last(run) == Reading(Live0()).(ext := Pushing(1, [A, B], 0))
  {
    hide IsRun, TwoFrames, Tailing.Poll;
    run := FirstIsLive();
    run := Extend(run, Ext(ExtAction.CheckStop));
    PollsOfTwoFrames();
    run := Extend(run, Ext(PollLog));
    assert Last(run) == Reading(Live0()).(ext := Extracting(1, []));
    run := Extend(run, Ext(ExtractOk([A, B])));
    run := Extend(run, Ext(TakeLock));
  }

  function Pushed2(c: Conn): State {
    Reading(c).(hist := FIRST, cache := Cache(FIRST, 4, 1, None))
  }

  lemma FirstBatchIsPushed() returns (run: seq<State>)
    ensures IsRun(run) && Last(run) == Pushed2(Live0()).(ext := Broadcasting(1, [A, B], [0], 0, 0, Checking))
  {
    hide IsRun, TwoFrames;
    run := FirstFrameIsRead();
    run := Extend(run, Ext(PushOne));
    assert Last(run) == Reading(Live0()).(ext := Pushing(1, [A, B], 1), hist := FIRST[..1],
          cache := Cache(FIRST[..1], 4, 1, None));
    run := Extend(run, Ext(PushOne));
    assert FIRST[..1] + [CachedEvent(1, B)] == FIRST;
    run := Extend(run, Ext(TakeSnapshot));
  }

  function Published(c: Conn): State {
    Pushed2(c).(batches := [[A, B]], published := 2)
  }

  lemma FirstEventIsBroadcast() returns (run: seq<State>)
    ensures IsRun(run)
    ensures Last(run) == Pushed2(Offered(Live0(), I0, Sending)).(ext := Broadcasting(1, [A, B], [0], 1, 0, Checking))
  {
    hide IsRun, TwoFrames, Offered, OfferAccess;
    BatchToFirst();
    OfferPasses(Live0(), I0);
    run := FirstBatchIsPushed();
    run := Extend(run, Ext(OfferOne));
    assert Last(run) == Pushed2(Live0()).(ext := Broadcasting(1, [A, B], [0], 0, 0, Sending));
    run := Extend(run, Ext(OfferOne));
    run := Extend(run, Ext(NextEvent));
  }

  lemma FirstBatchIsBroadcast() returns (run: seq<State>)
    ensures IsRun(run) && Last(run) == Published(Live1()).(ext := Polling)
  {
    hide IsRun, TwoFrames, Offered, OfferAccess;
    BatchToFirst();
    var c := Offered(Live0(), I0, Sending);
    OfferPasses(c, I1);
    run := FirstEventIsBroadcast();
    run := Extend(run, Ext(OfferOne));
    assert Last(run) == Pushed2(c).(ext := Broadcasting(1, [A, B], [0], 1, 0, Sending));
    run := Extend(run, Ext(OfferOne));
    run := Extend(run, Ext(NextEvent));
    run := Extend(run, Ext(ReleaseLock));
    assert Last(run) == Published(Live1());
    run := Extend(run, Ext(ExtAction.CheckStop));
  }

  lemma FirstIsReceiving() returns (run: seq<State>)
    ensures IsRun(run) && Last(run) == Published(Live1().(pc := Receiving([]))).(ext := Polling)
  {
    hide IsRun, TwoFrames;
    run := FirstBatchIsBroadcast();
    run := Extend(run, Thread(0, CheckShutdown(true)));
    run := Extend(run, Thread(0, CheckDisconnected(true)));
  }

  lemma FirstEventIsWritten() returns (run: seq<State>)
    ensures IsRun(run) && Last(run) == Published(Live2()).(ext := Polling)
  {
    hide IsRun, TwoFrames, Act;
    run := FirstIsReceiving();
    FirstWritesOne();
    run := Extend(run, Thread(0, TakeNext));
    TookOne(Live1().(pc := Receiving([])));
    run := Extend(run, Thread(0, WriteNext(true)));
  }

  function Stopping(c: Conn): State {
    Published(c).(ext := Polling, stop := true)
  }

  /** The operator stops the server, which tells the first connection. */
  lemma FirstHears() returns (run: seq<State>)
    ensures IsRun(run) && Last(run) == Stopping(Told()).(main := FinalSignalling([], Looking))
  {
    hide IsRun, TwoFrames, Signalled, SignalAccess, Act, Left;
    FirstIsTold();
    run := FirstEventIsWritten();
    run := Extend(run, OperatorStop);
    run := Extend(run, Run(ObserveStop));
    run := Extend(run, Run(ShutdownSnapshot));
    assert Last(run) == Stopping(Live2()).(main := FinalSignalling([0], Looking));
    run := Extend(run, Run(ShutdownSignal));
    assert Last(run) == Stopping(Live2()).(main := FinalSignalling([0], Flagging));
    run := Extend(run, Run(ShutdownSignal));
    assert Last(run) == Stopping(Flagged()).(main := FinalSignalling([0], Waking));
    run := Extend(run, Run(ShutdownSignal));
    assert [0][1..] == [];
  }

  lemma FirstLeaves() returns (run: seq<State>)
    ensures IsRun(run) && Last(run) == Stopping(Gone()).(main := FinalSignalling([], Looking), registry := [])
  {
    hide IsRun, TwoFrames, Act, Left;
    FirstIsTold();
    run := FirstHears();
    run := Extend(run, Thread(0, CheckShutdown(true)));
    run := Extend(run, Unregister(0));
  }

  // ----- The second frame, and the second connection -----

  function Ended2(): State {
    Stopping(Gone()).(main := FinalSignalling([], Looking), registry := [], tail := Tailing.Tail(40, 3),
          frames := [[], []])
  }

  lemma SecondFrameIsRead(before: seq<State>) returns (run: seq<State>)
    requires IsRun(before) && Last(before) == Stopping(Gone()).(main := FinalSignalling([], Looking), registry := [])
    ensures IsRun(run) && Last(run) == Ended2().(ext := Pushing(2, [C], 0)) && before <= run
  {
    hide IsRun, TwoFrames, Tailing.Poll;
    PollsOfTwoFrames();
    run := Extend(before, Ext(PollLog));
    assert Last(run) == Ended2().(ext := Extracting(2, []));
    run := Extend(run, Ext(ExtractOk([C])));
    run := Extend(run, Ext(TakeLock));
  }

  function Final(c: Conn): State {
    Ended2().(ext := LoopTop, hist := ALL, cache := Cache(ALL, 4, 2, None), batches := [[A, B], [C]], published := 3,
              conns := [Gone(), c])
  }

  lemma SecondBatchIsPublished(before: seq<State>) returns (run: seq<State>)
    requires IsRun(before) && Last(before) == Ended2().(ext := Pushing(2, [C], 0))
    ensures IsRun(run) && Last(run) == Final(Fresh()) && before <= run
  {
    hide IsRun, TwoFrames;
    run := Extend(before, Ext(PushOne));
    assert FIRST + [CachedEvent(2, C)] == ALL;
    run := Extend(run, Ext(TakeSnapshot));
    assert Last(run) == Final(Fresh()).(ext := Broadcasting(2, [C], [], 0, 0, Checking), batches := [[A, B]],
          published := 2);
    run := Extend(run, Ext(NextEvent));
    run := Extend(run, Ext(ReleaseLock));
    assert [[A, B]] + [[C]] == [[A, B], [C]];
  }

  function Joiner(): Conn {
    Fresh().(pc := Ranging, resumeFrom := 1, joinPos := 3, joinSeq := 2)
  }

  function Backfilled(): Conn {
    Joiner().(pc := Backfilling(1), backfill := [I2], ranged := Some(3), wire := [EventFrame(I2)],
              sub := NewSub<Item>(4, 0).(lastDelivered := 2))
  }

  lemma CacheServesThird()
    ensures RangeResult(Final(Joiner()), Joiner()) == Ranged(Joiner(), [I2], 3)
  {
    hide Act, Range;
    CacheAnswers();
    assert TailItems([CachedEvent(2, C)], 3) == [I2];
  }

  lemma CacheAnswers()
    ensures Range(Cache(ALL, 4, 2, None), 1) == InWindow([CachedEvent(2, C)])
  {
    hide After;
    AfterIsSuffix(ALL, 1, 2);
    assert ALL[2..] == [CachedEvent(2, C)];
  }

  lemma BackfillIsWritten()
    ensures Act(Ranged(Joiner(), [I2], 3), WriteBackfill(true)) == Backfilled()
  {
    assert [] + [EventFrame(I2)] == [EventFrame(I2)];
  }

  lemma SecondIsServed(before: seq<State>) returns (run: seq<State>)
    requires IsRun(before) && Last(before) == Final(Fresh())
    ensures IsRun(run) && before <= run && |Last(run).conns| == 2
    ensures Last(run).conns[1] == Backfilled() && Last(run).hist == ALL
  {
    hide IsRun, TwoFrames, RangeResult, Ranged;
    CacheServesThird();
    BackfillIsWritten();
    run := Extend(before, Thread(1, AcceptHandshake(1)));
    run := Extend(run, Register(1));
    assert Last(run) == Final(Joiner()).(registry := [1]);
    SameAnswer(Final(Joiner()), [1], Joiner());
    run := Extend(run, RangeCache(1));
    RangedPc(Joiner(), [I2], 3);
    run := Extend(run, Thread(1, WriteBackfill(true)));
  }

  lemma SameAnswer(s: State, registry: seq<ConnId>, c: Conn)
    ensures RangeResult(s.(registry := registry), c) == RangeResult(s, c)
  {}

  lemma RangedPc(c: Conn, items: seq<Item>, n: nat)
    ensures Ranged(c, items, n).pc == Backfilling(0) && Ranged(c, items, n).backfill == items
  {}

  lemma OneOnWire(item: Item)
    ensures WireItems([EventFrame(item)]) == [item]
  {
    WireAppend([], EventFrame(item));
    assert [] + [EventFrame(item)] == [EventFrame(item)];
  }

  lemma FirstStream()
    ensures Received(Gone()) == [ALL[0]]
  {
    hide WireItems;
    OneOnWire(I0);
    WireAppend([EventFrame(I0)], ServerShutdownFrame(1));
    assert [EventFrame(I0)] + [ServerShutdownFrame(1)] == [EventFrame(I0), ServerShutdownFrame(1)];
  }

  lemma SecondStream()
    ensures Received(Backfilled()) == [ALL[2]]
  {
    hide WireItems;
    OneOnWire(I2);
  }

  /**
   * Resuming at a cut inside a batch loses events: the first connection, which
   * never overflowed, is told that 1 was delivered after one of the two events
   * numbered 1; the second resumes from 1 and is served the event numbered 2.
   */
  lemma MidBatchCutLosesEvent() returns (run: seq<State>, i: nat)
    ensures IsRun(run) && i < |run| && |run[i].conns| == 2 && |Last(run).conns| == 2
    ensures var c1, c2, hist := run[i].conns[0], Last(run).conns[1], Last(run).hist;
            && Admitted(c1) && Unbroken(c1) && EndedWith(c1, 1) && run[i].conns[1].pc.Handshaking?
            && Admitted(c2) && Unbroken(c2) && c2.resumeFrom == 1
            && hist == ALL && Received(c1) == [ALL[0]] && Received(c2) == [ALL[2]]
            && !CutAtBatchEnd(hist, Start(c1) + |Received(c1)|)
  {
    hide Next, TwoFrames, Received;
    var first := FirstLeaves();
    i := |first| - 1;
    run := SecondFrameIsRead(first);
    run := SecondBatchIsPublished(run);
    run := SecondIsServed(run);
    assert run[i] == Last(first);
    FirstStream();
    SecondStream();
  }
}
