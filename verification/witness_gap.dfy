/** A run in which an event is lost although no control frame says so. */
module SilentGapWitness {
  import opened Events
  import opened EventCaches
  import opened Subscription
  import opened Connections
  import opened ConnectionInvariant
  import opened Pipeline
  import opened Delivery
  import opened WitnessRuns
  import Tailing

  /** Queue of one, one tolerated overflow. */
  const CFG := Config(4, 1, 1, 0, 100, 100)
  const A: Bytes := [1]
  const B: Bytes := [2]
  const C: Bytes := [3]

  /** A live-tail connection waiting for events. */
  function Idle(): Conn {
    NewConn(1, 1).(pc := Receiving([]), ranged := Some(0))
  }

  /** The log holds one frame with an empty payload. */
  function OneFrame(): State {
    Init(CFG).(main := AcceptTop, conns := [Idle()], registry := [0], file := Tailing.EncodeFrame([]))
  }

  lemma ConnectionArrives() returns (run: seq<State>)
    ensures IsRun(run)
    ensures Last(run) == Init(CFG).(conns := [NewConn(1, 1).(pc := Ranging)], registry := [0])
  {
    hide IsRun;
    var s, c := Init(CFG), NewConn(1, 1);
    run := Begin(CFG);
    run := Extend(run, Run(ObserveStop));
    run := Extend(run, Run(AcceptConn));
    assert Last(run) == s.(conns := [c]);
    run := Extend(run, Thread(0, AcceptHandshake(0)));
    run := Extend(run, Register(0));
  }

  lemma ConnectionGoesLive() returns (run: seq<State>)
    ensures IsRun(run) && Last(run) == OneFrame()
  {
    hide IsRun, Tailing.EncodeFrame;
    var s, c := Init(CFG), NewConn(1, 1);
    run := ConnectionArrives();
    run := Extend(run, RangeCache(0));
    run := Extend(run, Thread(0, FinishBackfill));
    assert Last(run) == s.(conns := [c.(pc := StopChecking, ranged := Some(0))], registry := [0]);
    run := Extend(run, Thread(0, Local.CheckStop(false)));
    run := Extend(run, Thread(0, EnterDispatch));
    assert Last(run) == s.(conns := [c.(pc := CheckingShutdown([]), ranged := Some(0))], registry := [0]);
    run := Extend(run, Thread(0, CheckShutdown(true)));
    run := Extend(run, Thread(0, CheckDisconnected(true)));
    assert Last(run) == s.(conns := [Idle()], registry := [0]);
    run := Extend(run, Append(Tailing.EncodeFrame([])));
    assert [] + Tailing.EncodeFrame([]) == Tailing.EncodeFrame([]);
  }

  const BATCH: seq<Bytes> := [A, B, C]
  const EVENTS: seq<CachedEvent> := [CachedEvent(1, A), CachedEvent(1, B), CachedEvent(1, C)]

  function Read(): State {
    OneFrame().(tail := Tailing.Tail(20, 2), frames := [[]])
  }

  lemma FrameIsRead() returns (run: seq<State>)
    ensures IsRun(run) && Last(run) == Read().(ext := Pushing(1, BATCH, 0))
  {
    hide IsRun, Tailing.EncodeFrame, Tailing.Poll;
    run := ConnectionGoesLive();
    run := Extend(run, Ext(ExtAction.CheckStop));
    assert Tailing.EncodeFrame([])[0..20] == Tailing.EncodeFrame([]);
    Tailing.EncodingMeansFrame(Tailing.EncodeFrame([]), Tailing.START, 100, []);
    run := Extend(run, Ext(PollLog));
    assert Last(run) == Read().(ext := Extracting(1, []));
    run := Extend(run, Ext(ExtractOk(BATCH)));
    run := Extend(run, Ext(TakeLock));
  }

  /** All three events are in the cache and the only subscriber is in the snapshot. */
  function InBatch(c: Conn, event: nat, peer: nat): State {
    Read().(conns := [c], ext := Broadcasting(1, BATCH, [0], event, peer, Checking), hist := EVENTS,
            cache := Cache(EVENTS, 4, 1, None))
  }

  lemma BatchIsPushed() returns (run: seq<State>)
    ensures IsRun(run) && Last(run) == InBatch(Idle(), 0, 0)
  {
    hide IsRun, Tailing.EncodeFrame;
    var s := Read();
    run := FrameIsRead();
    run := Extend(run, Ext(PushOne));
    assert Last(run) == s.(ext := Pushing(1, BATCH, 1), hist := EVENTS[..1], cache := Cache(EVENTS[..1], 4, 1, None));
    run := Extend(run, Ext(PushOne));
    assert Last(run) == s.(ext := Pushing(1, BATCH, 2), hist := EVENTS[..2], cache := Cache(EVENTS[..2], 4, 1, None));
    run := Extend(run, Ext(PushOne));
    run := Extend(run, Ext(TakeSnapshot));
  }

  const I0 := Item(0, CachedEvent(1, A))
  const I1 := Item(1, CachedEvent(1, B))
  const I2 := Item(2, CachedEvent(1, C))

  /** The first event is queued. */
  function Queued(): Conn {
    Idle().(sub := NewSub<Item>(1, 1).(queue := [Live(I0)]), enqueued := [I0])
  }

  /** The second finds the queue full. */
  function Lagged(): Conn {
    Queued().(sub := Queued().sub.(lag := 1), missed := Some(1))
  }

  /** The thread takes and writes the first event. */
  function Relieved(): Conn {
    Lagged().(pc := CheckingShutdown([]), wire := [EventFrame(I0)], taken := 1,
              sub := NewSub<Item>(1, 1).(lag := 1, lastDelivered := 1))
  }

  /** The third event is accepted and the lag forgotten. */
  function Recovered(): Conn {
    Relieved().(sub := NewSub<Item>(1, 1).(queue := [Live(I2)], lastDelivered := 1), enqueued := [I0, I2])
  }

  /** The thread writes it and waits for more. */
  function CaughtUpAgain(): Conn {
    Recovered().(pc := Receiving([]), wire := [EventFrame(I0), EventFrame(I2)], taken := 2,
                 sub := NewSub<Item>(1, 1).(lastDelivered := 1))
  }

  lemma OffersToSlowReader()
    ensures Offered(Idle(), I0, Sending) == Queued() && OfferAccess(Idle().sub, I0, Sending).1.None?
    ensures Offered(Queued(), I1, Sending) == Lagged() && OfferAccess(Queued().sub, I1, Sending).1.None?
    ensures Offered(Relieved(), I2, Sending) == Recovered() && OfferAccess(Relieved().sub, I2, Sending).1.None?
  {
    assert [I0] + [I2] == [I0, I2];
    assert [] + [I0] == [I0];
  }

  /** One whole offer of the event at hand, with nothing in between. */
  lemma OfferWhole(run: seq<State>, c: Conn, event: nat, c': Conn) returns (longer: seq<State>)
    requires IsRun(run) && event < 3 && Last(run) == InBatch(c, event, 0) && !c.sub.disconnected
    requires var item := Item(event, EVENTS[event]);
             Offered(c, item, Sending) == c' && OfferAccess(c.sub, item, Sending).1.None?
    ensures IsRun(longer) && Last(longer) == InBatch(c', event, 1)
  {
    hide IsRun, Tailing.EncodeFrame, Offered, OfferAccess;
    OfferPasses(c, Item(event, EVENTS[event]));
    longer := Extend(run, Ext(OfferOne));
    assert Last(longer) == InBatch(c, event, 0).(ext := Broadcasting(1, BATCH, [0], event, 0, Sending));
    longer := Extend(longer, Ext(OfferOne));
  }

  lemma WriteOfFirst()
    ensures Act(Act(Lagged(), TakeNext), WriteNext(true)) == Relieved()
  {
    assert [] + [EventFrame(I0)] == [EventFrame(I0)];
    assert [Live(I0)][1..] == [];
  }

  lemma WriteOfThird()
    ensures Act(Act(Recovered().(pc := Receiving([])), TakeNext), WriteNext(true))
         == CaughtUpAgain().(pc := CheckingShutdown([]))
  {
    assert [EventFrame(I0)] + [EventFrame(I2)] == [EventFrame(I0), EventFrame(I2)];
    assert [Live(I2)][1..] == [];
  }

  lemma SecondEventIsDropped() returns (run: seq<State>)
    ensures IsRun(run) && Last(run) == InBatch(Lagged(), 2, 0)
  {
    hide IsRun, Tailing.EncodeFrame, Offered, OfferAccess;
    OffersToSlowReader();
    run := BatchIsPushed();
    run := OfferWhole(run, Idle(), 0, Queued());
    run := Extend(run, Ext(NextEvent));
    assert Last(run) == InBatch(Queued(), 1, 0);
    run := OfferWhole(run, Queued(), 1, Lagged());
    run := Extend(run, Ext(NextEvent));
  }

  lemma ThirdEventIsQueued() returns (run: seq<State>)
    ensures IsRun(run) && Last(run) == InBatch(Recovered(), 2, 1)
  {
    hide IsRun, Tailing.EncodeFrame, Offered, OfferAccess, Act;
    OffersToSlowReader();
    WriteOfFirst();
    run := SecondEventIsDropped();
    run := Extend(run, Thread(0, TakeNext));
    TookOne(Lagged());
    run := Extend(run, Thread(0, WriteNext(true)));
    run := OfferWhole(run, Relieved(), 2, Recovered());
  }

  /** With no flag set, the loop's two checks lead to waiting. */
  lemma ChecksPass(run: seq<State>, c: Conn) returns (longer: seq<State>)
    requires IsRun(run) && Last(run) == InBatch(c.(pc := CheckingShutdown([])), 2, 1)
    requires !c.sub.shutdownRequested && !c.sub.disconnected
    ensures IsRun(longer) && Last(longer) == InBatch(c.(pc := Receiving([])), 2, 1)
  {
    hide IsRun, Tailing.EncodeFrame;
    longer := Extend(run, Thread(0, CheckShutdown(true)));
    assert Last(longer) == InBatch(c.(pc := CheckingDisconnected([])), 2, 1);
    longer := Extend(longer, Thread(0, CheckDisconnected(true)));
  }

  lemma ThirdEventIsWritten() returns (run: seq<State>)
    ensures IsRun(run) && Last(run) == InBatch(CaughtUpAgain(), 2, 1)
  {
    hide IsRun, Tailing.EncodeFrame, Act;
    run := ThirdEventIsQueued();
    run := ChecksPass(run, Recovered());
    WriteOfThird();
    run := Extend(run, Thread(0, TakeNext));
    TookOne(Recovered().(pc := Receiving([])));
    run := Extend(run, Thread(0, WriteNext(true)));
    assert Last(run) == InBatch(CaughtUpAgain().(pc := CheckingShutdown([])), 2, 1);
    run := ChecksPass(run, CaughtUpAgain());
  }

  lemma GapIsVisible()
    ensures var c := CaughtUpAgain();
            AllEvents(c.wire) && Received(c) == [EVENTS[0], EVENTS[2]]
  {
    var f0, f2 := EventFrame(I0), EventFrame(I2);
    WireAppend([f0], f2);
    WireAppend([], f0);
    assert [f0] + [f2] == [f0, f2] && [] + [f0] == [f0];
    assert WireItems([f0, f2]) == [I0, I2];
  }

  /**
   * "No silent data loss" (lib.rs:112) fails: a connected, caught-up live-tail
   * subscriber has received the first and third event of a batch, not the
   * second, its lag is back to zero and it has been sent no control frame.
   */
  lemma SilentGap() returns (run: seq<State>)
    ensures IsRun(run) && |Last(run).conns| == 1
    ensures var s := Last(run);
            var c := s.conns[0];
            && Quiescent(s, 0) && c.resumeFrom == 0 && AllEvents(c.wire) && c.sub.lag == 0
            && s.hist == EVENTS && Received(c) == [EVENTS[0], EVENTS[2]]
  {
    hide IsRun, Tailing.EncodeFrame, Received, AllEvents;
    run := ThirdEventIsWritten();
    run := Extend(run, Ext(NextEvent));
    run := Extend(run, Ext(ReleaseLock));
    GapIsVisible();
  }
}
