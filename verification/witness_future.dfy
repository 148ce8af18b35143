/** A run in which a client that resumes from beyond what the server has read is sent older events. */
module FutureResumeWitness {
  import opened Events
  import opened EventCaches
  import opened Subscription
  import opened Connections
  import opened ConnectionInvariant
  import opened Pipeline
  import opened Delivery
  import opened WitnessRuns
  import Tailing

  const CFG := Config(4, 4, 0, 0, 100, 100)
  const A: Bytes := [1]
  const I0 := Item(0, CachedEvent(1, A))
  const ALL: seq<CachedEvent> := [CachedEvent(1, A)]

  /** A client that has seen everything up to 5, served by a server that has read nothing yet. */
  function Waiting(): Conn {
    NewConn(4, 0).(pc := CheckingShutdown([]), resumeFrom := 5, ranged := Some(0))
  }

  function Queued(): Conn {
    Waiting().(sub := NewSub<Item>(4, 0).(queue := [Live(I0)]), enqueued := [I0])
  }

  function Written(): Conn {
    Queued().(sub := NewSub<Item>(4, 0).(lastDelivered := 1), taken := 1, wire := [EventFrame(I0)])
  }

  lemma ConnectionRegisters() returns (run: seq<State>)
    ensures IsRun(run)
    ensures Last(run) == Init(CFG).(conns := [NewConn(4, 0).(pc := Ranging, resumeFrom := 5)], registry := [0])
  {
    hide IsRun;
    run := Begin(CFG);
    run := Extend(run, Run(ObserveStop));
    run := Extend(run, Run(AcceptConn));
    assert Last(run) == Init(CFG).(conns := [NewConn(4, 0)]);
    run := Extend(run, Thread(0, AcceptHandshake(5)));
    run := Extend(run, Register(0));
  }

  function Base(c: Conn): State {
    Init(CFG).(conns := [c], registry := [0], file := Tailing.EncodeFrame([]))
  }

  lemma ConnectionGoesLive() returns (run: seq<State>)
    ensures IsRun(run) && Last(run) == Base(Waiting())
  {
    hide IsRun, Tailing.EncodeFrame;
    var c := NewConn(4, 0).(resumeFrom := 5);
    run := ConnectionRegisters();
    run := Extend(run, RangeCache(0));
    run := Extend(run, Thread(0, FinishBackfill));
    assert Last(run) == Init(CFG).(conns := [c.(pc := StopChecking, ranged := Some(0))], registry := [0]);
    run := Extend(run, Thread(0, Local.CheckStop(false)));
    run := Extend(run, Thread(0, EnterDispatch));
    run := Extend(run, Append(Tailing.EncodeFrame([])));
    assert [] + Tailing.EncodeFrame([]) == Tailing.EncodeFrame([]);
  }

  function Reading(c: Conn): State {
    Base(c).(tail := Tailing.Tail(20, 2), frames := [[]])
  }

  lemma FrameIsRead() returns (run: seq<State>)
    ensures IsRun(run) && Last(run) == Reading(Waiting()).(ext := Pushing(1, [A], 0))
  {
    hide IsRun, Tailing.EncodeFrame, Tailing.Poll;
    run := ConnectionGoesLive();
    run := Extend(run, Ext(ExtAction.CheckStop));
    assert Tailing.EncodeFrame([])[0..20] == Tailing.EncodeFrame([]);
    Tailing.EncodingMeansFrame(Tailing.EncodeFrame([]), Tailing.START, 100, []);
    run := Extend(run, Ext(PollLog));
    assert Last(run) == Reading(Waiting()).(ext := Extracting(1, []));
    run := Extend(run, Ext(ExtractOk([A])));
    run := Extend(run, Ext(TakeLock));
  }

  function Pushed(c: Conn): State {
    Reading(c).(hist := ALL, cache := Cache(ALL, 4, 1, None))
  }

  lemma Steps()
    ensures Offered(Waiting(), I0, Sending) == Queued() && OfferAccess(Waiting().sub, I0, Sending).1.None?
    ensures Act(Act(Queued().(pc := Receiving([])), TakeNext), WriteNext(true)) == Written()
  {
    assert [] + [I0] == [I0] && [Live(I0)][1..] == [];
    assert [] + [EventFrame(I0)] == [EventFrame(I0)];
  }

  lemma EventIsQueued() returns (run: seq<State>)
    ensures IsRun(run) && Last(run) == Pushed(Queued()).(ext := Broadcasting(1, [A], [0], 0, 1, Checking))
  {
    hide IsRun, Tailing.EncodeFrame, Offered, OfferAccess, Act;
    Steps();
    OfferPasses(Waiting(), I0);
    run := FrameIsRead();
    run := Extend(run, Ext(PushOne));
    assert Last(run) == Pushed(Waiting()).(ext := Pushing(1, [A], 1));
    run := Extend(run, Ext(TakeSnapshot));
    run := Extend(run, Ext(OfferOne));
    assert Last(run) == Pushed(Waiting()).(ext := Broadcasting(1, [A], [0], 0, 0, Sending));
    run := Extend(run, Ext(OfferOne));
  }

  lemma ThreadReceives() returns (run: seq<State>)
    ensures IsRun(run)
    ensures Last(run) == Pushed(Queued().(pc := Receiving([]))).(ext := Broadcasting(1, [A], [0], 0, 1, Checking))
  {
    hide IsRun, Tailing.EncodeFrame;
    run := EventIsQueued();
    run := Extend(run, Thread(0, CheckShutdown(true)));
    run := Extend(run, Thread(0, CheckDisconnected(true)));
  }

  lemma OldEventIsWritten() returns (run: seq<State>)
    ensures IsRun(run) && Last(run) == Pushed(Written()).(ext := Broadcasting(1, [A], [0], 0, 1, Checking))
  {
    hide IsRun, Tailing.EncodeFrame, Act, Enabled;
    var c := Queued().(pc := Receiving([]));
    run := ThreadReceives();
    TookOne(c);
    run := Extend(run, Thread(0, TakeNext));
    assert Last(run).conns == [Act(c, TakeNext)];
    Steps();
    run := Extend(run, Thread(0, WriteNext(true)));
  }

  lemma OldEventSeen()
    ensures Received(Written()) == ALL
  {
    WireAppend([], EventFrame(I0));
    assert [] + [EventFrame(I0)] == [EventFrame(I0)];
    assert WireItems([EventFrame(I0)]) == [I0];
  }

  /**
   * A resume point means "send only later events" (frame.rs:136-139), yet a
   * connection resuming from 5 before the server has read that far is sent the
   * event numbered 1.
   */
  lemma FutureResumeGetsOldEvent() returns (run: seq<State>)
    ensures IsRun(run) && |Last(run).conns| == 1
    ensures var c := Last(run).conns[0];
            && Admitted(c) && Unbroken(c) && !ResumesFromPast(c, Last(run).hist) && c.resumeFrom == 5
            && Last(run).hist == ALL && Received(c) == ALL && ALL[0].seqNo <= c.resumeFrom
  {
    hide IsRun, Tailing.EncodeFrame, Received;
    OldEventSeen();
    run := OldEventIsWritten();
  }
}
