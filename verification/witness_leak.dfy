/** A run in which a registration that outlived its thread keeps everybody else out. */
module LeakWitness {
  import opened Events
  import opened EventCaches
  import opened Subscription
  import opened Connections
  import opened Pipeline
  import opened PipelineInvariant
  import opened WitnessRuns
  import Tailing

  /** A cache of one event, and room for one subscriber. */
  const CFG := Config(1, 4, 0, 1, 100, 100)
  const B: Bytes := [2]
  const C: Bytes := [3]
  const ALL: seq<CachedEvent> := [CachedEvent(2, B), CachedEvent(2, C)]

  function Fresh(): Conn {
    NewConn(4, 0)
  }

  // ----- Two frames: one without events, one with more than the cache holds -----

  function Read1(): State {
    Init(CFG).(file := TwoFrames(), tail := Tailing.Tail(20, 2), frames := [[]])
  }

  lemma FirstFrame() returns (run: seq<State>)
    ensures IsRun(run) && Last(run) == Read1().(batches := [[]])
  {
    hide IsRun, TwoFrames, Tailing.Poll;
    PollsOfTwoFrames();
    run := Begin(CFG);
    run := Extend(run, Append(TwoFrames()));
    assert [] + TwoFrames() == TwoFrames();
    run := Extend(run, Ext(ExtAction.CheckStop));
    run := Extend(run, Ext(PollLog));
    assert Last(run) == Read1().(ext := Extracting(1, []));
    run := Extend(run, Ext(ExtractOk([])));
    run := Extend(run, Ext(TakeLock));
    assert Last(run) == Read1().(ext := Pushing(1, [], 0));
    run := Extend(run, Ext(TakeSnapshot));
    run := Extend(run, Ext(ReleaseLock));
  }

  function Read2(): State {
    Read1().(batches := [[]], tail := Tailing.Tail(40, 3), frames := [[], []])
  }

  lemma SecondFrame() returns (run: seq<State>)
    ensures IsRun(run) && Last(run) == Read2().(ext := Pushing(2, [B, C], 0))
  {
    hide IsRun, TwoFrames, Tailing.Poll;
    PollsOfTwoFrames();
    run := FirstFrame();
    run := Extend(run, Ext(ExtAction.CheckStop));
    run := Extend(run, Ext(PollLog));
    assert Last(run) == Read2().(ext := Extracting(2, []));
    run := Extend(run, Ext(ExtractOk([B, C])));
    run := Extend(run, Ext(TakeLock));
  }

  function Full(): State {
    Read2().(hist := ALL, cache := Cache(ALL[1..], 1, 2, Some(2)))
  }

  lemma Pushes()
    ensures Push(Empty(1), ALL[0]) == (Cache([ALL[0]], 1, 2, None), Pushed)
    ensures Push(Cache([ALL[0]], 1, 2, None), ALL[1]) == (Cache(ALL[1..], 1, 2, Some(2)), Pushed)
  {
    assert [] + [ALL[0]] == [ALL[0]] && [ALL[0]][1..] + [ALL[1]] == ALL[1..];
  }

  lemma BatchIsPushed() returns (run: seq<State>)
    ensures IsRun(run) && Last(run) == Full().(ext := Broadcasting(2, [B, C], [], 0, 0, Checking))
  {
    hide IsRun, TwoFrames, Push;
    Pushes();
    run := SecondFrame();
    run := Extend(run, Ext(PushOne));
    assert Last(run) ==
           Read2().(ext := Pushing(2, [B, C], 1), hist := [ALL[0]], cache := Cache([ALL[0]], 1, 2, None));
    run := Extend(run, Ext(PushOne));
    assert [ALL[0]] + [ALL[1]] == ALL;
    run := Extend(run, Ext(TakeSnapshot));
  }

  function Ready(conns: seq<Conn>): State {
    Full().(batches := [[], [B, C]], published := 2, conns := conns)
  }

  lemma BatchIsPublished() returns (run: seq<State>)
    ensures IsRun(run) && Last(run) == Ready([])
  {
    hide IsRun, TwoFrames;
    run := BatchIsPushed();
    run := Extend(run, Ext(NextEvent));
    run := Extend(run, Ext(NextEvent));
    run := Extend(run, Ext(ReleaseLock));
    assert [[]] + [[B, C]] == [[], [B, C]];
  }

  // ----- Two clients -----

  lemma TwoClients() returns (run: seq<State>)
    ensures IsRun(run) && Last(run) == Ready([Fresh(), Fresh()])
  {
    hide IsRun, TwoFrames;
    run := BatchIsPublished();
    run := Extend(run, Run(ObserveStop));
    run := Extend(run, Run(AcceptConn));
    assert Last(run) == Ready([Fresh()]);
    run := Extend(run, Run(ObserveStop));
    run := Extend(run, Run(AcceptConn));
  }

  function Asking(): Conn {
    Fresh().(pc := Ranging, resumeFrom := 1, joinPos := 2, joinSeq := 2)
  }

  /** The resume point lies in a batch the cache has lost the beginning of. */
  lemma CacheRefuses()
    ensures RangeResult(Ready([Asking(), Fresh()]).(registry := [0]), Asking()) == Asking().(pc := Refusing(3))
  {}

  function Dead(): Conn {
    Asking().(pc := Finished, sub := Fresh().sub.(receiverOpen := false), parted := true)
  }

  lemma FirstClientFails() returns (run: seq<State>)
    ensures IsRun(run) && Last(run) == Ready([Dead(), Fresh()]).(registry := [0])
  {
    hide IsRun, TwoFrames, RangeResult;
    CacheRefuses();
    run := TwoClients();
    run := Extend(run, Thread(0, AcceptHandshake(1)));
    run := Extend(run, Register(0));
    assert Last(run) == Ready([Asking(), Fresh()]).(registry := [0]);
    run := Extend(run, RangeCache(0));
    run := Extend(run, Thread(0, WriteTruncated(false)));
  }

  /**
   * The only thread that ever registered is finished, nobody takes part in
   * broadcasts, and yet the registry is at its cap: the second client is refused.
   */
  lemma DeadRegistrationFillsCap() returns (run: seq<State>)
    ensures IsRun(run) && CapReached(Last(run)) && Last(run).registry == [0] && |Last(run).conns| == 2
    ensures Last(run).conns[0].pc.Finished? && forall id :: 0 <= id < 2 ==> !Participating(Last(run).conns[id])
    ensures Last(run).conns[1].wire == [LagExceededFrame(0)]
  {
    hide IsRun, TwoFrames;
    run := FirstClientFails();
    run := Extend(run, Thread(1, AcceptHandshake(0)));
    assert Last(run) == Ready([Dead(), Fresh().(pc := Registering)]).(registry := [0]);
    run := Extend(run, Thread(1, RefuseAtCapacity(true)));
    assert [] + [LagExceededFrame(0)] == [LagExceededFrame(0)];
  }
}
