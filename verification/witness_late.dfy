/** A run in which an event enters the queue of a subscriber that is already disconnected. */
module LateOfferWitness {
  import opened Subscription
  import opened Connections
  import opened Pipeline
  import opened PipelineRuns
  import opened WitnessRuns
  import opened SilentGapWitness
  import Tailing

  /** The thread has taken the first event and is writing it. */
  function WritingFirst(): Conn {
    Queued().(pc := Writing(Live(I0), []), taken := 1, sub := NewSub<Item>(1, 1))
  }

  /** The write has failed. */
  function Gone(): Conn {
    WritingFirst().(pc := Unregistering, sub := NewSub<Item>(1, 1).(disconnected := true), parted := true)
  }

  /** The second event came after that. */
  function Late(): Conn {
    Gone().(sub := Gone().sub.(queue := [Live(I1)]), enqueued := [I0, I1])
  }

  lemma Moves()
    ensures Act(Queued(), TakeNext) == WritingFirst() && Act(WritingFirst(), WriteNext(false)) == Gone()
    ensures Offered(Gone(), I1, Sending) == Late() && OfferAccess(Gone().sub, I1, Sending).1.None?
    ensures Offered(Idle(), I0, Sending) == Queued() && OfferAccess(Idle().sub, I0, Sending).1.None?
  {
    assert [Live(I0)][1..] == [];
    assert [I0] + [I1] == [I0, I1] && [] + [Live(I1)] == [Live(I1)];
    assert [] + [I0] == [I0];
  }

  lemma OfferPassesCheck() returns (run: seq<State>)
    ensures IsRun(run) && Last(run) == InBatch(WritingFirst(), 1, 0).(ext := Broadcasting(1, BATCH, [0], 1, 0, Sending))
  {
    hide IsRun, Tailing.EncodeFrame, Offered, OfferAccess, Act;
    Moves();
    run := BatchIsPushed();
    run := OfferWhole(run, Idle(), 0, Queued());
    run := Extend(run, Ext(NextEvent));
    assert Last(run) == InBatch(Queued(), 1, 0);
    run := Extend(run, Thread(0, TakeNext));
    assert Last(run) == InBatch(WritingFirst(), 1, 0);
    OfferPasses(WritingFirst(), I1);
    run := Extend(run, Ext(OfferOne));
  }

  /** The offer loads the flag, the thread sets it, and the send still goes through: one event enters late. */
  lemma EventEntersAfterDisconnect() returns (run: seq<State>, i: nat)
    ensures IsRun(run) && i < |run| && |run[i].conns| == 1 && |Last(run).conns| == 1
    ensures run[i].conns[0].sub.disconnected && OfferInFlight(run[i], 0)
    ensures Last(run).conns[0].enqueued == run[i].conns[0].enqueued + [AtHand(run[i])]
  {
    hide Next, Tailing.EncodeFrame, Offered, OfferAccess, Act;
    Moves();
    run := OfferPassesCheck();
    run := Extend(run, Thread(0, WriteNext(false)));
    assert Last(run) == InBatch(Gone(), 1, 0).(ext := Broadcasting(1, BATCH, [0], 1, 0, Sending));
    i := |run| - 1;
    var before := run;
    run := Extend(run, Ext(OfferOne));
    assert run[i] == Last(before);
    assert [I0] + [I1] == [I0, I1];
  }
}
