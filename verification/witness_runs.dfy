/** Building concrete runs one step at a time. */
module WitnessRuns {
  import opened Events
  import opened Subscription
  import opened Connections
  import opened Pipeline
  import Tailing

  function Last(run: seq<State>): State
    requires run != []
  {
    run[|run| - 1]
  }

  lemma Begin(cfg: Config) returns (run: seq<State>)
    requires cfg.capacity >= 1
    ensures IsRun(run) && Last(run) == Init(cfg)
  {
    run := [Init(cfg)];
  }

  /** One more step makes a longer run. */
  lemma Extend(run: seq<State>, step: Step) returns (longer: seq<State>)
    requires IsRun(run) && StepEnabled(Last(run), step)
    ensures IsRun(longer) && longer == run + [Apply(Last(run), step)]
    ensures Last(longer) == Apply(Last(run), step)
  {
    hide StepEnabled, Apply, Init;
    longer := run + [Apply(Last(run), step)];
    forall i | 0 <= i < |longer| - 1 ensures Next(longer[i], longer[i + 1]) {
      if i < |run| - 1 {
        assert Next(run[i], run[i + 1]);
      } else {
        assert longer[i] == Last(run);
      }
    }
  }

  /** An offer to a connected subscriber is one that passes its check and is then sent. */
  lemma OfferPasses(c: Conn, item: Item)
    requires !c.sub.disconnected
    ensures Offered(c, item, Checking) == c && OfferAccess(c.sub, item, Checking).1 == Some(Sending)
  {}

  /** What a thread took from its queue it can write next. */
  lemma TookOne(c: Conn)
    requires c.pc == Receiving([]) && c.sub.queue != []
    ensures Enabled(c, TakeNext) && Enabled(Act(c, TakeNext), WriteNext(true))
    ensures Act(c, TakeNext).pc == Writing(c.sub.queue[0], [])
  {}

  /** A log of two frames with empty payloads. */
  function TwoFrames(): Bytes {
    Tailing.EncodeFrame([]) + Tailing.EncodeFrame([])
  }

  lemma PollsOfTwoFrames()
    ensures Tailing.Poll(TwoFrames(), Tailing.START, 100) == (Tailing.Frame(1, []), Tailing.Tail(20, 2))
    ensures Tailing.Poll(TwoFrames(), Tailing.Tail(20, 2), 100) == (Tailing.Frame(2, []), Tailing.Tail(40, 3))
  {
    hide Tailing.EncodeFrame, Tailing.Poll;
    assert TwoFrames()[0..20] == Tailing.EncodeFrame([]);
    Tailing.EncodingMeansFrame(TwoFrames(), Tailing.START, 100, []);
    assert TwoFrames()[20..40] == Tailing.EncodeFrame([]);
    Tailing.EncodingMeansFrame(TwoFrames(), Tailing.Tail(20, 2), 100, []);
  }
}
