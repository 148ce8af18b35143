/** A run in which a bad trailer halts the extractor for good. */
module CorruptLogWitness {
  import opened Events
  import opened ByteOrder
  import opened Pipeline
  import opened LogRefinement
  import opened WitnessRuns
  import Tailing

  const CFG := Config(4, 4, 0, 0, 100, 100)
  const ZEROS: Bytes := [0, 0, 0, 0, 0, 0, 0, 0]

  /** A complete frame with an empty payload whose trailer is zero. */
  function Corrupt(): Bytes {
    Tailing.MAGIC + LE(0, 8) + [] + ZEROS
  }

  lemma ZeroIsNotTheHash()
    ensures FromLE(ZEROS) != Tailing.Fnv([])
  {
    hide Tailing.Fnv;
    assert FromLE([0]) == 0 && ZEROS[7..] == [0];
    assert FromLE(ZEROS[6..]) == 0 && ZEROS[6..][1..] == ZEROS[7..];
    assert FromLE(ZEROS[5..]) == 0 && ZEROS[5..][1..] == ZEROS[6..];
    assert FromLE(ZEROS[4..]) == 0 && ZEROS[4..][1..] == ZEROS[5..];
    assert FromLE(ZEROS[3..]) == 0 && ZEROS[3..][1..] == ZEROS[4..];
    assert FromLE(ZEROS[2..]) == 0 && ZEROS[2..][1..] == ZEROS[3..];
    assert FromLE(ZEROS[1..]) == 0 && ZEROS[1..][1..] == ZEROS[2..];
    assert FromLE(ZEROS) == 0;
    HashOfNothing();
  }

  lemma HashOfNothing()
    ensures Tailing.Fnv([]) == Tailing.FNV1A_64_OFFSET_BASIS
  {}

  /**
   * The frame is completely on disk and its trailer does not match. The poll
   * that meets it halts the extractor, which stops the server; nothing is read
   * or published after that, so the frame is never retried.
   */
  lemma BadTrailerStopsServer() returns (run: seq<State>)
    ensures IsRun(run) && Last(run).file == Corrupt() && |Corrupt()| == Tailing.FrameLen([])
    ensures Last(run).ext.Stopped? && Last(run).stop && Last(run).frames == [] && Last(run).tail == Tailing.START
    ensures exists i :: 0 <= i < |run| - 1 && run[i].ext.Polling? && run[i].file == Corrupt() && run[i + 1].ext.Halting?
  {
    hide IsRun, Tailing.Poll, Tailing.Fnv, FromLE, LE;
    run := Begin(CFG);
    run := Extend(run, Append(Corrupt()));
    assert [] + Corrupt() == Corrupt();
    run := Extend(run, Ext(ExtAction.CheckStop));
    var polling := run;
    assert Last(run) == Init(CFG).(file := Corrupt(), ext := Polling);
    ZeroIsNotTheHash();
    assert Corrupt()[0..20] == Corrupt();
    CorruptFrameHalts(Last(run), [], ZEROS);
    run := Extend(run, Ext(PollLog));
    assert Last(run) == Init(CFG).(file := Corrupt(), ext := Halting);
    var i := |polling| - 1;
    assert run[i] == Last(polling) && run[i + 1].ext.Halting?;
    var halting := run;
    run := Extend(run, Ext(HaltSnapshot));
    run := Extend(run, Ext(HaltStop));
    assert run[i] == halting[i] && run[i + 1] == halting[i + 1];
  }
}
