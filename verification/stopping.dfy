/** How the extractor and the accepting thread stop (canon-event-subscribe, server.rs). */
module Stopping {
  import opened Events
  import opened EventCaches
  import opened Subscription
  import opened Connections
  import opened ConnectionInvariant
  import opened Pipeline
  import opened PipelineInvariant
  import opened PipelineSteps
  import opened PipelineRuns
  import opened ShutdownSafety
  import Tailing

  // ----- The stop flag is heeded -----

  /** Log frames the extractor may still read before it looks at the stop flag. */
  function FramesLeft(ext: Extractor): nat {
    if ext.Polling? then 1 else 0
  }

  /** Connections the accepting thread may still take before it does. */
  function ConnsLeft(main: Main): nat {
    if main.Accepting? then 1 else 0
  }

  predicate SpendsLittle(s: State, s': State) {
    && s'.stop
    && |s'.frames| + FramesLeft(s'.ext) <= |s.frames| + FramesLeft(s.ext)
    && |s'.conns| + ConnsLeft(s'.main) <= |s.conns| + ConnsLeft(s.main)
  }

  lemma ExtSpends(s: State, e: ExtAction)
    requires s.stop && ExtEnabled(s, e)
    ensures SpendsLittle(s, ExtApply(s, e))
  {
    hide Tailing.Poll, Offered, OfferAccess, Signalled, Waiting, Push;
  }

  lemma MainSpends(s: State, m: MainAction)
    requires s.stop && MainEnabled(s, m)
    ensures SpendsLittle(s, MainApply(s, m))
  {
    hide Signalled, Waiting;
  }

  lemma StepSpends(s: State, step: Step)
    requires s.stop && StepEnabled(s, step)
    ensures SpendsLittle(s, Apply(s, step))
  {
    hide ExtApply, ExtEnabled, MainApply, MainEnabled, Act, Enabled, WriteFits, RangeResult, Joined, Left, Remove;
    match step
    case Ext(e) => ExtSpends(s, e);
    case Run(m) => MainSpends(s, m);
    case _ =>
  }

  /** After the stop flag is set at most one more log frame is read and at most one more connection is accepted. */
  lemma {:induction false} StopIsPrompt(run: seq<State>, i: nat, j: nat)
    requires IsRun(run) && i <= j < |run| && run[i].stop
    ensures SpendsLittle(run[i], run[j])
    ensures |run[j].frames| <= |run[i].frames| + 1 && |run[j].conns| <= |run[i].conns| + 1
  {
    hide StepEnabled, Apply, Init;
    if i < j {
      StopIsPrompt(run, i, j - 1);
      assert Next(run[j - 1], run[j - 1 + 1]);
      var step :| StepEnabled(run[j - 1], step) && run[j] == Apply(run[j - 1], step);
      StepSpends(run[j - 1], step);
    }
  }

  // ----- A halt is announced -----

  /** Somebody registered when the halt began is still on the extractor's list, or flagged. */
  ghost predicate Announced(s: State, id: ConnId) {
    && id < |s.conns|
    && (|| (s.ext.HaltSignalling? && (id in s.ext.remaining || Flagged(s.conns[id])))
        || (s.ext.Stopped? && Flagged(s.conns[id])))
  }

  lemma SignalAnnounces(s: State, id: ConnId)
    requires RegistryInv(s) && Announced(s, id) && ExtEnabled(s, HaltSignal)
    ensures Announced(ExtApply(s, HaltSignal), id)
  {
    hide Joiners, Distinct, RequestFits, Signalled, Flagged, SignalAccess;
    var remaining, stage := s.ext.remaining, s.ext.stage;
    SignalFlags(s.conns[remaining[0]], stage);
    assert remaining == [remaining[0]] + remaining[1..];
  }

  /** Nothing but the extractor itself takes it out of a halt. */
  lemma OthersLeaveExt(s: State, step: Step)
    requires StepEnabled(s, step) && (s.ext.HaltSignalling? || s.ext.Stopped?)
    ensures step == Ext(HaltSignal) || step == Ext(HaltStop) || Apply(s, step).ext == s.ext
  {
    hide MainApply, Act, Enabled, WriteFits, RangeResult, Joined, Left, Remove, Offered, Push, Tailing.Poll, Waiting;
    if step.Run? {
      MainLeavesExt(s, step.m);
    }
  }

  lemma MainLeavesExt(s: State, m: MainAction)
    requires MainEnabled(s, m)
    ensures MainApply(s, m).ext == s.ext
  {
    hide Signalled, Waiting;
  }

  lemma StepAnnounces(s: State, step: Step, id: ConnId)
    requires Inv(s) && StepEnabled(s, step) && Announced(s, id)
    ensures Announced(Apply(s, step), id)
  {
    if step == Ext(HaltSignal) {
      SignalAnnounces(s, id);
    } else {
      OthersLeaveExt(s, step);
      StopKeepsConns(s);
      hide StepEnabled, Apply, ConnNext, FreshInv, LocalInv, CoreInv, RegistryInv, Flagged;
      assert ConnOk(s, id);
      StepConn(s, step, id);
      ConnNextFlags(s, s.conns[id], Apply(s, step).conns[id]);
    }
  }

  lemma StopKeepsConns(s: State)
    ensures ExtEnabled(s, HaltStop) ==>
              && Apply(s, Ext(HaltStop)) == s.(ext := Stopped, stop := true)
              && s.ext.HaltSignalling? && s.ext.remaining == []
  {}

  lemma HaltBegins(s: State, step: Step, id: ConnId)
    requires RegistryInv(s) && StepEnabled(s, step) && s.ext.Halting? && Apply(s, step).ext.HaltSignalling?
    requires id in s.registry
    ensures Announced(Apply(s, step), id)
  {
    hide MainApply, Act, Enabled, WriteFits, RangeResult, Left, Remove, Offered, Push, Tailing.Poll, Waiting, Distinct;
    if step.Run? {
      MainLeavesExt(s, step.m);
    }
  }

  /**
   * When the extractor halts, everybody registered at its snapshot has been
   * asked to shut down, or was disconnected, by the time it stops the server.
   */
  lemma {:induction false} HaltTellsEverybody(run: seq<State>, i: nat, j: nat, id: ConnId)
    requires IsRun(run) && i < j < |run| && run[i].ext.Halting? && run[i + 1].ext.HaltSignalling?
    requires id in run[i].registry
    ensures Announced(run[j], id)
    ensures run[j].ext.Stopped? ==> Flagged(run[j].conns[id])
  {
    hide StepEnabled, Apply, Init, Inv, Announced, Flagged;
    assert Next(run[j - 1], run[j - 1 + 1]);
    var step :| StepEnabled(run[j - 1], step) && run[j] == Apply(run[j - 1], step);
    RunInv(run, j - 1);
    if j == i + 1 {
      RegistryOf(run[i]);
      HaltBegins(run[i], step, id);
    } else {
      HaltTellsEverybody(run, i, j - 1, id);
      StepAnnounces(run[j - 1], step, id);
    }
    AnnouncedWhenStopped(run[j], id);
  }

  lemma RegistryOf(s: State)
    requires Inv(s)
    ensures RegistryInv(s)
  {}

  lemma AnnouncedWhenStopped(s: State, id: ConnId)
    requires Announced(s, id)
    ensures id < |s.conns| && (s.ext.Stopped? ==> Flagged(s.conns[id]))
  {}

  // ----- Why the extractor stops -----

  /** How the extractor can come to announce a halt or to stop. */
  predicate StopsFor(s: State, s': State) {
    && (s'.ext.HaltSignalling? ==> s.ext.HaltSignalling? || s.ext.Halting?)
    && (s'.ext.Stopped? ==> s'.stop && (s.ext.Stopped? || s.ext.HaltSignalling? || (s.ext.LoopTop? && s.stop)))
  }

  lemma ExtStopsFor(s: State, e: ExtAction)
    requires ExtEnabled(s, e) && (s.ext.Stopped? ==> s.stop)
    ensures StopsFor(s, ExtApply(s, e))
  {
    hide Tailing.Poll, Offered, OfferAccess, Signalled, Waiting, Push;
  }

  lemma StepStopsFor(s: State, step: Step)
    requires StepEnabled(s, step) && (s.ext.Stopped? ==> s.stop)
    ensures StopsFor(s, Apply(s, step))
  {
    hide ExtApply, ExtEnabled, MainApply, MainEnabled, Act, Enabled, WriteFits, RangeResult, Joined, Left, Remove;
    match step
    case Ext(e) => ExtStopsFor(s, e);
    case Run(m) => MainLeavesStop(s, m);
    case _ =>
  }

  lemma MainLeavesStop(s: State, m: MainAction)
    requires MainEnabled(s, m)
    ensures MainApply(s, m).ext == s.ext && MainApply(s, m).stop == s.stop
  {
    hide Signalled, Waiting;
  }

  lemma {:induction false} StoppedMeansStop(run: seq<State>, i: nat)
    requires IsRun(run) && i < |run|
    ensures run[i].ext.Stopped? ==> run[i].stop
  {
    if i > 0 {
      hide StepEnabled, Apply, Init;
      StoppedMeansStop(run, i - 1);
      assert Next(run[i - 1], run[i - 1 + 1]);
      var step :| StepEnabled(run[i - 1], step) && run[i] == Apply(run[i - 1], step);
      StepStopsFor(run[i - 1], step);
    }
  }

  /** A moment at which the extractor, about to poll again, saw the stop flag, or one at which it began a halt. */
  predicate StopsAt(run: seq<State>, i: nat) {
    && i + 1 < |run|
    && (|| (run[i].ext.LoopTop? && run[i].stop)
        || (run[i].ext.Halting? && run[i + 1].ext.HaltSignalling?))
  }

  /**
   * The extractor stops only with the stop flag set, and only because it saw the
   * flag between two polls or because it halted; a halt has been announced to
   * everybody who was registered when it began.
   */
  lemma {:induction false} ExtractorStops(run: seq<State>, j: nat) returns (i: nat)
    requires IsRun(run) && j < |run| && (run[j].ext.Stopped? || run[j].ext.HaltSignalling?)
    ensures i < j && StopsAt(run, i) && (run[j].ext.HaltSignalling? ==> run[i].ext.Halting?)
    ensures run[j].ext.Stopped? ==> run[j].stop
    ensures run[j].ext.Stopped? && run[i].ext.Halting? ==>
              forall id :: id in run[i].registry ==> id < |run[j].conns| && Flagged(run[j].conns[id])
  {
    hide StepEnabled, Apply, Flagged;
    assert j > 0;
    assert Next(run[j - 1], run[j - 1 + 1]);
    var step :| StepEnabled(run[j - 1], step) && run[j] == Apply(run[j - 1], step);
    StoppedMeansStop(run, j - 1);
    StepStopsFor(run[j - 1], step);
    if run[j - 1].ext.Stopped? || run[j - 1].ext.HaltSignalling? {
      i := ExtractorStops(run, j - 1);
    } else {
      i := j - 1;
    }
    if run[j].ext.Stopped? && run[i].ext.Halting? {
      forall id | id in run[i].registry ensures id < |run[j].conns| && Flagged(run[j].conns[id]) {
        HaltTellsEverybody(run, i, j, id);
        AnnouncedWhenStopped(run[j], id);
      }
    }
  }

  // ----- Why the extractor halts -----

  lemma ExtHalts(s: State, e: ExtAction)
    requires ExtEnabled(s, e) && ExtApply(s, e).ext.Halting?
    ensures || (s.ext.Polling? && Tailing.Failed(Tailing.Poll(s.file, s.tail, s.cfg.payloadMax).0))
            || s.ext.Extracting?
            || (e.PushOne? && Push(s.cache, CachedEvent(s.ext.seqNo, s.ext.batch[s.ext.pushed])).1.OutOfOrder?)
  {
    hide Tailing.Poll, Offered, OfferAccess, Signalled, Waiting, Push;
  }

  /**
   * The extractor halts only for cause: it was polling a file whose next bytes
   * are corrupt, or it was extracting. A passing I/O error never halts it.
   */
  lemma HaltsForCause(run: seq<State>, j: nat)
    requires IsRun(run) && 0 < j < |run| && run[j].ext.Halting? && !run[j - 1].ext.Halting?
    ensures var s := run[j - 1];
            || (s.ext.Polling? && Tailing.Failed(Tailing.Poll(s.file, s.tail, s.cfg.payloadMax).0))
            || s.ext.Extracting?
  {
    hide MainApply, MainEnabled, ExtApply, ExtEnabled, Act, Enabled, WriteFits, RangeResult, Joined, Left, Remove;
    hide Push, Tailing.Poll, Tailing.Failed;
    var s := run[j - 1];
    assert Next(run[j - 1], run[j - 1 + 1]);
    var step :| StepEnabled(s, step) && run[j] == Apply(s, step);
    match step
    case Ext(e) =>
      ExtHalts(s, e);
      RunPushesAccepted(run, j - 1);
    case Run(m) => MainLeavesExt(s, m);
    case _ =>
  }
}
