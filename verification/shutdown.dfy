/** Shutdown reaches every connection (canon-event-subscribe, server.rs: run, halt_extractor, handle_connection). */
module ShutdownSafety {
  import opened EventCaches
  import opened Subscription
  import opened Connections
  import opened ConnectionInvariant
  import opened Pipeline
  import opened PipelineInvariant
  import opened PipelineSteps
  import opened PipelineRuns
  import Tailing

  /** The thread is about to enter or inside dispatch_live. */
  predicate Dispatching(pc: Pc) {
    pc.Entering? || pc.Draining? || Looping(pc)
  }

  predicate Flagged(c: Conn) {
    c.sub.shutdownRequested || c.sub.disconnected
  }

  predicate ShuttingDown(m: Main) {
    m.FinalSnapshot? || m.FinalSignalling? || m.Returned?
  }

  /** Who still has to be told, given how far the final broadcast has come. */
  ghost predicate Told(s: State, id: ConnId)
    requires id < |s.conns|
  {
    var c := s.conns[id];
    && (s.main.FinalSignalling? && Dispatching(c.pc) ==> Flagged(c) || id in s.main.remaining)
    && (s.main.Returned? && Dispatching(c.pc) ==> Flagged(c))
  }

  ghost predicate ShutdownInv(s: State) {
    && (ShuttingDown(s.main) ==> s.stop)
    && (forall id :: 0 <= id < |s.conns| ==> Told(s, id))
  }

  /** The only way into dispatch is past the stop check, and flags never clear. */
  lemma ActFlags(c: Conn, a: Local)
    requires Enabled(c, a) && FreshInv(c)
    ensures Flagged(c) ==> Flagged(Act(c, a))
    ensures Dispatching(Act(c, a).pc) ==>
              || Dispatching(c.pc)
              || Flagged(Act(c, a))
              || (a.CheckStop? && !a.stop)
  {}

  lemma ConnNextFlags(s: State, c: Conn, c': Conn)
    requires ConnNext(s, c, c') && FreshInv(c)
    ensures Flagged(c) ==> Flagged(c')
    ensures s.stop && Dispatching(c'.pc) ==> Dispatching(c.pc) || Flagged(c')
  {
    hide Act, Enabled, Range, TailItems, FreshInv;
    if a :| Enabled(c, a) && (a.CheckStop? ==> a.stop == s.stop) && c' == Act(c, a) {
      ActFlags(c, a);
    }
  }

  /** Steps other than the main thread's. */
  lemma OthersKeepTold(s: State, step: Step)
    requires ShutdownInv(s) && Inv(s) && StepEnabled(s, step) && !step.Run?
    ensures ShutdownInv(Apply(s, step))
  {
    var s' := Apply(s, step);
    OthersKeepMain(s, step);
    hide StepEnabled, Apply, ConnNext, FreshInv, LocalInv, CoreInv, RegistryInv;
    forall id | 0 <= id < |s'.conns| ensures Told(s', id) {
      assert Told(s, id);
      assert ConnOk(s, id);
      StepConn(s, step, id);
      ConnNextFlags(s, s.conns[id], s'.conns[id]);
    }
  }

  lemma OthersKeepMain(s: State, step: Step)
    requires StepEnabled(s, step) && !step.Run?
    ensures var s' := Apply(s, step);
            s'.main == s.main && |s'.conns| == |s.conns| && (s.stop ==> s'.stop)
  {
    hide Tailing.Poll, Offered, OfferAccess, Signalled, Waiting, Push;
    hide Act, Enabled, RangeResult, Joined, Left, Remove;
  }

  /** A thread in dispatch is registered, so the final snapshot has it. */
  lemma DispatchingIsRegistered(s: State, id: ConnId)
    requires RegistryInv(s) && id < |s.conns| && Dispatching(s.conns[id].pc)
    ensures id in s.registry
  {}

  /** A shutdown request keeps flags, and is over only when one is set. */
  lemma SignalFlags(c: Conn, stage: SignalStage)
    requires RequestFits(c.sub, stage)
    ensures Signalled(c, stage).pc == c.pc && (Flagged(c) ==> Flagged(Signalled(c, stage)))
    ensures SignalAccess(c.sub, stage).1.None? ==> Flagged(Signalled(c, stage))
  {}

  /** Whoever has been dealt with is flagged; the others are still waiting. */
  lemma WaitingKeepsTold(s: State, remaining: seq<ConnId>, stage: SignalStage, id: ConnId)
    requires remaining != [] && remaining[0] < |s.conns| && id < |s.conns| && RequestsFit(s.conns, remaining, stage)
    requires Dispatching(s.conns[id].pc) ==> Flagged(s.conns[id]) || id in remaining
    ensures var c' := SignalOne(s, remaining[0], stage).conns[id];
            Dispatching(c'.pc) ==> Flagged(c') || id in Waiting(s, remaining, stage).0
  {
    hide Signalled, Dispatching, Flagged, SignalAccess;
    SignalFlags(s.conns[remaining[0]], stage);
    assert remaining == [remaining[0]] + remaining[1..];
  }

  lemma MainKeepsTold(s: State, m: MainAction)
    requires ShutdownInv(s) && RegistryInv(s) && MainEnabled(s, m)
    ensures ShutdownInv(MainApply(s, m))
  {
    hide Joiners, Distinct, RequestsFit, Signalled, Dispatching, Flagged, Waiting;
    var s' := MainApply(s, m);
    ArrivalsNotDispatching(s.cfg);
    forall id | 0 <= id < |s'.conns| ensures Told(s', id) {
      if id < |s.conns| {
        assert Told(s, id);
        if m.ShutdownSnapshot? && Dispatching(s.conns[id].pc) {
          DispatchingIsRegistered(s, id);
        }
        if m.ShutdownSignal? {
          WaitingKeepsTold(s, s.main.remaining, s.main.stage, id);
        }
      }
    }
  }

  lemma ArrivalsNotDispatching(cfg: Config)
    ensures !Dispatching(NewConn(cfg.queueDepth, cfg.maxLag).pc)
    ensures forall ok :: !Dispatching(Rejected(cfg, ok).pc)
  {}

  lemma InitShutdown(cfg: Config)
    ensures ShutdownInv(Init(cfg))
  {}

  lemma {:induction false} RunShutdownInv(run: seq<State>, i: nat)
    requires IsRun(run) && i < |run|
    ensures ShutdownInv(run[i])
  {
    hide StepEnabled, Apply, Init, ShutdownInv, CoreInv, ConnInv;
    if i == 0 {
      InitShutdown(run[0].cfg);
    } else {
      RunShutdownInv(run, i - 1);
      assert Next(run[i - 1], run[i - 1 + 1]);
      var step :| StepEnabled(run[i - 1], step) && run[i] == Apply(run[i - 1], step);
      RunInv(run, i - 1);
      StepKeepsTold(run[i - 1], step);
    }
  }

  lemma StepKeepsTold(s: State, step: Step)
    requires ShutdownInv(s) && Inv(s) && StepEnabled(s, step)
    ensures ShutdownInv(Apply(s, step))
  {
    hide ShutdownInv, RegistryInv, ConnInv, CoreInv, MainApply, MainEnabled;
    if step.Run? {
      MainKeepsTold(s, step.m);
    } else {
      OthersKeepTold(s, step);
    }
  }

  /**
   * Shutdown misses nobody: once the final broadcast of Server::run has
   * completed, every thread that is in, or later enters, live dispatch has its
   * shutdown flag or its disconnect flag set, in every interleaving of
   * registration, the stop check, lag eviction and an extractor halt.
   */
  lemma ShutdownMissesNobody(run: seq<State>, i: nat, id: ConnId)
    requires IsRun(run) && i < |run| && id < |run[i].conns|
    requires run[i].main.Returned? && Dispatching(run[i].conns[id].pc)
    ensures Flagged(run[i].conns[id])
  {
    hide IsRun, Dispatching, Flagged;
    RunShutdownInv(run, i);
    assert Told(run[i], id);
  }

  // ----- A flagged thread stops promptly -----

  /** Events a flagged thread may still write before it looks at its flags. */
  function Budget(c: Conn): nat {
    if c.pc.Receiving? || c.pc.Writing? then 1
    else if c.pc.CheckingDisconnected? && !c.sub.disconnected then 1
    else 0
  }

  predicate Winding(c: Conn) {
    (Dispatching(c.pc) && Flagged(c)) || Ended(c.pc)
  }

  /** Only two actions write an event frame, and they write one. */
  lemma ActWireCount(c: Conn, a: Local)
    requires Enabled(c, a)
    ensures |WireItems(Act(c, a).wire)| <= |WireItems(c.wire)| + (if a.WriteBackfill? || a.WriteNext? then 1 else 0)
  {
    var wire := Act(c, a).wire;
    assert wire == c.wire || wire[..|wire| - 1] == c.wire;
  }

  lemma ActSpendsBudget(c: Conn, a: Local)
    requires Enabled(c, a) && Winding(c) && FreshInv(c)
    ensures Winding(Act(c, a))
    ensures |WireItems(Act(c, a).wire)| + Budget(Act(c, a)) <= |WireItems(c.wire)| + Budget(c)
  {
    hide SignalAccess, WireItems, FreshInv;
    ActFlags(c, a);
    ActWireCount(c, a);
  }

  lemma ConnNextSpendsBudget(s: State, c: Conn, c': Conn)
    requires ConnNext(s, c, c') && Winding(c) && FreshInv(c)
    ensures Winding(c') && |WireItems(c'.wire)| + Budget(c') <= |WireItems(c.wire)| + Budget(c)
  {
    hide Act, Enabled, Range, TailItems, WireItems, FreshInv;
    if a :| Enabled(c, a) && c' == Act(c, a) {
      ActSpendsBudget(c, a);
    }
  }

  /** After its flag is set, a dispatching thread writes at most one more event, whatever else happens. */
  lemma {:induction false} FlaggedStopsPromptly(run: seq<State>, i: nat, j: nat, id: ConnId)
    requires IsRun(run) && i <= j < |run| && id < |run[i].conns| && Winding(run[i].conns[id])
    ensures id < |run[j].conns| && Winding(run[j].conns[id])
    ensures |WireItems(run[j].conns[id].wire)| + Budget(run[j].conns[id])
         <= |WireItems(run[i].conns[id].wire)| + Budget(run[i].conns[id])
    ensures |WireItems(run[j].conns[id].wire)| <= |WireItems(run[i].conns[id].wire)| + 1
  {
    hide StepEnabled, Apply, Init, ConnNext, Winding, WireItems, FreshInv, LocalInv, CoreInv, RegistryInv;
    if i < j {
      FlaggedStopsPromptly(run, i, j - 1, id);
      assert Next(run[j - 1], run[j - 1 + 1]);
      var step :| StepEnabled(run[j - 1], step) && run[j] == Apply(run[j - 1], step);
      RunInv(run, j - 1);
      assert ConnOk(run[j - 1], id);
      StepConn(run[j - 1], step, id);
      ConnNextSpendsBudget(run[j - 1], run[j - 1].conns[id], run[j].conns[id]);
    }
  }
}
