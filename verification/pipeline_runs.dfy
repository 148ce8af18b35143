/** How a connection and the history change along a run. */
module PipelineRuns {
  import opened Events
  import opened EventCaches
  import opened Subscription
  import opened Connections
  import opened ConnectionInvariant
  import opened Placement
  import opened Pipeline
  import opened PipelineInvariant
  import opened PipelineSteps
  import Tailing

  /** All that one step of the server can do to one connection. */
  ghost predicate ConnNext(s: State, c: Conn, c': Conn) {
    || c' == c
    || (exists stage :: RequestFits(c.sub, stage) && c' == Signalled(c, stage))
    || (exists item, stage :: LagFits(c, stage) && c' == Offered(c, item, stage))
    || (exists a ::
          && Enabled(c, a) && (a.CheckStop? ==> a.stop == s.stop) && (a.RefuseAtCapacity? ==> CapReached(s))
          && WriteFits(s.cfg, c, a) && c' == Act(c, a))
    || (c.pc.Registering? && c' == Joined(c, Frontier(s), FrontierSeq(s)))
    || (c.pc.Ranging? && !LockHeld(s) && c' == RangeResult(s, c))
    || (c.pc.Unregistering? && c' == Left(c))
  }

  lemma OfferConn(s: State, id: ConnId)
    requires Inv(s) && ExtEnabled(s, OfferOne) && id < |s.conns|
    ensures ConnNext(s, s.conns[id], OfferedOne(s).conns[id])
  {
    hide Offered, OfferAccess, ConnInv, CoreInv, Signalled, Act, Enabled, RangeResult;
    if id == s.ext.snapshot[s.ext.peer] {
      assert ConnOk(s, id);
      OfferProgress(s);
      OfferLag(s.conns[id], s.hist, s.published, ProgressOf(s, id), FrontierSeq(s));
      assert LagFits(s.conns[id], s.ext.offer);
      assert OfferedOne(s).conns[id] == Offered(s.conns[id], AtHand(s), s.ext.offer);
    }
  }

  lemma OfferLag(c: Conn, hist: seq<CachedEvent>, published: nat, at: Progress, frontierSeq: nat)
    requires ConnInv(c, hist, published, at, frontierSeq) && !Unjoined(c.pc)
    ensures LagFits(c, at.stage)
  {}

  lemma SignalConn(s: State, remaining: seq<ConnId>, stage: SignalStage, id: ConnId)
    requires remaining != [] && remaining[0] < |s.conns| && id < |s.conns| && RequestsFit(s.conns, remaining, stage)
    ensures ConnNext(s, s.conns[id], SignalOne(s, remaining[0], stage).conns[id])
  {
    hide Offered, Signalled, Act, Enabled, RangeResult;
    if id == remaining[0] {
      assert RequestFits(s.conns[id].sub, stage);
      assert SignalOne(s, remaining[0], stage).conns[id] == Signalled(s.conns[id], stage);
    }
  }

  /** Extractor steps that leave all connections alone. */
  lemma ExtLeavesConns(s: State, e: ExtAction)
    requires ExtEnabled(s, e) && !e.OfferOne? && !e.HaltSignal?
    ensures ExtApply(s, e).conns == s.conns
  {
    hide Tailing.Poll, Push;
  }

  lemma ExtConn(s: State, e: ExtAction, id: ConnId)
    requires Inv(s) && ExtEnabled(s, e) && id < |s.conns|
    ensures |ExtApply(s, e).conns| == |s.conns| && ConnNext(s, s.conns[id], ExtApply(s, e).conns[id])
  {
    if e.OfferOne? {
      OfferConn(s, id);
    } else if e.HaltSignal? {
      SignalConn(s, s.ext.remaining, s.ext.stage, id);
    } else {
      ExtLeavesConns(s, e);
    }
  }

  lemma MainConn(s: State, m: MainAction, id: ConnId)
    requires Inv(s) && MainEnabled(s, m) && id < |s.conns|
    ensures |MainApply(s, m).conns| >= |s.conns| && ConnNext(s, s.conns[id], MainApply(s, m).conns[id])
  {
    hide Offered, Signalled, Act, Enabled, RangeResult, ConnInv, CoreInv, Waiting;
    if m.ShutdownSignal? {
      SignalConn(s, s.main.remaining, s.main.stage, id);
    }
  }

  lemma StepConn(s: State, step: Step, id: ConnId)
    requires Inv(s) && StepEnabled(s, step) && id < |s.conns|
    ensures |Apply(s, step).conns| >= |s.conns| && ConnNext(s, s.conns[id], Apply(s, step).conns[id])
  {
    hide Inv, ExtApply, ExtEnabled, MainApply, MainEnabled, Offered;
    hide Signalled, Act, Enabled, RangeResult, Joined, Left;
    match step
    case Ext(e) => ExtConn(s, e, id);
    case Run(m) => MainConn(s, m, id);
    case Thread(_, a) =>
    case _ =>
  }

  // ----- What never goes back -----

  /** Progress of a connection between two moments. */
  ghost predicate Advances(c: Conn, c': Conn) {
    && c.wire <= c'.wire
    && c.enqueued <= c'.enqueued
    && (c.sub.disconnected ==> c'.sub.disconnected)
    && (c.pc.Finished? ==> c'.pc.Finished?)
    && (Ended(c.pc) ==> Ended(c'.pc) && c'.wire == c.wire)
    && (c.parted ==> c'.parted)
    && (!Unjoined(c.pc) ==>
          && !Unjoined(c'.pc)
          && c'.resumeFrom == c.resumeFrom && c'.joinPos == c.joinPos && c'.joinSeq == c.joinSeq)
    && (c.ranged.Some? ==>
          && c'.ranged == c.ranged && c'.backfill == c.backfill
          && (c.missed.Some? ==> c'.missed == c.missed))
  }

  lemma ActAdvances(c: Conn, a: Local)
    requires Enabled(c, a) && (c.ranged.Some? ==> !c.pc.Ranging?)
    ensures Advances(c, Act(c, a))
  {
    hide SignalAccess;
    ActFrame(c, a);
    ActNarrows(c, a);
    ActActivity(c, a);
  }

  lemma ConnNextAdvances(s: State, c: Conn, c': Conn)
    requires ConnNext(s, c, c') && (c.ranged.Some? ==> !BeforeRange(c.pc))
    ensures Advances(c, c')
  {
    hide Act, Enabled, Range, TailItems;
    if a :| Enabled(c, a) && c' == Act(c, a) {
      ActAdvances(c, a);
    }
  }

  lemma AdvancesTransitive(a: Conn, b: Conn, c: Conn)
    requires Advances(a, b) && Advances(b, c)
    ensures Advances(a, c)
  {}

  /** Along a run every connection only advances. */
  lemma {:induction false} RunAdvances(run: seq<State>, i: nat, j: nat, id: ConnId)
    requires IsRun(run) && i <= j < |run| && id < |run[i].conns|
    ensures id < |run[j].conns| && Advances(run[i].conns[id], run[j].conns[id])
  {
    hide StepEnabled, Apply, Init, ConnNext, Advances, ConnInv;
    if i == j {
      AdvancesReflexive(run[i].conns[id]);
    } else {
      RunAdvances(run, i, j - 1, id);
      assert Next(run[j - 1], run[j - 1 + 1]);
      var step :| StepEnabled(run[j - 1], step) && run[j] == Apply(run[j - 1], step);
      RunInv(run, j - 1);
      StepConn(run[j - 1], step, id);
      assert ConnOk(run[j - 1], id);
      RangedPastRange(run[j - 1], id);
      ConnNextAdvances(run[j - 1], run[j - 1].conns[id], run[j].conns[id]);
      AdvancesTransitive(run[i].conns[id], run[j - 1].conns[id], run[j].conns[id]);
    }
  }

  lemma AdvancesReflexive(c: Conn)
    ensures Advances(c, c)
  {}

  lemma RangedPastRange(s: State, id: ConnId)
    requires id < |s.conns| && ConnOk(s, id)
    ensures s.conns[id].ranged.Some? ==> !BeforeRange(s.conns[id].pc)
  {}

  /** The history only grows, and the broadcast frontier only moves on. */
  ghost predicate HistoryAdvances(s: State, s': State) {
    && s.hist <= s'.hist
    && FrontierSeq(s) <= FrontierSeq(s')
    && |s.conns| <= |s'.conns|
    && s.file <= s'.file
  }

  lemma ExtHistory(s: State, e: ExtAction)
    requires CoreInv(s) && ExtEnabled(s, e)
    ensures HistoryAdvances(s, ExtApply(s, e))
  {
    hide Tailing.Poll, Offered, Signalled, Push, Ordered, CacheOf;
  }

  lemma StepHistory(s: State, step: Step)
    requires CoreInv(s) && StepEnabled(s, step)
    ensures HistoryAdvances(s, Apply(s, step))
  {
    hide ExtApply, ExtEnabled, Signalled, Act, Enabled, RangeResult, Joined, Left, Remove, CoreInv;
    if step.Ext? {
      ExtHistory(s, step.e);
    }
  }

  lemma {:induction false} RunHistory(run: seq<State>, i: nat, j: nat)
    requires IsRun(run) && i <= j < |run|
    ensures HistoryAdvances(run[i], run[j])
  {
    hide StepEnabled, Apply, Init, FrontierSeq;
    if i < j {
      RunHistory(run, i, j - 1);
      assert Next(run[j - 1], run[j - 1 + 1]);
      var step :| StepEnabled(run[j - 1], step) && run[j] == Apply(run[j - 1], step);
      RunInv(run, j - 1);
      StepHistory(run[j - 1], step);
    }
  }

  // ----- When a connection joined -----

  /** The thread registered between states `k` and `k + 1`, at the broadcast frontier of that moment. */
  ghost predicate RegisteredAt(run: seq<State>, k: nat, id: ConnId, c: Conn) {
    && k + 1 < |run| && id < |run[k].conns| && id < |run[k + 1].conns|
    && Unjoined(run[k].conns[id].pc) && !Unjoined(run[k + 1].conns[id].pc)
    && c.joinPos == Frontier(run[k]) && c.joinSeq == FrontierSeq(run[k])
  }

  /** The connection really registered (a refused one finishes without doing so). */
  predicate HasJoined(c: Conn) {
    Participating(c) || c.ranged.Some?
  }

  lemma ConnNextJoins(s: State, c: Conn, c': Conn)
    requires ConnNext(s, c, c') && HasJoined(c') && !HasJoined(c)
    requires c.ranged.Some? ==> !BeforeRange(c.pc)
    ensures Unjoined(c.pc) && !Unjoined(c'.pc)
    ensures c'.joinPos == Frontier(s) && c'.joinSeq == FrontierSeq(s)
  {
    hide Act, Enabled, Range, TailItems;
    if a :| Enabled(c, a) && c' == Act(c, a) {
      ActActivity(c, a);
      ActFrame(c, a);
    }
  }

  /** The joining point recorded by a connection is the frontier at its registration. */
  lemma {:induction false} JoinedAtRegistration(run: seq<State>, i: nat, id: ConnId) returns (k: nat)
    requires IsRun(run) && i < |run| && id < |run[i].conns| && HasJoined(run[i].conns[id])
    ensures k < i && RegisteredAt(run, k, id, run[i].conns[id])
  {
    hide StepEnabled, Apply, ConnNext, ConnInv, Frontier, FrontierSeq;
    assert i > 0;
    assert Next(run[i - 1], run[i - 1 + 1]);
    var step :| StepEnabled(run[i - 1], step) && run[i] == Apply(run[i - 1], step);
    ArrivalsHaveNotJoined(run[i - 1], step, id);
    RunInv(run, i - 1);
    StepConn(run[i - 1], step, id);
    assert ConnOk(run[i - 1], id);
    RangedPastRange(run[i - 1], id);
    var c, c' := run[i - 1].conns[id], run[i].conns[id];
    if HasJoined(c) {
      k := JoinedAtRegistration(run, i - 1, id);
      ConnNextAdvances(run[i - 1], c, c');
      RangedPastRange(run[i - 1], id);
    } else {
      ConnNextJoins(run[i - 1], c, c');
      k := i - 1;
    }
  }

  lemma ArrivalsHaveNotJoined(s: State, step: Step, id: ConnId)
    requires StepEnabled(s, step) && id < |Apply(s, step).conns| && HasJoined(Apply(s, step).conns[id])
    ensures id < |s.conns|
  {
    hide Tailing.Poll, Offered, OfferAccess, Signalled, Waiting, Push;
    hide Act, Enabled, RangeResult, Joined, Left, Remove;
  }

  // ----- After disconnection -----

  /** An offer to this subscriber has passed its check and not been sent yet. */
  predicate OfferInFlight(s: State, id: ConnId) {
    IsPeer(s.ext, id) && s.ext.event < |s.ext.batch| && s.ext.offer.Sending?
  }

  /** What one step can do to the queue of a disconnected subscriber: finish the offer in flight, if there is one. */
  ghost predicate QueueStep(s: State, s': State, id: ConnId)
    requires id < |s.conns| && id < |s'.conns|
  {
    var c, c' := s.conns[id], s'.conns[id];
    && c'.sub.disconnected
    && (|| c'.enqueued == c.enqueued
        || (OfferInFlight(s, id) && !OfferInFlight(s', id) && c'.enqueued == c.enqueued + [AtHand(s)]))
    && (OfferInFlight(s', id) ==> OfferInFlight(s, id) && c'.enqueued == c.enqueued && AtHand(s') == AtHand(s))
  }

  lemma OfferQueues(s: State, id: ConnId)
    requires ExtEnabled(s, OfferOne) && id < |s.conns| && s.conns[id].sub.disconnected && Distinct(s.ext.snapshot)
    ensures QueueStep(s, OfferedOne(s), id)
  {}

  /** Outside an offer, the extractor does not touch the event at hand or any queue. */
  lemma ExtQueues(s: State, e: ExtAction, id: ConnId)
    requires RegistryInv(s) && ExtEnabled(s, e) && id < |s.conns| && s.conns[id].sub.disconnected
    requires CoreInv(s)
    ensures |ExtApply(s, e).conns| == |s.conns| && QueueStep(s, ExtApply(s, e), id)
  {
    if e.OfferOne? {
      OfferQueues(s, id);
    } else if e.HaltSignal? {
      hide SignalAccess;
      SignalFrame(s.conns[s.ext.remaining[0]].sub, s.ext.stage);
    } else {
      hide Tailing.Poll, Push, CacheOf, Ordered;
      ExtLeavesConns(s, e);
    }
  }

  /** No other thread puts events into a queue. */
  lemma OthersQueueNothing(s: State, step: Step, id: ConnId)
    requires StepEnabled(s, step) && !step.Ext? && id < |s.conns|
    ensures var s' := Apply(s, step);
            && id < |s'.conns| && s'.ext == s.ext && s'.published == s.published
            && s'.conns[id].enqueued == s.conns[id].enqueued
            && (s.conns[id].sub.disconnected ==> s'.conns[id].sub.disconnected)
  {
    hide Act, Enabled, SignalAccess, Range, TailItems, Remove, Waiting;
    match step
    case Thread(other, a) =>
      ActFrame(s.conns[other], a);
      ActNarrows(s.conns[other], a);
    case Run(m) =>
      if m.ShutdownSignal? {
        SignalFrame(s.conns[s.main.remaining[0]].sub, s.main.stage);
      }
    case _ =>
  }

  lemma StepQueues(s: State, step: Step, id: ConnId)
    requires Inv(s) && StepEnabled(s, step) && id < |s.conns| && s.conns[id].sub.disconnected
    ensures id < |Apply(s, step).conns| && QueueStep(s, Apply(s, step), id)
  {
    hide ConnInv, CoreInv, RegistryInv, ExtApply, ExtEnabled, MainApply, MainEnabled;
    if step.Ext? {
      hide QueueStep;
      ExtQueues(s, step.e, id);
    } else {
      hide StepEnabled, Apply;
      OthersQueueNothing(s, step, id);
    }
  }

  /**
   * After disconnection nothing enters the queue, except that the one offer that
   * had already passed its check may still go through.
   */
  lemma {:induction false} QueueAfterDisconnect(run: seq<State>, i: nat, j: nat, id: ConnId)
    requires IsRun(run) && i <= j < |run| && id < |run[i].conns| && run[i].conns[id].sub.disconnected
    ensures id < |run[j].conns| && QueueStep(run[i], run[j], id)
  {
    hide StepEnabled, Apply, Init, Inv, AtHand;
    if i < j {
      QueueAfterDisconnect(run, i, j - 1, id);
      assert Next(run[j - 1], run[j - 1 + 1]);
      var step :| StepEnabled(run[j - 1], step) && run[j] == Apply(run[j - 1], step);
      RunInv(run, j - 1);
      StepQueues(run[j - 1], step, id);
    }
  }
}
