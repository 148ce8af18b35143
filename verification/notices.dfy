/** How connections end, and whether their last frame tells the truth (canon-event-subscribe, server.rs and lib.rs). */
module Notices {
  import opened EventCaches
  import opened Subscription
  import opened Connections
  import opened ConnectionInvariant
  import opened Placement
  import opened Pipeline
  import opened PipelineInvariant
  import opened PipelineSteps
  import opened PipelineRuns
  import Tailing

  /** What the dispatch loop has set aside or taken out of the channel. */
  function SetAside(pc: Pc): seq<Delivery<Item>> {
    match pc
    case Draining(p) => p
    case CheckingShutdown(p) => p
    case CheckingDisconnected(p) => p
    case Receiving(p) => p
    case Writing(d, p) => [d] + p
    case _ => []
  }

  /** A sentinel is only ever sent after the flag is raised. */
  ghost predicate SentinelsFlagged(c: Conn) {
    Shutdown in c.sub.queue || Shutdown in SetAside(c.pc) ==> c.sub.shutdownRequested
  }

  /** A thread that ends without having lost its peer has said why. */
  ghost predicate SaysWhy(c: Conn) {
    && (c.parted ==> Ended(c.pc))
    && (Ended(c.pc) && !c.parted ==>
          && c.wire != []
          && var f := c.wire[|c.wire| - 1];
             if c.ranged.Some? then f.LagExceededFrame? || f.ServerShutdownFrame? else !f.EventFrame?)
  }

  /** Only a lost peer, a finished thread or an exceeded lag disconnects. */
  predicate Justified(c: Conn) {
    c.sub.disconnected ==> c.parted || !c.sub.receiverOpen || c.sub.lag > c.sub.maxLag
  }

  /** What the last frame says is so. */
  ghost predicate Truthful(c: Conn) {
    c.wire != [] ==>
      var f := c.wire[|c.wire| - 1];
      && (f.LagExceededFrame? && c.ranged.Some? ==> c.sub.lag > c.sub.maxLag)
      && (f.ServerShutdownFrame? ==> c.sub.shutdownRequested)
  }

  ghost predicate NoticeInv(c: Conn) {
    SentinelsFlagged(c) && SaysWhy(c) && Justified(c) && Truthful(c)
  }

  // ----- Kept by every change of a connection -----

  lemma OfferedNotices(c: Conn, item: Item, stage: OfferStage)
    requires NoticeInv(c) && LagFits(c, stage)
    ensures NoticeInv(Offered(c, item, stage))
  {}

  lemma SignalledNotices(c: Conn, stage: SignalStage)
    requires NoticeInv(c) && RequestFits(c.sub, stage)
    ensures NoticeInv(Signalled(c, stage))
  {}

  lemma PoppedSentinels(c: Conn)
    requires SentinelsFlagged(c) && c.sub.queue != []
    ensures Shutdown in Popped(c).sub.queue ==> c.sub.shutdownRequested
    ensures c.sub.queue[0] == Shutdown ==> c.sub.shutdownRequested
  {
    assert forall x :: x in c.sub.queue[1..] ==> x in c.sub.queue;
  }

  lemma ActSentinels(c: Conn, a: Local)
    requires Enabled(c, a) && SentinelsFlagged(c) && FreshInv(c)
    ensures SentinelsFlagged(Act(c, a))
  {
    hide SignalAccess;
    match a
    case DrainOne => PoppedSentinels(c);
    case TakeNext =>
      if c.pc.pending != [] {
        assert c.pc.pending == [c.pc.pending[0]] + c.pc.pending[1..];
      } else {
        PoppedSentinels(c);
      }
    case SignalSelf => SelfSentinels(c);
    case _ =>
  }

  lemma SelfSentinels(c: Conn)
    requires c.pc.SelfSignalling? && SentinelsFlagged(c) && RequestFits(c.sub, c.pc.stage)
    ensures SentinelsFlagged(Act(c, SignalSelf))
  {}

  /** Before the thread ends only events are on the wire, and it has not lost its peer. */
  lemma ActSaysWhy(c: Conn, a: Local)
    requires Enabled(c, a) && SaysWhy(c) && FreshInv(c)
    ensures SaysWhy(Act(c, a))
  {
    hide SignalAccess;
  }

  lemma ActJustified(c: Conn, a: Local)
    requires Enabled(c, a) && Justified(c) && FreshInv(c)
    ensures Justified(Act(c, a))
  {}

  lemma ActTruthful(c: Conn, a: Local)
    requires Enabled(c, a) && FreshInv(c) && NoticeInv(c) && QueueInv(c) && (!Ended(c.pc) ==> AllEvents(c.wire))
    ensures Truthful(Act(c, a))
  {
    hide SignalAccess, LiveItems, RequestFits;
    if a.SignalSelf? {
      SignalFrame(c.sub, c.pc.stage);
    }
  }

  lemma ActNotices(c: Conn, a: Local)
    requires Enabled(c, a) && NoticeInv(c) && FreshInv(c) && LocalInv(c)
    ensures NoticeInv(Act(c, a))
  {
    hide Act, FreshInv, MarkInv, Balanced, Staged, StreamShape, AllEvents, WireItems, LiveItems;
    ActSentinels(c, a);
    ActSaysWhy(c, a);
    ActJustified(c, a);
    ActTruthful(c, a);
  }

  lemma AnswerNotices(s: State, c: Conn)
    requires NoticeInv(c) && c.pc.Ranging? && c.wire == []
    ensures NoticeInv(RangeResult(s, c))
  {
    hide Range, TailItems;
  }

  lemma ConnNextNotices(s: State, c: Conn, c': Conn)
    requires ConnNext(s, c, c') && NoticeInv(c) && FreshInv(c) && LocalInv(c)
    ensures NoticeInv(c')
  {
    hide Act, Enabled, Offered, Signalled, RangeResult, FreshInv, NoticeInv;
    hide LagFits, RequestFits, QueueInv, MarkInv, WireInv, Balanced;
    if a :| Enabled(c, a) && c' == Act(c, a) {
      ActNotices(c, a);
    } else if stage :| RequestFits(c.sub, stage) && c' == Signalled(c, stage) {
      SignalledNotices(c, stage);
    } else if item, stage :| LagFits(c, stage) && c' == Offered(c, item, stage) {
      OfferedNotices(c, item, stage);
    } else if c.pc.Ranging? && c' == RangeResult(s, c) {
      AnswerNotices(s, c);
    } else {
      MovedNotices(s, c);
    }
  }

  lemma MovedNotices(s: State, c: Conn)
    requires NoticeInv(c)
    ensures c.pc.Registering? ==> NoticeInv(Joined(c, Frontier(s), FrontierSeq(s)))
    ensures c.pc.Unregistering? ==> NoticeInv(Left(c))
  {}

  // ----- Kept along every run -----

  lemma Arrivals(s: State, step: Step, id: ConnId)
    requires StepEnabled(s, step) && |s.conns| <= id < |Apply(s, step).conns|
    ensures NoticeInv(Apply(s, step).conns[id])
  {
    hide ExtApply, ExtEnabled, Signalled, Waiting, Act, Enabled, RangeResult, Joined, Left, Remove, NoticeInv;
    NewNotices(s.cfg);
    if step.Ext? {
      ExtKeepsCount(s, step.e);
    }
  }

  lemma NewNotices(cfg: Config)
    ensures NoticeInv(NewConn(cfg.queueDepth, cfg.maxLag)) && forall ok :: NoticeInv(Rejected(cfg, ok))
  {}

  lemma ExtKeepsCount(s: State, e: ExtAction)
    requires ExtEnabled(s, e)
    ensures |ExtApply(s, e).conns| == |s.conns|
  {
    hide Tailing.Poll, Offered, OfferAccess, Signalled, Waiting, Push;
  }

  lemma {:induction false} RunNotices(run: seq<State>, i: nat, id: ConnId)
    requires IsRun(run) && i < |run| && id < |run[i].conns|
    ensures NoticeInv(run[i].conns[id])
  {
    hide StepEnabled, Apply, ConnNext, NoticeInv, FreshInv, LocalInv, CoreInv, RegistryInv;
    assert i > 0;
    assert Next(run[i - 1], run[i - 1 + 1]);
    var step :| StepEnabled(run[i - 1], step) && run[i] == Apply(run[i - 1], step);
    if id < |run[i - 1].conns| {
      RunNotices(run, i - 1, id);
      RunInv(run, i - 1);
      assert ConnOk(run[i - 1], id);
      StepConn(run[i - 1], step, id);
      ConnNextNotices(run[i - 1], run[i - 1].conns[id], run[i].conns[id]);
    } else {
      Arrivals(run[i - 1], step, id);
    }
  }

  /**
   * No connection ends silently (lib.rs:112-115): when a thread has ended, every
   * write succeeded and its peer was there, its last frame is a control frame;
   * for a connection the cache admitted, LagExceeded or ServerShutdown.
   */
  lemma NoSilentEnd(run: seq<State>, i: nat, id: ConnId)
    requires IsRun(run) && i < |run| && id < |run[i].conns|
    requires Ended(run[i].conns[id].pc) && !run[i].conns[id].parted
    ensures var c := run[i].conns[id];
            && c.wire != []
            && var f := c.wire[|c.wire| - 1];
               !f.EventFrame? && (c.ranged.Some? ==> f.LagExceededFrame? || f.ServerShutdownFrame?)
  {
    hide IsRun;
    RunNotices(run, i, id);
  }

  /**
   * Notices tell the truth: an admitted connection is told LagExceeded only if
   * its lag really exceeded the bound, and anyone is told ServerShutdown only if
   * shutdown was requested.
   */
  lemma NoticesAreTrue(run: seq<State>, i: nat, id: ConnId)
    requires IsRun(run) && i < |run| && id < |run[i].conns| && run[i].conns[id].wire != []
    ensures var c := run[i].conns[id];
            var f := c.wire[|c.wire| - 1];
            && (f.LagExceededFrame? && c.ranged.Some? ==> c.sub.lag > c.sub.maxLag)
            && (f.ServerShutdownFrame? ==> c.sub.shutdownRequested)
  {
    hide IsRun;
    RunNotices(run, i, id);
  }

  // ----- A sentinel is never lost -----

  /** A shutdown sentinel is in the channel or in the thread's hand. */
  ghost predicate HasSentinel(c: Conn) {
    Shutdown in c.sub.queue || Shutdown in SetAside(c.pc)
  }

  lemma ActKeepsSentinel(c: Conn, a: Local)
    requires Enabled(c, a) && HasSentinel(c)
    ensures HasSentinel(Act(c, a)) || Ended(Act(c, a).pc)
  {
    match a
    case DrainOne => HeadOrRest(c.sub.queue);
    case TakeNext =>
      if c.pc.pending != [] {
        HeadOrRest(c.pc.pending);
      } else {
        HeadOrRest(c.sub.queue);
      }
    case _ =>
  }

  lemma HeadOrRest(q: seq<Delivery<Item>>)
    requires q != []
    ensures Shutdown in q ==> q[0] == Shutdown || Shutdown in q[1..]
  {
    assert q == [q[0]] + q[1..];
  }

  lemma ConnNextKeepsSentinel(s: State, c: Conn, c': Conn)
    requires ConnNext(s, c, c') && HasSentinel(c) && (c.pc.Ranging? || c.pc.Registering? ==> Shutdown in c.sub.queue)
    ensures HasSentinel(c') || Ended(c'.pc)
  {
    hide Act, Enabled, WriteFits, Range, TailItems;
    if a :| Enabled(c, a) && c' == Act(c, a) {
      ActKeepsSentinel(c, a);
    }
  }

  /** Whatever the drain throws away, a sentinel stays in the channel or in hand until the thread ends. */
  lemma {:induction false} SentinelIsKept(run: seq<State>, i: nat, j: nat, id: ConnId)
    requires IsRun(run) && i <= j < |run| && id < |run[i].conns| && HasSentinel(run[i].conns[id])
    ensures id < |run[j].conns| && (HasSentinel(run[j].conns[id]) || Ended(run[j].conns[id].pc))
  {
    hide StepEnabled, Apply, Init, ConnNext, Inv, SetAside;
    if i < j {
      SentinelIsKept(run, i, j - 1, id);
      assert Next(run[j - 1], run[j - 1 + 1]);
      var step :| StepEnabled(run[j - 1], step) && run[j] == Apply(run[j - 1], step);
      RunInv(run, j - 1);
      StepConn(run[j - 1], step, id);
      RunAdvances(run, j - 1, j, id);
      if !Ended(run[j - 1].conns[id].pc) {
        InHandWhenDispatching(run[j - 1].conns[id]);
        ConnNextKeepsSentinel(run[j - 1], run[j - 1].conns[id], run[j].conns[id]);
      }
    }
  }

  lemma InHandWhenDispatching(c: Conn)
    ensures c.pc.Ranging? || c.pc.Registering? ==> SetAside(c.pc) == []
  {}
}
