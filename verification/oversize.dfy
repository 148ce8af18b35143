/** Events too large for a frame: every write of one fails (canon-event-subscribe, frame.rs and server.rs). */
module Oversize {
  import opened Events
  import opened EventCaches
  import opened Subscription
  import opened Connections
  import opened ConnectionInvariant
  import opened Placement
  import opened Pipeline
  import opened PipelineInvariant
  import opened PipelineSteps
  import opened PipelineRuns
  import opened Delivery
  import LogRefinement
  import Tailing

  /** Every event on the wire is within the frame bound. */
  predicate PayloadsFit(wire: seq<Frame>, cfg: Config) {
    forall i :: 0 <= i < |wire| ==> wire[i].EventFrame? ==> FrameFits(cfg, wire[i].item.event)
  }

  // ----- No oversize event is ever on a wire -----

  lemma ActFits(cfg: Config, c: Conn, a: Local)
    requires Enabled(c, a) && WriteFits(cfg, c, a) && PayloadsFit(c.wire, cfg)
    ensures PayloadsFit(Act(c, a).wire, cfg)
  {
    hide SignalAccess, FrameFits;
  }

  lemma ConnNextFits(s: State, c: Conn, c': Conn)
    requires ConnNext(s, c, c') && PayloadsFit(c.wire, s.cfg)
    ensures PayloadsFit(c'.wire, s.cfg)
  {
    hide Act, Enabled, WriteFits, Range, TailItems, OfferAccess, SignalAccess, PayloadsFit;
    if a :| Enabled(c, a) && WriteFits(s.cfg, c, a) && c' == Act(c, a) {
      ActFits(s.cfg, c, a);
    }
  }

  /** Newcomers have at most a refusal on their wire. */
  lemma ArrivalsFit(s: State, step: Step, id: ConnId)
    requires StepEnabled(s, step) && |s.conns| <= id < |Apply(s, step).conns|
    ensures PayloadsFit(Apply(s, step).conns[id].wire, s.cfg)
  {
    hide Tailing.Poll, Offered, OfferAccess, Signalled, Waiting, Push, Act, Enabled, RangeResult, Joined, Left, Remove;
  }

  /** In every run, every event on every wire is within the frame bound. */
  lemma {:induction false} RunPayloadsFit(run: seq<State>, i: nat, id: ConnId)
    requires IsRun(run) && i < |run| && id < |run[i].conns|
    ensures PayloadsFit(run[i].conns[id].wire, run[i].cfg)
  {
    hide StepEnabled, Apply, ConnNext, PayloadsFit, Inv;
    assert i > 0;
    assert Next(run[i - 1], run[i - 1 + 1]);
    var step :| StepEnabled(run[i - 1], step) && run[i] == Apply(run[i - 1], step);
    LogRefinement.StepKeepsConfig(run[i - 1], step);
    if id < |run[i - 1].conns| {
      RunPayloadsFit(run, i - 1, id);
      RunInv(run, i - 1);
      StepConn(run[i - 1], step, id);
      ConnNextFits(run[i - 1], run[i - 1].conns[id], run[i].conns[id]);
    } else {
      ArrivalsFit(run[i - 1], step, id);
    }
  }

  lemma {:induction false} ReceivedFit(wire: seq<Frame>, cfg: Config, k: nat)
    requires PayloadsFit(wire, cfg) && k < |WireItems(wire)|
    ensures FrameFits(cfg, WireItems(wire)[k].event)
  {
    var n := |wire| - 1;
    if k < |WireItems(wire[..n])| {
      ReceivedFit(wire[..n], cfg, k);
    }
  }

  // ----- A thread that reaches one ends without a word -----

  /** The thread is about to write an event that does not fit a frame. */
  predicate Stuck(c: Conn, cfg: Config) {
    || (c.pc.Backfilling? && c.pc.next < |c.backfill| && !FrameFits(cfg, c.backfill[c.pc.next].event))
    || (c.pc.Writing? && c.pc.event.Live? && !FrameFits(cfg, c.pc.event.item.event))
  }

  /** It is still there, or it has gone; either way it has written nothing more. */
  predicate StillOrGone(c: Conn, c': Conn) {
    c'.wire == c.wire && ((c'.pc == c.pc && c'.backfill == c.backfill) || (Ended(c'.pc) && c'.parted))
  }

  lemma StuckAct(cfg: Config, c: Conn, a: Local)
    requires Enabled(c, a) && WriteFits(cfg, c, a) && Stuck(c, cfg)
    ensures StillOrGone(c, Act(c, a))
  {
    hide FrameFits;
  }

  lemma StuckNext(s: State, c: Conn, c': Conn)
    requires ConnNext(s, c, c') && Stuck(c, s.cfg)
    ensures StillOrGone(c, c')
  {
    hide Act, Enabled, WriteFits, Range, TailItems, OfferAccess, SignalAccess, FrameFits;
    if a :| Enabled(c, a) && WriteFits(s.cfg, c, a) && c' == Act(c, a) {
      hide Stuck;
      StuckAct(s.cfg, c, a);
    }
  }

  /**
   * A connection that reaches an event too large for a frame ends there: it
   * writes nothing more, no control frame either, and once it moves on it has
   * given up on its peer.
   */
  lemma {:induction false} OversizeEndsSilently(run: seq<State>, i: nat, j: nat, id: ConnId)
    requires IsRun(run) && i <= j < |run| && id < |run[i].conns| && Stuck(run[i].conns[id], run[i].cfg)
    ensures id < |run[j].conns| && run[j].cfg == run[i].cfg && StillOrGone(run[i].conns[id], run[j].conns[id])
    ensures AllEvents(run[j].conns[id].wire)
  {
    hide StepEnabled, Apply, Init, ConnNext, Inv, FrameFits, AllEvents;
    if i == j {
      OnlyEventsYet(run, i, id);
    } else {
      OversizeEndsSilently(run, i, j - 1, id);
      assert Next(run[j - 1], run[j - 1 + 1]);
      var step :| StepEnabled(run[j - 1], step) && run[j] == Apply(run[j - 1], step);
      LogRefinement.StepKeepsConfig(run[j - 1], step);
      RunAdvances(run, j - 1, j, id);
      if !Ended(run[j - 1].conns[id].pc) {
        RunInv(run, j - 1);
        StepConn(run[j - 1], step, id);
        StuckNext(run[j - 1], run[j - 1].conns[id], run[j].conns[id]);
      }
    }
  }

  lemma OnlyEventsYet(run: seq<State>, i: nat, id: ConnId)
    requires IsRun(run) && i < |run| && id < |run[i].conns| && !Ended(run[i].conns[id].pc)
    ensures AllEvents(run[i].conns[id].wire)
  {
    hide IsRun, QueueInv, MarkInv, Balanced, Staged, StreamShape, AllEvents, FreshInv, PlaceInv, CaughtUp, CoreInv;
    ConnOfRun(run, i, id);
  }

  // ----- And meets it again -----

  /** No unbroken connection gets past an event too large for a frame. */
  lemma OversizeBlocks(run: seq<State>, i: nat, id: ConnId, p: nat)
    requires IsRun(run) && i < |run| && id < |run[i].conns|
    requires Admitted(run[i].conns[id]) && Unbroken(run[i].conns[id])
    requires Start(run[i].conns[id]) <= p < |run[i].hist| && !FrameFits(run[i].cfg, run[i].hist[p])
    ensures Start(run[i].conns[id]) + |Received(run[i].conns[id])| <= p
  {
    hide IsRun, Start, WireItems, Boundary, PayloadsFit, FrameFits, Unbroken;
    var c, cfg := run[i].conns[id], run[i].cfg;
    ExactlyOnce(run, i, id);
    RunPayloadsFit(run, i, id);
    forall k | 0 <= k < |Received(c)| ensures FrameFits(cfg, Received(c)[k]) {
      ReceivedFit(c.wire, cfg, k);
    }
    SliceEndsBefore(run[i].hist, Start(c), Received(c), cfg, p);
  }

  lemma SliceEndsBefore(hist: seq<CachedEvent>, from: nat, r: seq<CachedEvent>, cfg: Config, p: nat)
    requires from + |r| <= |hist| && r == hist[from..from + |r|] && from <= p < |hist|
    requires (forall k :: 0 <= k < |r| ==> FrameFits(cfg, r[k])) && !FrameFits(cfg, hist[p])
    ensures from + |r| <= p
  {
    hide FrameFits;
    assert forall q :: from <= q < from + |r| ==> hist[q] == r[q - from];
  }

  /**
   * The documentation lets a caller skip such an event (frame.rs:254-257). The
   * server does not: a client that resumes from before it, with a resume point
   * the server can honour, again gets nothing from that event on.
   */
  lemma ResumeMeetsOversizeAgain(run: seq<State>, i: nat, id: ConnId, p: nat)
    requires IsRun(run) && i < |run| && id < |run[i].conns|
    requires Admitted(run[i].conns[id]) && Unbroken(run[i].conns[id])
    requires 0 < run[i].conns[id].resumeFrom && ResumesFromPast(run[i].conns[id], run[i].hist)
    requires p < |run[i].hist| && run[i].conns[id].resumeFrom < run[i].hist[p].seqNo
    requires !FrameFits(run[i].cfg, run[i].hist[p])
    ensures Start(run[i].conns[id]) <= p && Start(run[i].conns[id]) + |Received(run[i].conns[id])| <= p
  {
    hide IsRun, Start, Received, Boundary, FrameFits, Unbroken, ResumesFromPast;
    StartOfRun(run, i, id);
    OversizeBlocks(run, i, id, p);
  }
}
