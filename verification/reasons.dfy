/** Why a connection is refused (canon-event-subscribe, server.rs: handle_connection). */
module Reasons {
  import opened Events
  import opened EventCaches
  import opened Subscription
  import opened Connections
  import opened ConnectionInvariant
  import opened Pipeline
  import opened PipelineInvariant
  import opened PipelineSteps
  import opened PipelineRuns
  import LogRefinement
  import RegistryLeak
  import Tailing

  // ----- Truncation -----

  /** The history at that moment, with the lock free, does not cover the resume point and determines this one. */
  ghost predicate RefusedAt(s: State, from: nat, point: nat) {
    !LockHeld(s) && PointsTo(s.hist, s.cfg.capacity, from, point)
  }

  /** The thread is about to report this point, or has. */
  ghost predicate Reports(c: Conn, point: nat) {
    c.pc == Refusing(point) || TruncatedFrame(point) in c.wire
  }

  lemma ActReports(c: Conn, a: Local, point: nat)
    requires Enabled(c, a) && Reports(Act(c, a), point) && (Unjoined(c.pc) ==> c.wire == [])
    ensures Reports(c, point) && Act(c, a).resumeFrom == c.resumeFrom
  {
    hide SignalAccess;
  }

  /** A report is passed on, or is the cache's answer. */
  lemma NextReports(s: State, c: Conn, c': Conn, point: nat)
    requires ConnNext(s, c, c') && Reports(c', point) && (Unjoined(c.pc) ==> c.wire == [])
    ensures c'.resumeFrom == c.resumeFrom
    ensures Reports(c, point) || (!LockHeld(s) && Range(s.cache, c.resumeFrom) == OutOfWindow(point))
  {
    hide Act, Enabled, WriteFits, Range, TailItems, OfferAccess, SignalAccess;
    if a :| Enabled(c, a) && c' == Act(c, a) {
      ActReports(c, a, point);
    }
  }

  lemma ArrivalsReportNothing(s: State, step: Step, id: ConnId, point: nat)
    requires StepEnabled(s, step) && |s.conns| <= id < |Apply(s, step).conns|
    ensures !Reports(Apply(s, step).conns[id], point)
  {
    hide Tailing.Poll, Offered, OfferAccess, Signalled, Waiting, Push, Act, Enabled, RangeResult, Joined, Left, Remove;
  }

  lemma BeforeWriting(s: State, id: ConnId)
    requires Inv(s) && id < |s.conns| && Unjoined(s.conns[id].pc)
    ensures s.conns[id].wire == []
  {
    hide CoreInv, RegistryInv;
    assert ConnOk(s, id);
  }

  lemma {:induction false} ReportOf(run: seq<State>, i: nat, id: ConnId, point: nat) returns (j: nat)
    requires IsRun(run) && i < |run| && id < |run[i].conns| && Reports(run[i].conns[id], point)
    ensures j < i && RefusedAt(run[j], run[i].conns[id].resumeFrom, point)
  {
    hide StepEnabled, Apply, ConnNext, Reports, Inv, RefusedAt, CacheOf, Range, PointsTo, Uncovered;
    assert i > 0;
    assert Next(run[i - 1], run[i - 1 + 1]);
    var step :| StepEnabled(run[i - 1], step) && run[i] == Apply(run[i - 1], step);
    if id < |run[i - 1].conns| {
      var s, c := run[i - 1], run[i - 1].conns[id];
      RunInv(run, i - 1);
      StepConn(s, step, id);
      if Unjoined(c.pc) {
        BeforeWriting(s, id);
      }
      NextReports(s, c, run[i].conns[id], point);
      if Reports(c, point) {
        j := ReportOf(run, i - 1, id, point);
      } else {
        j := i - 1;
        RefusalFixed(run, j, c.resumeFrom, point);
      }
    } else {
      ArrivalsReportNothing(run[i - 1], step, id, point);
      assert false;
    }
  }

  lemma RefusalFixed(run: seq<State>, j: nat, from: nat, point: nat)
    requires IsRun(run) && j < |run| && !LockHeld(run[j]) && Range(run[j].cache, from) == OutOfWindow(point)
    ensures RefusedAt(run[j], from, point)
  {
    hide Range, CacheOf, PointsTo, Uncovered, Inv;
    CacheOfRun(run, j);
    TruncationFixed(run[j].hist, run[j].cfg.capacity, from);
  }

  lemma CacheOfRun(run: seq<State>, j: nat)
    requires IsRun(run) && j < |run|
    ensures run[j].cfg.capacity >= 1 && Ordered(run[j].hist)
    ensures run[j].cache == CacheOf(run[j].hist, run[j].cfg.capacity)
  {
    hide IsRun, CacheOf, Ordered, ConnInv, RegistryInv;
    RunInv(run, j);
  }

  /**
   * A truncation notice tells the truth: at an earlier moment with the lock free
   * the history did not cover the resume point, the number in the notice is the
   * one the history determined then, it lies past the resume point, and the cache
   * would have accepted it.
   */
  lemma TruncationsAreTrue(run: seq<State>, i: nat, id: ConnId, point: nat) returns (j: nat)
    requires IsRun(run) && i < |run| && id < |run[i].conns| && TruncatedFrame(point) in run[i].conns[id].wire
    ensures var from := run[i].conns[id].resumeFrom;
            && j < i && RefusedAt(run[j], from, point)
            && from < point && !Accepts(run[j].cache, from) && Accepts(run[j].cache, point)
  {
    hide IsRun, CacheOf, Ordered, Range, PartialFront, Accepts;
    j := ReportOf(run, i, id, point);
    var from := run[i].conns[id].resumeFrom;
    CacheOfRun(run, j);
    TruncationFixed(run[j].hist, run[j].cfg.capacity, from);
    UncoveredIsSmall(run[j].hist, run[j].cfg.capacity, from);
    AdvertisedPoint(run[j].hist, run[j].cfg.capacity, from);
    NotAccepted(run[j].cache, from);
  }

  lemma UncoveredIsSmall(h: seq<CachedEvent>, capacity: nat, from: nat)
    requires Ordered(h) && Uncovered(h, capacity, from)
    ensures from <= U64_MAX
  {}

  lemma NotAccepted(c: Cache, from: nat)
    ensures Range(c, from).OutOfWindow? <==> !Accepts(c, from)
  {}

  /** Refused with this point: still about to say so, or ended having said exactly that, or having lost the peer. */
  predicate Dismissed(c: Conn, point: nat) {
    || (c.pc == Refusing(point) && c.wire == [])
    || (Ended(c.pc) && (c.wire == [TruncatedFrame(point)] || (c.wire == [] && c.parted)))
  }

  lemma ActDismissed(c: Conn, a: Local, point: nat)
    requires Enabled(c, a) && Dismissed(c, point)
    ensures Dismissed(Act(c, a), point)
  {
    assert [] + [TruncatedFrame(point)] == [TruncatedFrame(point)];
  }

  lemma NextDismissed(s: State, c: Conn, c': Conn, point: nat)
    requires ConnNext(s, c, c') && Dismissed(c, point)
    ensures Dismissed(c', point)
  {
    hide Act, Enabled, WriteFits, Range, TailItems, OfferAccess, SignalAccess;
    if a :| Enabled(c, a) && c' == Act(c, a) {
      ActDismissed(c, a, point);
    }
  }

  /** A connection the cache refuses is told the point, and nothing else, before it ends or its peer is lost. */
  lemma {:induction false} RefusedIsTold(run: seq<State>, i: nat, j: nat, id: ConnId, point: nat)
    requires IsRun(run) && i <= j < |run| && id < |run[i].conns| && run[i].conns[id].pc == Refusing(point)
    ensures id < |run[j].conns| && Dismissed(run[j].conns[id], point)
  {
    hide StepEnabled, Apply, Init, ConnNext, Inv, Dismissed;
    if i == j {
      NothingYet(run, i, id, point);
    } else {
      RefusedIsTold(run, i, j - 1, id, point);
      assert Next(run[j - 1], run[j - 1 + 1]);
      var step :| StepEnabled(run[j - 1], step) && run[j] == Apply(run[j - 1], step);
      RunInv(run, j - 1);
      StepConn(run[j - 1], step, id);
      NextDismissed(run[j - 1], run[j - 1].conns[id], run[j].conns[id], point);
    }
  }

  lemma NothingYet(run: seq<State>, i: nat, id: ConnId, point: nat)
    requires IsRun(run) && i < |run| && id < |run[i].conns| && run[i].conns[id].pc == Refusing(point)
    ensures Dismissed(run[i].conns[id], point)
  {
    hide IsRun, CoreInv, RegistryInv;
    RunInv(run, i);
    assert ConnOk(run[i], id);
  }

  // ----- Other refusals -----

  /** What justifies telling a connection that never joined that it is refused. */
  ghost predicate Turned(s: State, id: ConnId, f: Frame) {
    match f
    case InvalidRequestFrame => id < |s.conns| && s.conns[id].pc.Handshaking?
    case LagExceededFrame(n) =>
      && n == 0
      && if id < |s.conns| then s.conns[id].pc.Registering? && 0 < s.cfg.maxSubscribers <= |s.registry|
         else s.main.Accepting?
    case _ => false
  }

  /** A frame for a connection that was not admitted, other than a truncation or shutdown notice. */
  predicate Refusal(c: Conn, f: Frame) {
    f in c.wire && (f.InvalidRequestFrame? || (f.LagExceededFrame? && c.ranged.None?))
  }

  lemma ActRefusal(c: Conn, a: Local, f: Frame)
    requires Enabled(c, a) && FreshInv(c) && Refusal(Act(c, a), f)
    ensures Refusal(c, f) || (f.InvalidRequestFrame? && c.pc.Handshaking?)
         || (f == LagExceededFrame(0) && a.RefuseAtCapacity? && c.pc.Registering?)
  {
    hide SignalAccess, RequestFits;
  }

  lemma NextRefusal(s: State, id: ConnId, c': Conn, f: Frame)
    requires id < |s.conns| && ConnNext(s, s.conns[id], c') && FreshInv(s.conns[id]) && Refusal(c', f)
    ensures Refusal(s.conns[id], f) || Turned(s, id, f)
  {
    hide Act, Enabled, WriteFits, Range, TailItems, OfferAccess, SignalAccess, FreshInv;
    var c := s.conns[id];
    if a :| Enabled(c, a) && (a.RefuseAtCapacity? ==> CapReached(s)) && c' == Act(c, a) {
      ActRefusal(c, a, f);
    }
  }

  lemma ArrivalRefusal(s: State, step: Step, id: ConnId, f: Frame)
    requires StepEnabled(s, step) && |s.conns| <= id < |Apply(s, step).conns| && Refusal(Apply(s, step).conns[id], f)
    ensures Turned(s, id, f)
  {
    hide Tailing.Poll, Offered, OfferAccess, Signalled, Waiting, Push, Act, Enabled, RangeResult, Joined, Left, Remove;
  }

  /**
   * The other refusals tell the truth too: an invalid-request notice answers a
   * handshake, and a connection that was never admitted is told that it lags
   * only when there was no slot for it, or when the registry was at its cap.
   */
  lemma {:induction false} RefusalsAreTrue(run: seq<State>, i: nat, id: ConnId, f: Frame) returns (j: nat)
    requires IsRun(run) && i < |run| && id < |run[i].conns| && Refusal(run[i].conns[id], f)
    ensures j < i && Turned(run[j], id, f)
  {
    hide StepEnabled, Apply, ConnNext, Refusal, Turned, LocalInv, FreshInv, CoreInv, RegistryInv;
    assert i > 0;
    assert Next(run[i - 1], run[i - 1 + 1]);
    var step :| StepEnabled(run[i - 1], step) && run[i] == Apply(run[i - 1], step);
    if id < |run[i - 1].conns| {
      RunInv(run, i - 1);
      assert ConnOk(run[i - 1], id);
      StepConn(run[i - 1], step, id);
      NextRefusal(run[i - 1], id, run[i].conns[id], f);
      if Refusal(run[i - 1].conns[id], f) {
        j := RefusalsAreTrue(run, i - 1, id, f);
      } else {
        j := i - 1;
      }
    } else {
      ArrivalRefusal(run[i - 1], step, id, f);
      j := i - 1;
    }
  }

  // ----- What a step settles for good -----

  lemma ActKeepsResume(c: Conn, a: Local)
    requires Enabled(c, a) && !c.pc.Handshaking?
    ensures Act(c, a).resumeFrom == c.resumeFrom && !Act(c, a).pc.Handshaking?
  {
    hide SignalAccess;
  }

  lemma NextKeepsResume(s: State, c: Conn, c': Conn)
    requires ConnNext(s, c, c') && !c.pc.Handshaking?
    ensures c'.resumeFrom == c.resumeFrom && !c'.pc.Handshaking?
  {
    hide Act, Enabled, WriteFits, Range, TailItems, OfferAccess, SignalAccess;
    if a :| Enabled(c, a) && c' == Act(c, a) {
      ActKeepsResume(c, a);
    }
  }

  lemma HandshakeTaken(s: State, id: ConnId, r: nat)
    requires StepEnabled(s, Thread(id, AcceptHandshake(r)))
    ensures var s' := Apply(s, Thread(id, AcceptHandshake(r)));
            id < |s'.conns| && s'.conns[id].resumeFrom == r && !s'.conns[id].pc.Handshaking?
  {}

  /** The resume point of a connection is the one its handshake carried, for the rest of the run. */
  lemma {:induction false} ResumePointIsAsked(run: seq<State>, i: nat, j: nat, id: ConnId, r: nat)
    requires IsRun(run) && i < j < |run| && StepEnabled(run[i], Thread(id, AcceptHandshake(r)))
    requires run[i + 1] == Apply(run[i], Thread(id, AcceptHandshake(r)))
    ensures id < |run[j].conns| && run[j].conns[id].resumeFrom == r && !run[j].conns[id].pc.Handshaking?
  {
    hide StepEnabled, Apply, Init, ConnNext, Inv;
    if j == i + 1 {
      HandshakeTaken(run[i], id, r);
    } else {
      ResumePointIsAsked(run, i, j - 1, id, r);
      assert Next(run[j - 1], run[j - 1 + 1]);
      var step :| StepEnabled(run[j - 1], step) && run[j] == Apply(run[j - 1], step);
      RunInv(run, j - 1);
      StepConn(run[j - 1], step, id);
      NextKeepsResume(run[j - 1], run[j - 1].conns[id], run[j].conns[id]);
    }
  }

  /** The action finds the peer gone, or fails to write to it. */
  predicate LosesPeer(a: Local) {
    match a
    case Probe(connected) => !connected
    case WriteBackfill(ok) => !ok
    case WriteNext(ok) => !ok
    case WriteTruncated(ok) => !ok
    case RejectHandshake(ok) => !ok
    case RefuseAtCapacity(ok) => !ok
    case _ => false
  }

  lemma LosingEnds(c: Conn, a: Local)
    requires Enabled(c, a) && LosesPeer(a)
    ensures Ended(Act(c, a).pc) && Act(c, a).parted && Act(c, a).wire == c.wire
    ensures a.Probe? || a.WriteBackfill? || (a.WriteNext? && c.pc.event.Live?) ==> Act(c, a).sub.disconnected
  {}

  /**
   * A thread that finds its peer gone, or cannot write to it, writes nothing
   * more; if it was serving events it is marked disconnected.
   */
  lemma LostPeerIsFinal(run: seq<State>, i: nat, j: nat, id: ConnId, a: Local)
    requires IsRun(run) && i < j < |run| && StepEnabled(run[i], Thread(id, a)) && LosesPeer(a)
    requires run[i + 1] == Apply(run[i], Thread(id, a))
    ensures id < |run[j].conns| && Ended(run[j].conns[id].pc) && run[j].conns[id].parted
    ensures run[j].conns[id].wire == run[i].conns[id].wire
    ensures a.Probe? || a.WriteBackfill? || (a.WriteNext? && run[i].conns[id].pc.event.Live?) ==>
              run[j].conns[id].sub.disconnected
  {
    hide IsRun, Act, WriteFits;
    LosingEnds(run[i].conns[id], a);
    RunAdvances(run, i + 1, j, id);
  }

  /** Some write of the action fails, or its probe finds the peer gone. */
  predicate Fails(a: Local) {
    match a
    case CheckShutdown(ok) => !ok
    case CheckDisconnected(ok) => !ok
    case _ => LosesPeer(a)
  }

  lemma ActParts(c: Conn, a: Local)
    requires Enabled(c, a) && Act(c, a).parted
    ensures c.parted || Fails(a)
  {
    hide SignalAccess;
  }

  lemma ExtPartsNobody(s: State, e: ExtAction, id: ConnId)
    requires ExtEnabled(s, e) && id < |s.conns|
    ensures id < |ExtApply(s, e).conns| && ExtApply(s, e).conns[id].parted == s.conns[id].parted
  {
    hide Tailing.Poll, OfferAccess, SignalAccess, Waiting, Push;
  }

  lemma MainPartsNobody(s: State, m: MainAction, id: ConnId)
    requires MainEnabled(s, m) && id < |s.conns|
    ensures id < |MainApply(s, m).conns| && MainApply(s, m).conns[id].parted == s.conns[id].parted
  {
    hide SignalAccess, Waiting;
  }

  lemma StepParts(s: State, step: Step, id: ConnId)
    requires StepEnabled(s, step) && id < |s.conns| && id < |Apply(s, step).conns| && Apply(s, step).conns[id].parted
    ensures s.conns[id].parted || (step.Thread? && step.id == id && Fails(step.a))
  {
    hide ExtApply, ExtEnabled, MainApply, MainEnabled, Act, Enabled, WriteFits, Range, TailItems, Remove, Fails;
    match step
    case Ext(e) => ExtPartsNobody(s, e, id);
    case Run(m) => MainPartsNobody(s, m, id);
    case Thread(_, a) => if step.id == id { ActParts(s.conns[id], a); }
    case _ =>
  }

  /**
   * A thread gives up on its peer only for cause: a step of its own in which a
   * write failed or the peer was found gone, unless it was turned away on
   * arrival. With `Notices.NoSilentEnd` this accounts for every end.
   */
  lemma {:induction false} PartedForCause(run: seq<State>, i: nat, id: ConnId) returns (j: nat)
    requires IsRun(run) && i < |run| && id < |run[i].conns| && run[i].conns[id].parted
    ensures j < i
    ensures || |run[j].conns| <= id
            || exists a :: && StepEnabled(run[j], Thread(id, a)) && run[j + 1] == Apply(run[j], Thread(id, a))
                           && Fails(a)
  {
    hide StepEnabled, Apply, Fails;
    assert i > 0;
    assert Next(run[i - 1], run[i - 1 + 1]);
    var step :| StepEnabled(run[i - 1], step) && run[i] == Apply(run[i - 1], step);
    j := i - 1;
    if id < |run[i - 1].conns| {
      StepParts(run[i - 1], step, id);
      if run[i - 1].conns[id].parted {
        j := PartedForCause(run, i - 1, id);
      } else {
        assert step == Thread(id, step.a);
      }
    }
  }

  // ----- The receiving end -----

  lemma ActReceiver(c: Conn, a: Local)
    requires Enabled(c, a) && (c.sub.receiverOpen <==> !c.pc.Finished?)
    ensures Act(c, a).sub.receiverOpen <==> !Act(c, a).pc.Finished?
  {}

  lemma NextReceiver(s: State, c: Conn, c': Conn)
    requires ConnNext(s, c, c') && (c.sub.receiverOpen <==> !c.pc.Finished?)
    ensures c'.sub.receiverOpen <==> !c'.pc.Finished?
  {
    hide Act, Enabled, WriteFits, Range, TailItems;
    if a :| Enabled(c, a) && c' == Act(c, a) {
      ActReceiver(c, a);
    }
  }

  lemma ArrivalReceiver(s: State, step: Step, id: ConnId)
    requires StepEnabled(s, step) && |s.conns| <= id < |Apply(s, step).conns|
    ensures var c := Apply(s, step).conns[id]; c.sub.receiverOpen <==> !c.pc.Finished?
  {
    hide Tailing.Poll, Offered, OfferAccess, Signalled, Waiting, Push, Act, Enabled, RangeResult, Joined, Left, Remove;
  }

  /** In every run the receiving end of a queue is dropped exactly when its thread has finished. */
  lemma {:induction false} ReceiverDropped(run: seq<State>, i: nat, id: ConnId)
    requires IsRun(run) && i < |run| && id < |run[i].conns|
    ensures run[i].conns[id].sub.receiverOpen <==> !run[i].conns[id].pc.Finished?
  {
    hide StepEnabled, Apply, ConnNext, Inv;
    assert i > 0;
    assert Next(run[i - 1], run[i - 1 + 1]);
    var step :| StepEnabled(run[i - 1], step) && run[i] == Apply(run[i - 1], step);
    if id < |run[i - 1].conns| {
      ReceiverDropped(run, i - 1, id);
      RunInv(run, i - 1);
      StepConn(run[i - 1], step, id);
      NextReceiver(run[i - 1], run[i - 1].conns[id], run[i].conns[id]);
    } else {
      ArrivalReceiver(run[i - 1], step, id);
    }
  }

  // ----- The subscriber cap -----

  lemma {:induction false} RemoveShrinks(ids: seq<ConnId>, id: ConnId)
    ensures |Remove(ids, id)| <= |ids|
  {
    if ids != [] {
      RemoveShrinks(ids[..|ids| - 1], id);
    }
  }

  lemma StepKeepsCap(s: State, step: Step)
    requires StepEnabled(s, step) && (s.cfg.maxSubscribers != 0 ==> |s.registry| <= s.cfg.maxSubscribers)
    ensures var s' := Apply(s, step); s.cfg.maxSubscribers != 0 ==> |s'.registry| <= s.cfg.maxSubscribers
  {
    hide ExtApply, ExtEnabled, MainApply, MainEnabled, Act, Enabled, WriteFits, RangeResult, Joined, Left, Remove;
    match step
    case Ext(e) => RegistryLeak.ExtKeepsRegistry(s, e);
    case Run(m) => RegistryLeak.MainKeepsRegistry(s, m);
    case Unregister(id) => RemoveShrinks(s.registry, id);
    case _ =>
  }

  /** In every run the registry stays within a non-zero cap. */
  lemma {:induction false} RegistryWithinCap(run: seq<State>, i: nat)
    requires IsRun(run) && i < |run| && run[0].cfg.maxSubscribers != 0
    ensures run[i].cfg == run[0].cfg && |run[i].registry| <= run[0].cfg.maxSubscribers
  {
    hide StepEnabled, Apply;
    if i > 0 {
      RegistryWithinCap(run, i - 1);
      assert Next(run[i - 1], run[i - 1 + 1]);
      var step :| StepEnabled(run[i - 1], step) && run[i] == Apply(run[i - 1], step);
      LogRefinement.StepKeepsConfig(run[i - 1], step);
      StepKeepsCap(run[i - 1], step);
    }
  }
}
