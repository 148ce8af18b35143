/** Registrations that outlive their thread (canon-event-subscribe, server.rs:834-837). */
module RegistryLeak {
  import opened EventCaches
  import opened Subscription
  import opened Connections
  import opened ConnectionInvariant
  import opened Pipeline
  import opened PipelineInvariant
  import opened PipelineSteps
  import opened PipelineRuns
  import Tailing

  /** Between `k` and `k + 1` the write of the truncation notice failed and the thread returned early. */
  predicate NoticeFailed(run: seq<State>, k: nat, id: ConnId) {
    && k + 1 < |run| && id < |run[k].conns| && id < |run[k + 1].conns|
    && run[k].conns[id].pc.Refusing? && run[k + 1].conns[id].pc.Finished?
  }

  // ----- One step -----

  /** A finished thread's registration is neither made nor undone. */
  lemma FinishedStays(s: State, step: Step, id: ConnId)
    requires StepEnabled(s, step) && id < |s.conns| && s.conns[id].pc.Finished?
    ensures id in Apply(s, step).registry <==> id in s.registry
  {
    hide ExtApply, ExtEnabled, MainApply, MainEnabled, Act, Enabled, RangeResult, Joined, Left, Remove;
    match step
    case Ext(e) => ExtKeepsRegistry(s, e);
    case Run(m) => MainKeepsRegistry(s, m);
    case Unregister(other) => RemoveKeeps(s.registry, other);
    case _ =>
  }

  lemma ExtKeepsRegistry(s: State, e: ExtAction)
    requires ExtEnabled(s, e)
    ensures ExtApply(s, e).registry == s.registry
  {
    hide Tailing.Poll, Offered, OfferAccess, Signalled, Waiting, Push;
  }

  lemma MainKeepsRegistry(s: State, m: MainAction)
    requires MainEnabled(s, m)
    ensures MainApply(s, m).registry == s.registry
  {
    hide Signalled, Waiting;
  }

  /** Of all the ways to finish, only the failed notice leaves the registration behind. */
  lemma FinishingLeaks(s: State, step: Step, id: ConnId)
    requires Inv(s) && StepEnabled(s, step) && id < |Apply(s, step).conns| && Apply(s, step).conns[id].pc.Finished?
    requires id < |s.conns| ==> !s.conns[id].pc.Finished?
    ensures id in Apply(s, step).registry <==> id < |s.conns| && s.conns[id].pc.Refusing?
  {
    hide CoreInv, ConnInv;
    if id < |s.conns| {
      FinishingStep(s, step, id);
      match step
      case Thread(_, a) => ListedIffJoined(s, id);
      case Unregister(_) => RemoveKeeps(s.registry, id);
    } else {
      ArrivalStep(s, step, id);
      MainKeepsRegistry(s, step.m);
      NotYetListed(s, id);
    }
  }

  /** A participating thread is registered, one that has not joined is not. */
  lemma ListedIffJoined(s: State, id: ConnId)
    requires RegistryInv(s) && id < |s.conns|
    ensures Participating(s.conns[id]) ==> id in s.registry
    ensures Unjoined(s.conns[id].pc) ==> id !in s.registry
  {
    if Unjoined(s.conns[id].pc) {
      NotListed(s.conns, s.registry, id);
    }
  }

  lemma NotYetListed(s: State, id: ConnId)
    requires RegistryInv(s) && id >= |s.conns|
    ensures id !in s.registry
  {}

  /** The extractor and the accept loop move no thread. */
  lemma ExtMovesNobody(s: State, e: ExtAction, id: ConnId)
    requires ExtEnabled(s, e) && id < |s.conns|
    ensures id < |ExtApply(s, e).conns| && ExtApply(s, e).conns[id].pc == s.conns[id].pc
  {
    hide Tailing.Poll, OfferAccess, SignalAccess, Waiting, Push;
  }

  lemma MainMovesNobody(s: State, m: MainAction, id: ConnId)
    requires MainEnabled(s, m) && id < |s.conns|
    ensures id < |MainApply(s, m).conns| && MainApply(s, m).conns[id].pc == s.conns[id].pc
  {
    hide SignalAccess, Waiting;
  }

  lemma ActFinishes(c: Conn, a: Local)
    requires Enabled(c, a) && !c.pc.Finished? && Act(c, a).pc.Finished?
    ensures Unjoined(c.pc) || c.pc.Refusing?
  {}

  /** A thread finishes by an action of its own or by unregistering. */
  lemma FinishingStep(s: State, step: Step, id: ConnId)
    requires StepEnabled(s, step) && id < |s.conns| && !s.conns[id].pc.Finished?
    requires id < |Apply(s, step).conns| && Apply(s, step).conns[id].pc.Finished?
    ensures step == Unregister(id) || (step.Thread? && step.id == id)
    ensures step.Thread? ==> Unjoined(s.conns[id].pc) || s.conns[id].pc.Refusing?
  {
    hide ExtApply, ExtEnabled, MainApply, MainEnabled, Act, Enabled, WriteFits, Range, TailItems, Remove;
    match step
    case Ext(e) => ExtMovesNobody(s, e, id);
    case Run(m) => MainMovesNobody(s, m, id);
    case Thread(_, a) => if step.id == id { ActFinishes(s.conns[id], a); }
    case _ =>
  }

  lemma ArrivalStep(s: State, step: Step, id: ConnId)
    requires StepEnabled(s, step) && |s.conns| <= id < |Apply(s, step).conns|
    ensures step.Run?
  {
    hide Tailing.Poll, Offered, OfferAccess, Signalled, Waiting, Push, Act, Enabled, RangeResult, Joined, Left, Remove;
  }

  // ----- Whole runs -----

  /**
   * A finished thread is still in the registry, counting against the subscriber
   * cap, if and only if the write of its truncation notice failed.
   */
  lemma {:induction false} LeakedIffNoticeFailed(run: seq<State>, i: nat, id: ConnId)
    requires IsRun(run) && i < |run| && id < |run[i].conns| && run[i].conns[id].pc.Finished?
    ensures id in run[i].registry <==> exists k :: 0 <= k < i && NoticeFailed(run, k, id)
  {
    hide StepEnabled, Apply, Inv;
    assert i > 0;
    assert Next(run[i - 1], run[i - 1 + 1]);
    var step :| StepEnabled(run[i - 1], step) && run[i] == Apply(run[i - 1], step);
    RunInv(run, i - 1);
    if id < |run[i - 1].conns| && run[i - 1].conns[id].pc.Finished? {
      LeakedIffNoticeFailed(run, i - 1, id);
      FinishedStays(run[i - 1], step, id);
    } else {
      FinishingLeaks(run[i - 1], step, id);
      assert id in run[i].registry ==> NoticeFailed(run, i - 1, id);
      NotFinishedBefore(run, i - 1, id);
    }
  }

  /** Nobody finishes twice. */
  lemma NotFinishedBefore(run: seq<State>, i: nat, id: ConnId)
    requires IsRun(run) && i < |run| && (id < |run[i].conns| ==> !run[i].conns[id].pc.Finished?)
    ensures forall k :: 0 <= k < i ==> !NoticeFailed(run, k, id)
  {
    hide IsRun, Advances;
    forall k | 0 <= k < i ensures !NoticeFailed(run, k, id) {
      if id < |run[k + 1].conns| && run[k + 1].conns[id].pc.Finished? {
        RunAdvances(run, k + 1, i, id);
        FinishedForGood(run[k + 1].conns[id], run[i].conns[id]);
      }
    }
  }

  lemma FinishedForGood(c: Conn, c': Conn)
    requires Advances(c, c') && c.pc.Finished?
    ensures c'.pc.Finished?
  {}
}
