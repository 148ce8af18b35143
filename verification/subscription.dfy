/** Per-subscriber queue and lag policy, and the registry (canon-event-subscribe, subscription.rs). */
module Subscription {
  import opened Events

  const HARD_MAX_SEND_QUEUE_DEPTH: nat := 65_536
  const HARD_MAX_SUBSCRIBER_LAG: nat := 1_000_000

  datatype Delivery<+T> = Live(item: T) | Shutdown

  datatype EnqueueOutcome = Enqueued | Lagging(lag: nat) | LagExceeded | Disconnected

  /**
   * A subscriber as a value. The item type is a parameter: the mutable class
   * below queues events, the pipeline model queues events with the history
   * position they came from.
   */
  datatype Sub<+T> = Sub(
    queue: seq<Delivery<T>>,
    depth: nat,
    maxLag: nat,
    lag: nat,
    lastDelivered: nat,
    disconnected: bool,
    shutdownRequested: bool,
    receiverOpen: bool)

  function ClampDepth(queueDepth: nat): nat {
    if queueDepth < 1 then 1
    else if queueDepth > HARD_MAX_SEND_QUEUE_DEPTH then HARD_MAX_SEND_QUEUE_DEPTH
    else queueDepth
  }

  function ClampLag(maxLag: nat): nat {
    if maxLag > HARD_MAX_SUBSCRIBER_LAG then HARD_MAX_SUBSCRIBER_LAG else maxLag
  }

  function NewSub<T>(queueDepth: nat, maxLag: nat): Sub<T> {
    Sub([], ClampDepth(queueDepth), ClampLag(maxLag), 0, 0, false, false, true)
  }

  function TryEnqueue<T>(s: Sub<T>, item: T): (Sub<T>, EnqueueOutcome) {
    if s.disconnected then (s, Disconnected)
    else if !s.receiverOpen then (s.(disconnected := true), Disconnected)
    else if |s.queue| < s.depth then (s.(queue := s.queue + [Live(item)], lag := 0), Enqueued)
    else if s.lag + 1 > s.maxLag then (s.(lag := s.lag + 1, disconnected := true), LagExceeded)
    else (s.(lag := s.lag + 1), Lagging(s.lag + 1))
  }

  function RequestShutdown<T>(s: Sub<T>): (Sub<T>, EnqueueOutcome) {
    if s.disconnected then (s, Disconnected)
    else
      var f := s.(shutdownRequested := true);
      if !f.receiverOpen then (f.(disconnected := true), Disconnected)
      else if |f.queue| < f.depth then (f.(queue := f.queue + [Shutdown]), Enqueued)
      else (f, Lagging(f.lag))
  }

  // ----- The same operations access by access, as other threads can interrupt them -----

  datatype SendOutcome = Sent | Full | Closed

  /** `try_send` on the bounded channel. */
  function TrySend<T>(s: Sub<T>, d: Delivery<T>): (Sub<T>, SendOutcome) {
    if !s.receiverOpen then (s, Closed)
    else if |s.queue| < s.depth then (s.(queue := s.queue + [d]), Sent)
    else (s, Full)
  }

  /** Where an offer is: about to load the disconnect flag, past that check, or about to set the flag itself. */
  datatype OfferStage = Checking | Sending | Evicting

  /** One access of `try_enqueue`, and what is next. The lag counter has no other writer. */
  function OfferAccess<T>(s: Sub<T>, item: T, stage: OfferStage): (Sub<T>, Option<OfferStage>) {
    match stage
    case Checking => (s, if s.disconnected then None else Some(Sending))
    case Sending =>
      var (s', r) := TrySend(s, Live(item));
      (match r
       case Sent => (s'.(lag := 0), None)
       case Full => (s'.(lag := s.lag + 1), if s.lag + 1 > s.maxLag then Some(Evicting) else None)
       case Closed => (s', Some(Evicting)))
    case Evicting => (s.(disconnected := true), None)
  }

  /** Where a shutdown request is: loading the disconnect flag, raising its own, sending the sentinel, or giving up. */
  datatype SignalStage = Looking | Flagging | Waking | Dropping

  function SignalAccess<T>(s: Sub<T>, stage: SignalStage): (Sub<T>, Option<SignalStage>) {
    match stage
    case Looking => (s, if s.disconnected then None else Some(Flagging))
    case Flagging => (s.(shutdownRequested := true), Some(Waking))
    case Waking =>
      var (s', r) := TrySend(s, Shutdown);
      (s', if r == Closed then Some(Dropping) else None)
    case Dropping => (s.(disconnected := true), None)
  }

  /** The accesses from `stage` to the end with nothing in between. */
  function OfferRest<T>(s: Sub<T>, item: T, stage: OfferStage): Sub<T>
    decreases if stage.Checking? then 2 else if stage.Sending? then 1 else 0
  {
    var (s', next) := OfferAccess(s, item, stage);
    if next.None? then s' else OfferRest(s', item, next.value)
  }

  function SignalRest<T>(s: Sub<T>, stage: SignalStage): Sub<T>
    decreases if stage.Looking? then 3 else if stage.Flagging? then 2 else if stage.Waking? then 1 else 0
  {
    var (s', next) := SignalAccess(s, stage);
    if next.None? then s' else SignalRest(s', next.value)
  }

  /** Uninterrupted, the accesses make up the whole operations. */
  lemma AccessesCompose<T>(s: Sub<T>, item: T)
    ensures OfferRest(s, item, Checking) == TryEnqueue(s, item).0
    ensures SignalRest(s, Looking) == RequestShutdown(s).0
  {
    var (sent, after) := OfferAccess(s, item, Sending);
    assert after.Some? ==> OfferRest(sent, item, Evicting) == sent.(disconnected := true);
    assert OfferRest(s, item, Sending) == if after.None? then sent else OfferRest(sent, item, Evicting);
    var flagged := s.(shutdownRequested := true);
    var (woken, rest) := SignalAccess(flagged, Waking);
    assert rest.Some? ==> SignalRest(woken, Dropping) == woken.(disconnected := true);
    assert SignalRest(flagged, Waking) == if rest.None? then woken else SignalRest(woken, Dropping);
    assert SignalRest(s, Flagging) == SignalRest(flagged, Waking);
  }

  /** Bounds every subscriber keeps, whatever happens to it. */
  ghost predicate Bounded<T>(s: Sub<T>) {
    && 1 <= s.depth <= HARD_MAX_SEND_QUEUE_DEPTH
    && s.maxLag <= HARD_MAX_SUBSCRIBER_LAG
    && |s.queue| <= s.depth
    && s.lag <= s.maxLag + 1
    && (!s.disconnected ==> s.lag <= s.maxLag)
  }

  // ----- Bounded lag over arbitrary schedules of one subscriber -----

  /** What can happen to a subscriber between two broadcast events. */
  datatype Op<+T> = Offer(item: T) | Receive | RequestStop | Hangup | CloseReceiver

  function ApplyOp<T>(s: Sub<T>, op: Op<T>): Sub<T> {
    match op
    case Offer(item) => TryEnqueue(s, item).0
    case Receive => if s.queue == [] then s else s.(queue := s.queue[1..])
    case RequestStop => RequestShutdown(s).0
    case Hangup => s.(disconnected := true)
    case CloseReceiver => s.(receiverOpen := false)
  }

  function ApplyOps<T>(s: Sub<T>, ops: seq<Op<T>>): Sub<T> {
    if ops == [] then s else ApplyOp(ApplyOps(s, ops[..|ops| - 1]), ops[|ops| - 1])
  }

  /** Offers refused for a full queue since the last accepted one. */
  function ConsecutiveOverflows<T>(s: Sub<T>, ops: seq<Op<T>>): nat {
    if ops == [] then 0
    else
      var before := ApplyOps(s, ops[..|ops| - 1]);
      var n := ConsecutiveOverflows(s, ops[..|ops| - 1]);
      var op := ops[|ops| - 1];
      if !op.Offer? then n
      else match TryEnqueue(before, op.item).1
           case Enqueued => 0
           case Disconnected => n
           case _ => n + 1
  }

  lemma OneMoreOp<T>(s: Sub<T>, op: Op<T>)
    requires Bounded(s)
    ensures var s' := ApplyOp(s, op);
            && Bounded(s') && s'.depth == s.depth && s'.maxLag == s.maxLag
            && s'.lag == (if !op.Offer? then s.lag
                          else match TryEnqueue(s, op.item).1
                               case Enqueued => 0
                               case Disconnected => s.lag
                               case _ => s.lag + 1)
  {}

  /**
   * Bounded lag: under any schedule of a fresh subscriber the queue stays
   * within its clamped depth, the lag counter is exactly the number of
   * consecutive overflows, and a subscriber that is still connected has
   * overflowed at most `maxLag` times in a row.
   */
  lemma {:induction false} LagIsConsecutiveOverflows<T>(queueDepth: nat, maxLag: nat, ops: seq<Op<T>>)
    ensures var s := ApplyOps(NewSub(queueDepth, maxLag), ops);
            && Bounded(s)
            && s.depth == ClampDepth(queueDepth) && s.maxLag == ClampLag(maxLag)
            && s.lag == ConsecutiveOverflows(NewSub(queueDepth, maxLag), ops)
            && (!s.disconnected ==> ConsecutiveOverflows(NewSub(queueDepth, maxLag), ops) <= ClampLag(maxLag))
  {
    var s := ApplyOps(NewSub(queueDepth, maxLag), ops);
    if ops != [] {
      hide ApplyOp, TryEnqueue, Bounded, NewSub;
      var before := ops[..|ops| - 1];
      LagIsConsecutiveOverflows(queueDepth, maxLag, before);
      OneMoreOp(ApplyOps(NewSub(queueDepth, maxLag), before), ops[|ops| - 1]);
      LagOfBounded(s);
    }
  }

  lemma LagOfBounded<T>(s: Sub<T>)
    requires Bounded(s)
    ensures !s.disconnected ==> s.lag <= s.maxLag
  {}

  /** The overflow after `maxLag` consecutive ones disconnects, and no other offer to a live peer does. */
  lemma EvictionExactlyPastThreshold<T>(s: Sub<T>, item: T)
    requires Bounded(s) && !s.disconnected && s.receiverOpen
    ensures TryEnqueue(s, item).0.disconnected <==> |s.queue| == s.depth && s.lag == s.maxLag
    ensures TryEnqueue(s, item).1.LagExceeded? <==> |s.queue| == s.depth && s.lag == s.maxLag
  {}

  /** After disconnection no event enters the queue and the flag never clears. */
  lemma {:induction false} NothingEntersAfterDisconnect<T>(s: Sub<T>, ops: seq<Op<T>>)
    requires s.disconnected
    ensures ApplyOps(s, ops).disconnected && SuffixOf(ApplyOps(s, ops).queue, s.queue)
  {
    if ops == [] {
      assert s.queue == s.queue[|s.queue| - |s.queue|..];
    } else {
      hide ApplyOp, SuffixOf;
      var before := ops[..|ops| - 1];
      NothingEntersAfterDisconnect(s, before);
      OpOnDisconnected(ApplyOps(s, before), ops[|ops| - 1], s.queue);
    }
  }

  predicate SuffixOf<T(==)>(q: seq<T>, all: seq<T>) {
    |q| <= |all| && q == all[|all| - |q|..]
  }

  lemma OpOnDisconnected<T>(s: Sub<T>, op: Op<T>, all: seq<Delivery<T>>)
    requires s.disconnected && SuffixOf(s.queue, all)
    ensures ApplyOp(s, op).disconnected && SuffixOf(ApplyOp(s, op).queue, all)
  {
    if op.Receive? && s.queue != [] {
      assert s.queue[1..] == all[|all| - |s.queue| + 1..];
    }
  }

  // ----- The mutable subscriber -----

  class Subscriber {
    const id: nat
    const depth: nat
    const maxLag: nat
    var queue: seq<Delivery<CachedEvent>>
    var lag: nat
    var lastDeliveredSeq: nat
    var disconnected: bool
    var shutdownRequested: bool
    var receiverOpen: bool

    ghost function State(): Sub<CachedEvent>
      reads this
    {
      Sub(queue, depth, maxLag, lag, lastDeliveredSeq, disconnected, shutdownRequested, receiverOpen)
    }

    ghost predicate Valid()
      reads this
    {
      Bounded(State())
    }

    constructor (id: nat, queueDepth: nat, maxLag: nat)
      ensures Valid() && this.id == id && State() == NewSub(queueDepth, maxLag)
      ensures queue == [] && lag == 0 && lastDeliveredSeq == 0 && !disconnected && !shutdownRequested && receiverOpen
      ensures 1 <= queueDepth <= HARD_MAX_SEND_QUEUE_DEPTH ==> depth == queueDepth
      ensures queueDepth == 0 ==> depth == 1
      ensures queueDepth > HARD_MAX_SEND_QUEUE_DEPTH ==> depth == HARD_MAX_SEND_QUEUE_DEPTH
      ensures this.maxLag == if maxLag <= HARD_MAX_SUBSCRIBER_LAG then maxLag else HARD_MAX_SUBSCRIBER_LAG
    {
      this.id := id;
      this.depth := ClampDepth(queueDepth);
      this.maxLag := ClampLag(maxLag);
      queue := [];
      lag := 0;
      lastDeliveredSeq := 0;
      disconnected := false;
      shutdownRequested := false;
      receiverOpen := true;
    }

    method MarkDisconnected()
      modifies this`disconnected
      ensures disconnected
    {
      disconnected := true;
    }

    method Enqueue(event: CachedEvent) returns (r: EnqueueOutcome)
      requires Valid()
      modifies this`queue, this`lag, this`disconnected
      ensures Valid() && (State(), r) == TryEnqueue(old(State()), event)
      ensures r == Enqueued <==> !old(disconnected) && receiverOpen && |old(queue)| < depth
      ensures queue == if r == Enqueued then old(queue) + [Live(event)] else old(queue)
      ensures r == Disconnected <==> old(disconnected) || !receiverOpen
      ensures disconnected <==> r == Disconnected || r == LagExceeded
      ensures lag == if r == Enqueued then 0 else if r == Disconnected then old(lag) else old(lag) + 1
      ensures r.Lagging? ==> r.lag == lag <= maxLag
      ensures r == LagExceeded ==> lag == maxLag + 1
    {
      if disconnected {
        return Disconnected;
      }
      if !receiverOpen {
        MarkDisconnected();
        return Disconnected;
      }
      if |queue| < depth {
        queue := queue + [Live(event)];
        lag := 0;
        return Enqueued;
      }
      lag := lag + 1;
      if lag > maxLag {
        MarkDisconnected();
        return LagExceeded;
      }
      return Lagging(lag);
    }

    method SignalShutdown() returns (r: EnqueueOutcome)
      requires Valid()
      modifies this`queue, this`shutdownRequested, this`disconnected
      ensures Valid() && (State(), r) == RequestShutdown(old(State()))
      ensures shutdownRequested || disconnected
      ensures r == Enqueued <==> !old(disconnected) && receiverOpen && |old(queue)| < depth
      ensures queue == if r == Enqueued then old(queue) + [Shutdown] else old(queue)
      ensures r == Disconnected <==> old(disconnected) || !receiverOpen
      ensures disconnected <==> r == Disconnected
      ensures r != Enqueued && r != Disconnected ==> r == Lagging(lag)
    {
      if disconnected {
        return Disconnected;
      }
      shutdownRequested := true;
      if !receiverOpen {
        MarkDisconnected();
        return Disconnected;
      }
      if |queue| < depth {
        queue := queue + [Shutdown];
        return Enqueued;
      }
      return Lagging(lag);
    }

    /** The receiving end of the channel. */
    method TryReceive() returns (r: Option<Delivery<CachedEvent>>)
      requires Valid()
      modifies this`queue
      ensures Valid()
      ensures r.None? <==> old(queue) == []
      ensures r.None? ==> queue == []
      ensures r.Some? ==> old(queue) == [r.value] + queue
    {
      if queue == [] {
        return None;
      }
      r := Some(queue[0]);
      queue := queue[1..];
    }

    method RecordDelivered(seqNo: nat)
      modifies this`lastDeliveredSeq
      ensures lastDeliveredSeq == seqNo
    {
      lastDeliveredSeq := seqNo;
    }
  }

  datatype BroadcastSummary = BroadcastSummary(enqueued: nat, lagging: nat, evicted: nat, disconnected: nat)

  datatype RegisterResult = Registered(subscriber: Subscriber) | AtCapacity(active: nat, max: nat)

  function Tally(s: BroadcastSummary, r: EnqueueOutcome): BroadcastSummary {
    match r
    case Enqueued => s.(enqueued := s.enqueued + 1)
    case Lagging(_) => s.(lagging := s.lagging + 1)
    case LagExceeded => s.(evicted := s.evicted + 1)
    case Disconnected => s.(disconnected := s.disconnected + 1)
  }

  /** Diagnostic counts of offering one event to subscribers in these states. */
  function Summary<T>(states: seq<Sub<T>>, item: T): BroadcastSummary {
    if states == [] then BroadcastSummary(0, 0, 0, 0)
    else Tally(Summary(states[..|states| - 1], item), TryEnqueue(states[|states| - 1], item).1)
  }

  /** The subscribers whose offer ends this way. */
  ghost function Outcomes<T>(states: seq<Sub<T>>, item: T, ends: EnqueueOutcome -> bool): set<nat> {
    set i: nat | i < |states| && ends(TryEnqueue(states[i], item).1)
  }

  /** Each count of the summary is the number of subscribers whose offer ended that way. */
  lemma {:induction false} SummaryCounts<T>(states: seq<Sub<T>>, item: T)
    ensures var s := Summary(states, item);
            && s.enqueued == |Outcomes(states, item, (r: EnqueueOutcome) => r.Enqueued?)|
            && s.lagging == |Outcomes(states, item, (r: EnqueueOutcome) => r.Lagging?)|
            && s.evicted == |Outcomes(states, item, (r: EnqueueOutcome) => r.LagExceeded?)|
            && s.disconnected == |Outcomes(states, item, (r: EnqueueOutcome) => r.Disconnected?)|
            && s.enqueued + s.lagging + s.evicted + s.disconnected == |states|
  {
    if states != [] {
      hide TryEnqueue, Outcomes;
      SummaryCounts(states[..|states| - 1], item);
      OneMoreOutcome(states, item, (r: EnqueueOutcome) => r.Enqueued?);
      OneMoreOutcome(states, item, (r: EnqueueOutcome) => r.Lagging?);
      OneMoreOutcome(states, item, (r: EnqueueOutcome) => r.LagExceeded?);
      OneMoreOutcome(states, item, (r: EnqueueOutcome) => r.Disconnected?);
    }
  }

  lemma OneMoreOutcome<T>(states: seq<Sub<T>>, item: T, ends: EnqueueOutcome -> bool)
    requires states != []
    ensures var n := |states| - 1;
            |Outcomes(states, item, ends)| ==
            |Outcomes(states[..n], item, ends)| + if ends(TryEnqueue(states[n], item).1) then 1 else 0
  {
    hide TryEnqueue;
    var n := |states| - 1;
    var before := Outcomes(states[..n], item, ends);
    if ends(TryEnqueue(states[n], item).1) {
      assert Outcomes(states, item, ends) == before + {n};
    } else {
      assert Outcomes(states, item, ends) == before;
    }
  }

  class SubscriberRegistry {
    var subscribers: seq<Subscriber>
    var lastId: nat
    var maxSubscribers: nat

    ghost predicate Valid()
      reads this, subscribers
    {
      && (forall i :: 0 <= i < |subscribers| ==> 1 <= subscribers[i].id <= lastId && subscribers[i].Valid())
      && (forall i, j :: 0 <= i < j < |subscribers| ==> subscribers[i].id != subscribers[j].id)
    }

    constructor (max: nat)
      ensures Valid() && subscribers == [] && maxSubscribers == max
    {
      subscribers := [];
      lastId := 0;
      maxSubscribers := max;
    }

    /** Fresh id, appended at the end; refused exactly when a non-zero cap is reached. */
    method Register(queueDepth: nat, maxLag: nat) returns (r: RegisterResult)
      requires Valid()
      modifies this
      ensures Valid() && maxSubscribers == old(maxSubscribers)
      ensures r.AtCapacity? <==> old(maxSubscribers) != 0 && |old(subscribers)| >= old(maxSubscribers)
      ensures r.AtCapacity? ==>
        && subscribers == old(subscribers) && lastId == old(lastId)
        && r.active == |subscribers| && r.max == maxSubscribers
      ensures r.Registered? ==>
        && fresh(r.subscriber) && subscribers == old(subscribers) + [r.subscriber]
        && r.subscriber.State() == NewSub(queueDepth, maxLag)
        && forall s :: s in old(subscribers) ==> s.id != r.subscriber.id
    {
      if maxSubscribers != 0 && |subscribers| >= maxSubscribers {
        return AtCapacity(|subscribers|, maxSubscribers);
      }
      lastId := lastId + 1;
      var sub := new Subscriber(lastId, queueDepth, maxLag);
      subscribers := subscribers + [sub];
      return Registered(sub);
    }

    /** Removes the subscriber with this id and no other, keeping the order; idempotent. */
    method Unregister(sub: Subscriber)
      requires Valid()
      modifies this`subscribers
      ensures Valid()
      ensures subscribers == Without(old(subscribers), sub.id)
      ensures forall s :: s in subscribers <==> s in old(subscribers) && s.id != sub.id
    {
      subscribers := Without(subscribers, sub.id);
      WithoutKeeps(old(subscribers), sub.id);
    }

    method Snapshot() returns (snapshot: seq<Subscriber>)
      ensures snapshot == subscribers
    {
      snapshot := subscribers;
    }

    /** Every subscriber of the snapshot is offered the event exactly once, independently of the others. */
    static method BroadcastToSnapshot(snapshot: seq<Subscriber>, event: CachedEvent) returns (summary: BroadcastSummary)
      requires forall i :: 0 <= i < |snapshot| ==> snapshot[i].Valid()
      requires forall i, j :: 0 <= i < j < |snapshot| ==> snapshot[i] != snapshot[j]
      modifies snapshot
      ensures forall i :: 0 <= i < |snapshot| ==>
        snapshot[i].Valid() && snapshot[i].State() == TryEnqueue(old(snapshot[i].State()), event).0
      ensures summary == Summary(seq(|snapshot|, i requires 0 <= i < |snapshot| => old(snapshot[i].State())), event)
    {
      hide TryEnqueue, Tally;
      ghost var before := seq(|snapshot|, i requires 0 <= i < |snapshot| => old(snapshot[i].State()));
      summary := BroadcastSummary(0, 0, 0, 0);
      for k := 0 to |snapshot|
        invariant forall i :: 0 <= i < k ==>
          snapshot[i].Valid() && snapshot[i].State() == TryEnqueue(before[i], event).0
        invariant forall i :: k <= i < |snapshot| ==> snapshot[i].Valid() && snapshot[i].State() == before[i]
        invariant summary == Summary(before[..k], event)
      {
        var r := snapshot[k].Enqueue(event);
        summary := Tally(summary, r);
        assert before[..k + 1][..k] == before[..k];
      }
      assert before[..|snapshot|] == before;
    }

    /** Nobody registered is missed: each is asked to shut down once, and ends flagged for it or disconnected. */
    method BroadcastShutdown()
      requires Valid()
      modifies subscribers
      ensures Valid()
      ensures forall i :: 0 <= i < |subscribers| ==>
        && subscribers[i].State() == RequestShutdown(old(subscribers[i].State())).0
        && (subscribers[i].shutdownRequested || subscribers[i].disconnected)
    {
      hide RequestShutdown;
      var snapshot := Snapshot();
      for k := 0 to |snapshot|
        invariant forall i :: 0 <= i < |snapshot| ==> snapshot[i].Valid()
        invariant forall i :: 0 <= i < k ==>
          && snapshot[i].State() == RequestShutdown(old(snapshot[i].State())).0
          && (snapshot[i].shutdownRequested || snapshot[i].disconnected)
        invariant forall i :: k <= i < |snapshot| ==> snapshot[i].State() == old(snapshot[i].State())
      {
        var _ := snapshot[k].SignalShutdown();
      }
    }
  }

  /** `retain(|s| s.id != id)`. */
  function Without(subs: seq<Subscriber>, id: nat): seq<Subscriber> {
    if subs == [] then []
    else Without(subs[..|subs| - 1], id) + (if subs[|subs| - 1].id != id then [subs[|subs| - 1]] else [])
  }

  lemma {:induction false} WithoutKeeps(subs: seq<Subscriber>, id: nat)
    requires forall i, j :: 0 <= i < j < |subs| ==> subs[i].id != subs[j].id
    ensures var w := Without(subs, id);
            && (forall i :: 0 <= i < |w| ==> w[i] in subs && w[i].id != id)
            && (forall i :: 0 <= i < |subs| && subs[i].id != id ==> subs[i] in w)
            && (forall i, j :: 0 <= i < j < |w| ==> w[i].id != w[j].id)
  {
    if subs != [] {
      var n := |subs| - 1;
      WithoutKeeps(subs[..n], id);
      var w := Without(subs[..n], id);
      forall i | 0 <= i < |w| ensures w[i] in subs && w[i].id != subs[n].id {
        assert w[i] in subs[..n];
      }
    }
  }
}
