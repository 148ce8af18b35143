/**
 * One connection thread (canon-event-subscribe, server.rs: handle_connection and
 * dispatch_live) as a record and the atomic actions on it: the thread's own
 * actions, and those that other threads perform on its subscriber.
 */
module Connections {
  import opened Events
  import opened Subscription

  /** An event together with its position in the push history. No action reads `pos`. */
  datatype Item = Item(pos: nat, event: CachedEvent)

  datatype Frame =
    | EventFrame(item: Item)
    | LagExceededFrame(lastDelivered: nat)
    | TruncatedFrame(oldestAvailable: nat)
    | ServerShutdownFrame(lastDelivered: nat)
    | InvalidRequestFrame

  /** Where the thread is. `pending` is dispatch_live's deque. */
  datatype Pc =
    | Handshaking
    | Registering
    | Ranging
    | Refusing(point: nat)
    | Backfilling(next: nat)
    | StopChecking
    | SelfSignalling(stage: SignalStage)
    | Entering
    | Draining(pending: seq<Delivery<Item>>)
    | CheckingShutdown(pending: seq<Delivery<Item>>)
    | CheckingDisconnected(pending: seq<Delivery<Item>>)
    | Receiving(pending: seq<Delivery<Item>>)
    | Probing
    | Writing(event: Delivery<Item>, pending: seq<Delivery<Item>>)
    | Unregistering
    | Finished

  /**
   * `wire` holds the frames written successfully. The fields after it are
   * bookkeeping that no action depends on: the history position and sequence
   * number at which the subscriber joined the broadcast, everything ever put in
   * its queue, how much of that the thread has taken out again, the backfill it
   * was given, how much had been queued by then, how long the history was then
   * (if the cache did serve it), which queued events the drain threw away (as
   * indices into `enqueued`), the position of the first event refused for a full
   * queue and not made up for by the backfill, and whether the thread gave up on
   * its peer because a write failed or the peer was gone.
   */
  datatype Conn = Conn(
    pc: Pc,
    resumeFrom: nat,
    sub: Sub<Item>,
    wire: seq<Frame>,
    joinPos: nat,
    joinSeq: nat,
    enqueued: seq<Item>,
    taken: nat,
    backfill: seq<Item>,
    queuedAtRange: nat,
    ranged: Option<nat>,
    discarded: set<nat>,
    missed: Option<nat>,
    parted: bool)

  function NewConn(queueDepth: nat, maxLag: nat): Conn {
    Conn(Handshaking, 0, NewSub(queueDepth, maxLag), [], 0, 0, [], 0, [], 0, None, {}, None, false)
  }

  // ----- Actions by other threads -----

  /** One access of the extractor offering an event (Subscriber::try_enqueue). */
  function Offered(c: Conn, item: Item, stage: OfferStage): Conn {
    var r := if stage.Sending? then TrySend(c.sub, Live(item)).1 else Closed;
    c.(sub := OfferAccess(c.sub, item, stage).0,
       enqueued := if r == Sent then c.enqueued + [item] else c.enqueued,
       missed := if r == Full && c.missed.None? then Some(item.pos) else c.missed)
  }

  /** One access of some thread requesting shutdown (Subscriber::request_shutdown). */
  function Signalled(c: Conn, stage: SignalStage): Conn {
    c.(sub := SignalAccess(c.sub, stage).0)
  }

  // ----- Actions of the thread that involve shared state -----

  function Joined(c: Conn, joinPos: nat, joinSeq: nat): Conn {
    c.(pc := Ranging, joinPos := joinPos, joinSeq := joinSeq)
  }

  /** The cache answered with a truncation notice. */
  function RangedOut(c: Conn, point: nat): Conn {
    c.(pc := Refusing(point))
  }

  /** The cache answered with these events (none at the live tail). A backfill makes up for what was refused so far. */
  function Ranged(c: Conn, backfill: seq<Item>, rangeLen: nat): Conn {
    c.(pc := Backfilling(0), backfill := backfill, ranged := Some(rangeLen), queuedAtRange := |c.enqueued|,
       missed := if backfill == [] then c.missed else None)
  }

  /** registry.unregister, and with the return the receiver is dropped. */
  function Left(c: Conn): Conn {
    c.(pc := Finished, sub := c.sub.(receiverOpen := false))
  }

  // ----- Actions of the thread alone -----

  /**
   * `ok` is whether a frame write succeeds; `stop` the observed stop flag;
   * `connected` what probing the socket says.
   */
  datatype Local =
    | RejectHandshake(ok: bool)
    | AcceptHandshake(resumeFrom: nat)
    | RefuseAtCapacity(ok: bool)
    | WriteTruncated(ok: bool)
    | WriteBackfill(ok: bool)
    | FinishBackfill
    | CheckStop(stop: bool)
    | SignalSelf
    | EnterDispatch
    | DrainOne
    | FinishDrain
    | CheckShutdown(ok: bool)
    | CheckDisconnected(ok: bool)
    | TakeNext
    | TimeOut
    | Probe(connected: bool)
    | WriteNext(ok: bool)

  predicate Enabled(c: Conn, a: Local) {
    match a
    case RejectHandshake(_) => c.pc.Handshaking?
    case AcceptHandshake(r) => c.pc.Handshaking? && r <= U64_MAX
    case RefuseAtCapacity(_) => c.pc.Registering?
    case WriteTruncated(_) => c.pc.Refusing?
    case WriteBackfill(_) => c.pc.Backfilling? && c.pc.next < |c.backfill|
    case FinishBackfill => c.pc.Backfilling? && c.pc.next >= |c.backfill|
    case CheckStop(_) => c.pc.StopChecking?
    case SignalSelf => c.pc.SelfSignalling?
    case EnterDispatch => c.pc.Entering?
    case DrainOne => c.pc.Draining? && c.sub.queue != []
    case FinishDrain => c.pc.Draining? && c.sub.queue == []
    case CheckShutdown(_) => c.pc.CheckingShutdown?
    case CheckDisconnected(_) => c.pc.CheckingDisconnected?
    case TakeNext => c.pc.Receiving? && (c.pc.pending != [] || c.sub.queue != [])
    case TimeOut => c.pc.Receiving? && c.pc.pending == [] && c.sub.queue == []
    case Probe(_) => c.pc.Probing?
    case WriteNext(_) => c.pc.Writing?
  }

  function Written(c: Conn, ok: bool, f: Frame): seq<Frame> {
    if ok then c.wire + [f] else c.wire
  }

  /** The thread marks itself disconnected and leaves. */
  function Parted(c: Conn): Conn {
    c.(pc := Unregistering, sub := c.sub.(disconnected := true), parted := true)
  }

  /** The thread returns past the unregister call; its receiver goes with it. */
  function Abandoned(c: Conn, wire: seq<Frame>, ok: bool): Conn {
    c.(pc := Finished, wire := wire, sub := c.sub.(receiverOpen := false), parted := c.parted || !ok)
  }

  /** The thread writes a terminal frame, best effort, and leaves. */
  function Ending(c: Conn, ok: bool, f: Frame): Conn {
    c.(pc := Unregistering, wire := Written(c, ok, f), parted := c.parted || !ok)
  }

  function Delivered(c: Conn, seqNo: nat): Sub<Item> {
    c.sub.(lastDelivered := seqNo)
  }

  /** Takes the head of the channel, whatever it is. */
  function Popped(c: Conn): Conn
    requires c.sub.queue != []
  {
    c.(sub := c.sub.(queue := c.sub.queue[1..]),
       taken := if c.sub.queue[0].Live? then c.taken + 1 else c.taken)
  }

  function Act(c: Conn, a: Local): Conn
    requires Enabled(c, a)
  {
    match a
    case RejectHandshake(ok) =>
      Abandoned(c, Written(c, ok, InvalidRequestFrame), ok)
    case AcceptHandshake(r) =>
      c.(pc := Registering, resumeFrom := r)
    case RefuseAtCapacity(ok) =>
      Abandoned(c, Written(c, ok, LagExceededFrame(0)), ok)
    case WriteTruncated(ok) =>
      if ok then Ending(c, true, TruncatedFrame(c.pc.point)) else Abandoned(c, c.wire, false)
    case WriteBackfill(ok) =>
      var item := c.backfill[c.pc.next];
      if ok then c.(pc := Backfilling(c.pc.next + 1), wire := c.wire + [EventFrame(item)],
                    sub := Delivered(c, item.event.seqNo))
      else Parted(c)
    case FinishBackfill =>
      c.(pc := StopChecking)
    case CheckStop(stop) =>
      c.(pc := if stop && !c.sub.shutdownRequested then SelfSignalling(Looking) else Entering)
    case SignalSelf =>
      var next := SignalAccess(c.sub, c.pc.stage).1;
      Signalled(c, c.pc.stage).(pc := if next.Some? then SelfSignalling(next.value) else Entering)
    case EnterDispatch =>
      if c.sub.lastDelivered > 0 then c.(pc := Draining([])) else c.(pc := CheckingShutdown([]))
    case DrainOne =>
      var d := c.sub.queue[0];
      if d.Live? && d.item.event.seqNo <= c.sub.lastDelivered
      then Popped(c).(discarded := c.discarded + {c.taken})
      else Popped(c).(pc := Draining(c.pc.pending + [d]))
    case FinishDrain =>
      c.(pc := CheckingShutdown(c.pc.pending))
    case CheckShutdown(ok) =>
      if c.sub.shutdownRequested
      then Ending(c, ok, ServerShutdownFrame(c.sub.lastDelivered))
      else c.(pc := CheckingDisconnected(c.pc.pending))
    case CheckDisconnected(ok) =>
      if c.sub.disconnected
      then Ending(c, ok, LagExceededFrame(c.sub.lastDelivered))
      else c.(pc := Receiving(c.pc.pending))
    case TakeNext =>
      if c.pc.pending != [] then c.(pc := Writing(c.pc.pending[0], c.pc.pending[1..]))
      else Popped(c).(pc := Writing(c.sub.queue[0], []))
    case TimeOut =>
      c.(pc := Probing)
    case Probe(connected) =>
      if connected then c.(pc := CheckingShutdown([])) else Parted(c)
    case WriteNext(ok) =>
      match c.pc.event
      case Live(item) =>
        if ok then c.(pc := CheckingShutdown(c.pc.pending), wire := c.wire + [EventFrame(item)],
                      sub := Delivered(c, item.event.seqNo))
        else Parted(c)
      case Shutdown =>
        Ending(c, ok, ServerShutdownFrame(c.sub.lastDelivered))
  }
}
