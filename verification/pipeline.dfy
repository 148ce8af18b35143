/**
 * The whole server (canon-event-subscribe, server.rs) as an interleaved step
 * system: the log writer, the extractor thread, the accepting thread that also
 * shuts the server down, and any number of connection threads. One step is one
 * access to state that another thread may change, except where several can be
 * taken at one moment: a send with its lag update, a failed write or probe with
 * the disconnect mark, the two loads before dispatch (CheckStop), and leaving the
 * registry with dropping the receiver (Left).
 */
module Pipeline {
  import opened Events
  import opened EventCaches
  import opened Subscription
  import opened Connections
  import SubscribeFrames
  import Tailing

  type ConnId = nat

  datatype Config = Config(capacity: nat, queueDepth: nat, maxLag: nat, maxSubscribers: nat, payloadMax: nat,
                           maxFrameSize: nat)

  /** Program counter of the extractor thread. It holds the cache lock while pushing and broadcasting. */
  datatype Extractor =
    | LoopTop
    | Polling
    | Extracting(seqNo: nat, payload: Bytes)
    | Locking(seqNo: nat, batch: seq<Bytes>)
    | Pushing(seqNo: nat, batch: seq<Bytes>, pushed: nat)
    | Broadcasting(seqNo: nat, batch: seq<Bytes>, snapshot: seq<ConnId>, event: nat, peer: nat, offer: OfferStage)
    | Halting
    | HaltSignalling(remaining: seq<ConnId>, stage: SignalStage)
    | Stopped

  /** Program counter of the thread in Server::run. */
  datatype Main =
    | AcceptTop
    | Accepting
    | FinalSnapshot
    | FinalSignalling(remaining: seq<ConnId>, stage: SignalStage)
    | Returned

  /**
   * The last four fields are bookkeeping that no step depends on: the payloads
   * read from the log, the extractor's answers that have been published, every
   * event ever pushed, and how many of them belong to published batches.
   */
  datatype State = State(
    cfg: Config,
    file: Bytes,
    tail: Tailing.Tail,
    cache: Cache,
    registry: seq<ConnId>,
    conns: seq<Conn>,
    stop: bool,
    ext: Extractor,
    main: Main,
    frames: seq<Bytes>,
    batches: seq<seq<Bytes>>,
    hist: seq<CachedEvent>,
    published: nat)

  function Init(cfg: Config): State {
    State(cfg, [], Tailing.START, Empty(cfg.capacity), [], [], false, LoopTop, AcceptTop, [], [], [], 0)
  }

  predicate LockHeld(s: State) {
    s.ext.Pushing? || s.ext.Broadcasting?
  }

  predicate CapReached(s: State) {
    s.cfg.maxSubscribers != 0 && |s.registry| >= s.cfg.maxSubscribers
  }

  /** History position from which a subscriber registering now receives every event. */
  function Frontier(s: State): nat {
    if s.ext.Broadcasting? then |s.hist| else s.published
  }

  /** Number of the last log frame whose subscriber snapshot has been taken. */
  function FrontierSeq(s: State): nat {
    if s.ext.Broadcasting? then s.ext.seqNo else |s.batches|
  }

  /** `retain`: the list without one id. */
  function Remove(ids: seq<ConnId>, id: ConnId): seq<ConnId> {
    if ids == [] then []
    else Remove(ids[..|ids| - 1], id) + (if ids[|ids| - 1] != id then [ids[|ids| - 1]] else [])
  }

  /** Events tagged with the history positions they occupy at the end of a history of length `len`. */
  function TailItems(es: seq<CachedEvent>, len: nat): seq<Item> {
    var base := if |es| <= len then len - |es| else 0;
    seq(|es|, i requires 0 <= i < |es| => Item(base + i, es[i]))
  }

  // ----- Steps -----

  datatype ExtAction =
    | CheckStop
    | PollLog
    | PollFails
    | ExtractOk(batch: seq<Bytes>)
    | ExtractFails
    | TakeLock
    | PushOne
    | TakeSnapshot
    | OfferOne
    | NextEvent
    | ReleaseLock
    | HaltSnapshot
    | HaltSignal
    | HaltStop

  datatype MainAction =
    | ObserveStop
    | AcceptConn
    | RejectConn(ok: bool)
    | AcceptNone
    | ShutdownSnapshot
    | ShutdownSignal
    | ShutdownDone

  datatype Step =
    | Append(bytes: Bytes)
    | OperatorStop
    | Ext(e: ExtAction)
    | Run(m: MainAction)
    | Thread(id: ConnId, a: Local)
    | Register(id: ConnId)
    | RangeCache(id: ConnId)
    | Unregister(id: ConnId)

  predicate ExtEnabled(s: State, e: ExtAction) {
    match e
    case CheckStop => s.ext.LoopTop?
    case PollLog => s.ext.Polling? && s.tail.nextSeq < U64_MAX
    case PollFails => s.ext.Polling?
    case ExtractOk(_) => s.ext.Extracting?
    case ExtractFails => s.ext.Extracting?
    case TakeLock => s.ext.Locking?
    case PushOne => s.ext.Pushing? && s.ext.pushed < |s.ext.batch|
    case TakeSnapshot => s.ext.Pushing? && s.ext.pushed >= |s.ext.batch|
    case OfferOne => s.ext.Broadcasting? && s.ext.event < |s.ext.batch| && s.ext.peer < |s.ext.snapshot|
                     && s.ext.snapshot[s.ext.peer] < |s.conns|
    case NextEvent => s.ext.Broadcasting? && s.ext.event < |s.ext.batch| && s.ext.peer >= |s.ext.snapshot|
    case ReleaseLock => s.ext.Broadcasting? && s.ext.event >= |s.ext.batch|
    case HaltSnapshot => s.ext.Halting?
    case HaltSignal => s.ext.HaltSignalling? && s.ext.remaining != [] && s.ext.remaining[0] < |s.conns|
    case HaltStop => s.ext.HaltSignalling? && s.ext.remaining == []
  }

  /** A poll outcome decides where the extractor goes: on, around again, or to a halt. */
  function Polled(s: State): State {
    var (r, t) := Tailing.Poll(s.file, s.tail, s.cfg.payloadMax);
    match r
    case Frame(seqNo, payload) => s.(ext := Extracting(seqNo, payload), tail := t, frames := s.frames + [payload])
    case Pending(_) => s.(ext := LoopTop)
    case Io => s.(ext := LoopTop)
    case _ => s.(ext := Halting)
  }

  function PushedOne(s: State): State
    requires s.ext.Pushing? && s.ext.pushed < |s.ext.batch|
  {
    var e := CachedEvent(s.ext.seqNo, s.ext.batch[s.ext.pushed]);
    var (cache, r) := Push(s.cache, e);
    if r.OutOfOrder? then s.(ext := Halting)
    else s.(cache := cache, hist := s.hist + [e], ext := s.ext.(pushed := s.ext.pushed + 1))
  }

  /** The event being broadcast, with its place in the history. */
  function AtHand(s: State): Item
    requires s.ext.Broadcasting? && s.ext.event < |s.ext.batch|
  {
    Item(s.published + s.ext.event, CachedEvent(s.ext.seqNo, s.ext.batch[s.ext.event]))
  }

  /** One access of offering the event at hand to the current subscriber of the snapshot. */
  function OfferedOne(s: State): State
    requires ExtEnabled(s, OfferOne)
  {
    var id, stage := s.ext.snapshot[s.ext.peer], s.ext.offer;
    var next := OfferAccess(s.conns[id].sub, AtHand(s), stage).1;
    s.(conns := s.conns[id := Offered(s.conns[id], AtHand(s), stage)],
       ext := if next.Some? then s.ext.(offer := next.value) else s.ext.(peer := s.ext.peer + 1, offer := Checking))
  }

  /** One access of requesting shutdown of one subscriber. */
  function SignalOne(s: State, id: ConnId, stage: SignalStage): State
    requires id < |s.conns|
  {
    s.(conns := s.conns[id := Signalled(s.conns[id], stage)])
  }

  /** Who is still to be told, and at which access, after one access to the first of them. */
  function Waiting(s: State, remaining: seq<ConnId>, stage: SignalStage): (seq<ConnId>, SignalStage)
    requires remaining != [] && remaining[0] < |s.conns|
  {
    match SignalAccess(s.conns[remaining[0]].sub, stage).1
    case Some(next) => (remaining, next)
    case None => (remaining[1..], Looking)
  }

  function ExtApply(s: State, e: ExtAction): State
    requires ExtEnabled(s, e)
  {
    match e
    case CheckStop => s.(ext := if s.stop then Stopped else Polling)
    case PollLog => Polled(s)
    case PollFails => s.(ext := LoopTop)
    case ExtractOk(batch) => s.(ext := Locking(s.ext.seqNo, batch))
    case ExtractFails => s.(ext := Halting)
    case TakeLock => s.(ext := Pushing(s.ext.seqNo, s.ext.batch, 0))
    case PushOne => PushedOne(s)
    case TakeSnapshot => s.(ext := Broadcasting(s.ext.seqNo, s.ext.batch, s.registry, 0, 0, Checking))
    case OfferOne => OfferedOne(s)
    case NextEvent => s.(ext := s.ext.(event := s.ext.event + 1, peer := 0))
    case ReleaseLock => s.(ext := LoopTop, batches := s.batches + [s.ext.batch], published := |s.hist|)
    case HaltSnapshot => s.(ext := HaltSignalling(s.registry, Looking))
    case HaltSignal =>
      var (remaining, stage) := Waiting(s, s.ext.remaining, s.ext.stage);
      SignalOne(s, s.ext.remaining[0], s.ext.stage).(ext := HaltSignalling(remaining, stage))
    case HaltStop => s.(ext := Stopped, stop := true)
  }

  predicate MainEnabled(s: State, m: MainAction) {
    match m
    case ObserveStop => s.main.AcceptTop?
    case AcceptConn => s.main.Accepting?
    case RejectConn(_) => s.main.Accepting?
    case AcceptNone => s.main.Accepting?
    case ShutdownSnapshot => s.main.FinalSnapshot?
    case ShutdownSignal => s.main.FinalSignalling? && s.main.remaining != [] && s.main.remaining[0] < |s.conns|
    case ShutdownDone => s.main.FinalSignalling? && s.main.remaining == []
  }

  /** A connection refused for want of a slot: one best-effort frame, no thread. */
  function Rejected(cfg: Config, ok: bool): Conn {
    var c := NewConn(cfg.queueDepth, cfg.maxLag);
    Abandoned(c, Written(c, ok, LagExceededFrame(0)), ok)
  }

  function MainApply(s: State, m: MainAction): State
    requires MainEnabled(s, m)
  {
    match m
    case ObserveStop => s.(main := if s.stop then FinalSnapshot else Accepting)
    case AcceptConn => s.(main := AcceptTop, conns := s.conns + [NewConn(s.cfg.queueDepth, s.cfg.maxLag)])
    case RejectConn(ok) => s.(main := AcceptTop, conns := s.conns + [Rejected(s.cfg, ok)])
    case AcceptNone => s.(main := AcceptTop)
    case ShutdownSnapshot => s.(main := FinalSignalling(s.registry, Looking))
    case ShutdownSignal =>
      var (remaining, stage) := Waiting(s, s.main.remaining, s.main.stage);
      SignalOne(s, s.main.remaining[0], s.main.stage).(main := FinalSignalling(remaining, stage))
    case ShutdownDone => s.(main := Returned)
  }

  /** The event encodes to a frame within the bound; otherwise every write of it fails. */
  predicate FrameFits(cfg: Config, event: CachedEvent) {
    |event.payload| <= SubscribeFrames.Cap(cfg.maxFrameSize)
  }

  /** A write of an event succeeds only if its frame fits. */
  predicate WriteFits(cfg: Config, c: Conn, a: Local)
    requires Enabled(c, a)
  {
    match a
    case WriteBackfill(ok) => ok ==> FrameFits(cfg, c.backfill[c.pc.next].event)
    case WriteNext(ok) => ok && c.pc.event.Live? ==> FrameFits(cfg, c.pc.event.item.event)
    case _ => true
  }

  predicate StepEnabled(s: State, step: Step) {
    match step
    case Append(_) => true
    case OperatorStop => true
    case Ext(e) => ExtEnabled(s, e)
    case Run(m) => MainEnabled(s, m)
    case Thread(id, a) => && id < |s.conns| && Enabled(s.conns[id], a)
                          && (a.RefuseAtCapacity? ==> CapReached(s))
                          && (a.CheckStop? ==> a.stop == s.stop)
                          && WriteFits(s.cfg, s.conns[id], a)
    case Register(id) => id < |s.conns| && s.conns[id].pc.Registering? && !CapReached(s)
    case RangeCache(id) => id < |s.conns| && s.conns[id].pc.Ranging? && !LockHeld(s)
    case Unregister(id) => id < |s.conns| && s.conns[id].pc.Unregistering?
  }

  /** The cache's answer decides whether the thread refuses, backfills, or goes live. */
  function RangeResult(s: State, c: Conn): Conn {
    match Range(s.cache, c.resumeFrom)
    case OutOfWindow(point) => RangedOut(c, point)
    case InWindow(es) => Ranged(c, TailItems(es, |s.hist|), |s.hist|)
    case AtLiveTail => Ranged(c, [], |s.hist|)
  }

  function Apply(s: State, step: Step): State
    requires StepEnabled(s, step)
  {
    match step
    case Append(bytes) => s.(file := s.file + bytes)
    case OperatorStop => s.(stop := true)
    case Ext(e) => ExtApply(s, e)
    case Run(m) => MainApply(s, m)
    case Thread(id, a) => s.(conns := s.conns[id := Act(s.conns[id], a)])
    case Register(id) => s.(conns := s.conns[id := Joined(s.conns[id], Frontier(s), FrontierSeq(s))],
                            registry := s.registry + [id])
    case RangeCache(id) => s.(conns := s.conns[id := RangeResult(s, s.conns[id])])
    case Unregister(id) => s.(conns := s.conns[id := Left(s.conns[id])], registry := Remove(s.registry, id))
  }

  // ----- Runs -----

  ghost predicate Next(s: State, s': State) {
    exists step :: StepEnabled(s, step) && s' == Apply(s, step)
  }

  /** A finite run of the server from its initial state. */
  ghost predicate IsRun(run: seq<State>) {
    && run != []
    && run[0].cfg.capacity >= 1
    && run[0] == Init(run[0].cfg)
    && (forall i :: 0 <= i < |run| - 1 ==> Next(run[i], run[i + 1]))
  }
}
