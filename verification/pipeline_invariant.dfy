/** What every step of the server keeps. */
module PipelineInvariant {
  import opened Events
  import opened EventCaches
  import opened Subscription
  import opened Connections
  import opened ConnectionInvariant
  import opened Placement
  import opened Pipeline

  /** The subscriber an offer is being made to. */
  predicate IsPeer(ext: Extractor, id: ConnId) {
    ext.Broadcasting? && ext.peer < |ext.snapshot| && ext.snapshot[ext.peer] == id
  }

  /** The event at hand has been sent to this subscriber of the snapshot, or need not be. */
  predicate PassedBy(ext: Extractor, id: ConnId)
    requires ext.Broadcasting?
  {
    (ext.peer <= |ext.snapshot| && id in ext.snapshot[..ext.peer]) || (IsPeer(ext, id) && ext.offer.Evicting?)
  }

  /** How far the broadcast has come for one subscriber. */
  function ProgressOf(s: State, id: ConnId): Progress {
    if s.ext.Broadcasting? && id in s.ext.snapshot then
      Progress(s.published + s.ext.event + (if PassedBy(s.ext, id) then 1 else 0),
               if IsPeer(s.ext, id) then s.ext.offer else Checking)
    else Progress(Frontier(s), Checking)
  }

  // ----- The history -----

  /** The batch being published sits, as far as pushed, right after the published events. */
  ghost predicate BatchPlaced(s: State, seqNo: nat, batch: seq<Bytes>, pushed: nat) {
    && seqNo == |s.batches| + 1
    && pushed <= |batch|
    && |s.hist| == s.published + pushed
    && (forall i :: 0 <= i < pushed ==> s.hist[s.published + i] == CachedEvent(seqNo, batch[i]))
  }

  ghost predicate ExtInv(s: State) {
    match s.ext
    case Extracting(seqNo, _) => seqNo == |s.batches| + 1 && |s.hist| == s.published
    case Locking(seqNo, _) => seqNo == |s.batches| + 1 && |s.hist| == s.published
    case Pushing(seqNo, batch, pushed) => BatchPlaced(s, seqNo, batch, pushed)
    case Broadcasting(seqNo, batch, snapshot, event, peer, offer) =>
      && BatchPlaced(s, seqNo, batch, |batch|)
      && event <= |batch| && peer <= |snapshot| && (event == |batch| ==> peer == 0)
      && (event == |batch| || peer == |snapshot| ==> offer.Checking?)
    case _ => |s.hist| == s.published
  }

  /** Published events carry published numbers; the ones in progress the next number. */
  ghost predicate NumberingInv(s: State) {
    && s.published <= |s.hist|
    && (forall i :: 0 <= i < s.published ==> s.hist[i].seqNo <= |s.batches|)
    && (forall i :: s.published <= i < |s.hist| ==> s.hist[i].seqNo == |s.batches| + 1)
  }

  ghost predicate CacheInv(s: State) {
    s.cfg.capacity >= 1 && Ordered(s.hist) && s.cache == CacheOf(s.hist, s.cfg.capacity)
  }

  predicate InFlight(ext: Extractor) {
    ext.Extracting? || ext.Locking? || ext.Pushing? || ext.Broadcasting?
  }

  /** Each frame read is either published, being worked on, or the one the extractor halted at. */
  ghost predicate FrameCount(s: State) {
    && s.tail.nextSeq == |s.frames| + 1 <= U64_MAX
    && (s.ext.LoopTop? || s.ext.Polling? ==> |s.frames| == |s.batches|)
    && (InFlight(s.ext) ==> |s.frames| == |s.batches| + 1)
    && |s.batches| <= |s.frames| <= |s.batches| + 1
  }

  ghost predicate CoreInv(s: State) {
    && FrameCount(s)
    && CacheInv(s)
    && NumberingInv(s)
    && ExtInv(s)
  }

  // ----- The registry and its snapshots -----

  ghost predicate Distinct(ids: seq<ConnId>) {
    forall i, j :: 0 <= i < j < |ids| ==> ids[i] != ids[j]
  }

  /** Ids of connections that have registered at some time. */
  ghost predicate Joiners(conns: seq<Conn>, ids: seq<ConnId>) {
    forall i :: 0 <= i < |ids| ==> ids[i] < |conns| && !Unjoined(conns[ids[i]].pc)
  }

  /** How far a shutdown request has come shows on its subscriber. */
  ghost predicate RequestFits(sub: Subscription.Sub<Item>, stage: SignalStage) {
    && (stage.Waking? || stage.Dropping? ==> sub.shutdownRequested)
    && (stage.Dropping? ==> !sub.receiverOpen)
  }

  ghost predicate RequestsFit(conns: seq<Conn>, remaining: seq<ConnId>, stage: SignalStage) {
    if remaining == [] then stage.Looking?
    else remaining[0] < |conns| && RequestFits(conns[remaining[0]].sub, stage)
  }

  /** The thread has registered and not finished. */
  predicate Participating(c: Conn) {
    !Unjoined(c.pc) && !c.pc.Finished?
  }

  ghost predicate RegistryInv(s: State) {
    && Distinct(s.registry) && Joiners(s.conns, s.registry)
    && (forall id :: 0 <= id < |s.conns| && Participating(s.conns[id]) ==> id in s.registry)
    && (s.ext.Broadcasting? ==> Distinct(s.ext.snapshot) && Joiners(s.conns, s.ext.snapshot))
    && (s.ext.HaltSignalling? ==>
          Joiners(s.conns, s.ext.remaining) && RequestsFit(s.conns, s.ext.remaining, s.ext.stage))
    && (s.main.FinalSignalling? ==>
          Joiners(s.conns, s.main.remaining) && RequestsFit(s.conns, s.main.remaining, s.main.stage))
  }

  // ----- Connections -----

  ghost predicate NumberedUpTo(items: seq<Item>, last: nat) {
    forall k :: 0 <= k < |items| ==> items[k].event.seqNo <= last
  }

  /** The joining point separates the history for good; nothing beyond the frontier has been handed out. */
  ghost predicate JoinInv(c: Conn, hist: seq<CachedEvent>, frontierSeq: nat) {
    && Splits(hist, c.joinSeq, c.joinPos) && c.joinSeq <= frontierSeq
    && NumberedUpTo(c.enqueued, frontierSeq) && NumberedUpTo(c.backfill, frontierSeq)
  }

  ghost predicate PlaceInv(c: Conn, hist: seq<CachedEvent>, published: nat) {
    && Embedded(c.enqueued, hist)
    && Spaced(c)
    && RangeFits(c, hist, published)
  }

  /** Before registration the subscriber is untouched. */
  ghost predicate FreshInv(c: Conn) {
    && (Unjoined(c.pc) ==>
          && c.sub.lag == 0 && c.sub.maxLag <= HARD_MAX_SUBSCRIBER_LAG
          && c.missed.None? && !c.sub.disconnected)
    && (BeforeRange(c.pc) ==> c.ranged == None)
    && (!BeforeRange(c.pc) && !Ended(c.pc) ==> c.ranged.Some?)
    && (c.pc.SelfSignalling? ==> RequestFits(c.sub, c.pc.stage))
  }

  ghost predicate ConnInv(c: Conn, hist: seq<CachedEvent>, published: nat, at: Progress, frontierSeq: nat) {
    && LocalInv(c)
    && FreshInv(c)
    && JoinInv(c, hist, frontierSeq)
    && PlaceInv(c, hist, published)
    && (!Unjoined(c.pc) ==> CaughtUp(c, at) && LagFits(c, at.stage))
  }

  ghost predicate ConnOk(s: State, id: ConnId)
    requires id < |s.conns|
  {
    ConnInv(s.conns[id], s.hist, s.published, ProgressOf(s, id), FrontierSeq(s))
  }

  ghost predicate Inv(s: State) {
    && CoreInv(s)
    && RegistryInv(s)
    && (forall id :: 0 <= id < |s.conns| ==> ConnOk(s, id))
  }

  // ----- One connection under each kind of change -----

  lemma ConnOffered(c: Conn, item: Item, at: Progress, hist: seq<CachedEvent>, published: nat, frontierSeq: nat)
    requires ConnInv(c, hist, published, at, frontierSeq) && !Unjoined(c.pc)
    requires published <= item.pos < |hist| && hist[item.pos] == item.event && Ordered(hist)
    requires item.event.seqNo <= frontierSeq && (at.stage.Evicting? || at.handed == item.pos)
    ensures ConnInv(Offered(c, item, at.stage), hist, published, Advanced(c, item, at), frontierSeq)
  {
    hide LocalInv, Spaced, RangeFits, CaughtUp, Embedded, Offered, Advanced;
    QueuedInRange(c);
    OfferIsNew(c, hist, published, item.pos);
    OfferedKeepsInv(c, item, at.stage);
    OfferedSpaced(c, item, at);
    OfferedCaughtUp(c, item, at);
    OfferedEmbedded(c, item, at.stage, hist);
    OfferedRangeFits(c, item, at.stage, hist, published);
    OfferedFrame(c, item, at.stage);
    OfferedNumbers(c, item, at.stage, frontierSeq);
  }

  lemma OfferedNumbers(c: Conn, item: Item, stage: OfferStage, last: nat)
    requires NumberedUpTo(c.enqueued, last) && item.event.seqNo <= last
    ensures NumberedUpTo(Offered(c, item, stage).enqueued, last)
  {}

  lemma QueuedInRange(c: Conn)
    requires LocalInv(c)
    ensures c.queuedAtRange <= |c.enqueued|
  {}

  /** The subscriber's part in broadcasts has at most shrunk. */
  predicate Narrowed(sub: Subscription.Sub<Item>, sub': Subscription.Sub<Item>) {
    && sub'.lag == sub.lag && sub'.maxLag == sub.maxLag
    && (sub'.receiverOpen ==> sub.receiverOpen) && (sub.disconnected ==> sub'.disconnected)
  }

  /** The same queue, backfill and joining point. */
  predicate SamePlace(c: Conn, c': Conn) {
    && c'.enqueued == c.enqueued && c'.backfill == c.backfill && c'.queuedAtRange == c.queuedAtRange
    && c'.joinPos == c.joinPos && c'.joinSeq == c.joinSeq && c'.ranged == c.ranged
    && c'.missed == c.missed && c'.resumeFrom == c.resumeFrom && c'.sub.maxLag == c.sub.maxLag
  }

  lemma PlaceFrame(c: Conn, c': Conn, hist: seq<CachedEvent>, published: nat)
    requires PlaceInv(c, hist, published) && SamePlace(c, c')
    ensures PlaceInv(c', hist, published)
  {
    hide Increasing, GapsWithin, Whole, Embedded, Boundary, Splits;
  }

  lemma ProgressFrame(c: Conn, c': Conn, at: Progress)
    requires CaughtUp(c, at) && LagFits(c, at.stage) && SamePlace(c, c') && Narrowed(c.sub, c'.sub)
    ensures CaughtUp(c', at) && LagFits(c', at.stage)
  {}

  /** A refused newcomer takes no part in broadcasts. */
  lemma OutsiderFits(c: Conn, c': Conn, at: Progress)
    requires FreshInv(c) && Unjoined(c.pc) && Narrowed(c.sub, c'.sub) && !c'.sub.receiverOpen
    ensures CaughtUp(c', at) && LagFits(c', at.stage)
  {}

  /** Actions that leave what was queued, its placement and the lag alone. */
  lemma ConnUntouched(c: Conn, c': Conn, hist: seq<CachedEvent>, published: nat, at: Progress, frontierSeq: nat)
    requires ConnInv(c, hist, published, at, frontierSeq) && LocalInv(c') && FreshInv(c')
    requires SamePlace(c, c') && Narrowed(c.sub, c'.sub)
    requires Unjoined(c.pc) ==> Unjoined(c'.pc) || !c'.sub.receiverOpen
    ensures ConnInv(c', hist, published, at, frontierSeq)
  {
    hide LocalInv, FreshInv, PlaceInv, CaughtUp, LagFits, Splits, NumberedUpTo, Narrowed;
    PlaceFrame(c, c', hist, published);
    if !Unjoined(c.pc) {
      ProgressFrame(c, c', at);
    } else if !Unjoined(c'.pc) {
      OutsiderFits(c, c', at);
    }
  }

  lemma ConnSignalled(c: Conn, stage: SignalStage, hist: seq<CachedEvent>, published: nat, at: Progress,
                      frontierSeq: nat)
    requires ConnInv(c, hist, published, at, frontierSeq) && !Unjoined(c.pc)
    ensures ConnInv(Signalled(c, stage), hist, published, at, frontierSeq)
  {
    assert LocalInv(Signalled(c, stage)) by {
      hide *;
      ConnLocal(c, hist, published, at, frontierSeq);
      SignalledKeepsInv(c, stage);
    }
    hide LocalInv, SignalAccess;
    SignalFrame(c.sub, stage);
    ConnUntouched(c, Signalled(c, stage), hist, published, at, frontierSeq);
  }

  lemma ConnLocal(c: Conn, hist: seq<CachedEvent>, published: nat, at: Progress, frontierSeq: nat)
    requires ConnInv(c, hist, published, at, frontierSeq)
    ensures LocalInv(c)
  {}

  /** The thread never changes the lag, and can only end its part in broadcasts. */
  lemma ActNarrows(c: Conn, a: Local)
    requires Enabled(c, a)
    ensures Narrowed(c.sub, Act(c, a).sub)
  {
    hide SignalAccess;
    if a.SignalSelf? {
      SignalFrame(c.sub, c.pc.stage);
    }
  }

  lemma ActActivity(c: Conn, a: Local)
    requires Enabled(c, a)
    ensures Unjoined(c.pc) ==> Unjoined(Act(c, a).pc) || !Act(c, a).sub.receiverOpen
    ensures !Unjoined(c.pc) ==> !Unjoined(Act(c, a).pc)
    ensures Participating(Act(c, a)) ==> Participating(c)
  {}

  lemma ActKeepsFresh(c: Conn, a: Local)
    requires Enabled(c, a) && FreshInv(c)
    ensures FreshInv(Act(c, a))
  {}

  lemma ConnActed(c: Conn, a: Local, hist: seq<CachedEvent>, published: nat, at: Progress, frontierSeq: nat)
    requires ConnInv(c, hist, published, at, frontierSeq) && Enabled(c, a)
    ensures ConnInv(Act(c, a), hist, published, at, frontierSeq)
  {
    hide Act, LocalInv, FreshInv, PlaceInv, CaughtUp, LagFits;
    ActKeepsInv(c, a);
    ActKeepsFresh(c, a);
    ActFrame(c, a);
    ActNarrows(c, a);
    ActActivity(c, a);
    if a.AcceptHandshake? {
      AcceptKeeps(c, a, hist, published, at, frontierSeq);
    } else {
      ConnUntouched(c, Act(c, a), hist, published, at, frontierSeq);
    }
  }

  lemma AcceptKeeps(c: Conn, a: Local, hist: seq<CachedEvent>, published: nat, at: Progress, frontierSeq: nat)
    requires ConnInv(c, hist, published, at, frontierSeq) && Enabled(c, a) && a.AcceptHandshake?
    requires LocalInv(Act(c, a)) && FreshInv(Act(c, a))
    ensures ConnInv(Act(c, a), hist, published, at, frontierSeq)
  {
    hide LocalInv;
  }

  lemma ConnJoined(c: Conn, hist: seq<CachedEvent>, published: nat, at: Progress, frontier: nat, frontierSeq: nat)
    requires ConnInv(c, hist, published, at, frontierSeq) && c.pc.Registering?
    requires Splits(hist, frontierSeq, frontier)
    ensures ConnInv(Joined(c, frontier, frontierSeq), hist, published, Progress(frontier, Checking), frontierSeq)
  {
    assert c.enqueued == [] && c.backfill == [];
    JoinedKeepsInv(c, frontier, frontierSeq);
    hide LocalInv;
    JoinedPlace(c, hist, published, frontier, frontierSeq);
  }

  lemma JoinedPlace(c: Conn, hist: seq<CachedEvent>, published: nat, frontier: nat, frontierSeq: nat)
    requires c.pc.Registering? && c.enqueued == [] && c.backfill == [] && FreshInv(c)
    ensures var c' := Joined(c, frontier, frontierSeq);
            && FreshInv(c') && PlaceInv(c', hist, published)
            && CaughtUp(c', Progress(frontier, Checking)) && LagFits(c', Checking)
  {}

  lemma ConnLeft(c: Conn, hist: seq<CachedEvent>, published: nat, at: Progress, frontierSeq: nat)
    requires ConnInv(c, hist, published, at, frontierSeq) && c.pc.Unregistering?
    ensures ConnInv(Left(c), hist, published, at, frontierSeq)
  {
    hide LocalInv;
    LeftKeepsInv(c);
    ConnUntouched(c, Left(c), hist, published, at, frontierSeq);
  }

  lemma ConnRangedOut(c: Conn, point: nat, hist: seq<CachedEvent>, published: nat, at: Progress, frontierSeq: nat)
    requires ConnInv(c, hist, published, at, frontierSeq) && c.pc.Ranging? && point <= U64_MAX
    ensures ConnInv(RangedOut(c, point), hist, published, at, frontierSeq)
  {
    hide LocalInv;
    RangedOutKeepsInv(c, point);
    ConnUntouched(c, RangedOut(c, point), hist, published, at, frontierSeq);
  }

  lemma RangedFits(c: Conn, backfill: seq<Item>, hist: seq<CachedEvent>)
    requires Embedded(c.enqueued, hist) && c.joinPos <= |hist|
    requires BackfillFits(c.(backfill := backfill), hist, |hist|)
    ensures RangeFits(Ranged(c, backfill, |hist|), hist, |hist|)
  {}

  /** The backfill restarts the account of what was missed at the end of the history. */
  lemma RangedSpaced(c: Conn, backfill: seq<Item>, rangeLen: nat, at: Progress)
    requires Spaced(c) && c.backfill == [] && c.ranged.None?
    ensures Spaced(Ranged(c, backfill, rangeLen))
    ensures CaughtUp(c, at) && at.handed == rangeLen ==> CaughtUp(Ranged(c, backfill, rangeLen), at)
  {
    hide Increasing, GapsWithin;
  }

  /** A served connection: everything queued so far lies before the end of the history, now a boundary. */
  lemma ConnRanged(c: Conn, backfill: seq<Item>, hist: seq<CachedEvent>, at: Progress, frontierSeq: nat)
    requires ConnInv(c, hist, |hist|, at, frontierSeq) && c.pc.Ranging? && Ordered(hist) && at.handed == |hist|
    requires BackfillFits(c.(backfill := backfill), hist, |hist|)
    requires forall i :: 0 <= i < |hist| ==> hist[i].seqNo <= frontierSeq
    ensures ConnInv(Ranged(c, backfill, |hist|), hist, |hist|, at, frontierSeq)
  {
    hide LocalInv, RangeFits, BackfillFits, Spaced, CaughtUp;
    hide Embedded, Ordered, Splits, Numbered, NumberedUpTo;
    NotServedYet(c, hist);
    RangedNumbers(c.(backfill := backfill), hist, frontierSeq);
    RangedKeepsInv(c, backfill, |hist|);
    RangedFits(c, backfill, hist);
    RangedSpaced(c, backfill, |hist|, at);
  }

  lemma NotServedYet(c: Conn, hist: seq<CachedEvent>)
    requires LocalInv(c) && c.pc.Ranging? && Splits(hist, c.joinSeq, c.joinPos)
    ensures c.backfill == [] && c.joinPos <= |hist|
  {}

  lemma RangedNumbers(c: Conn, hist: seq<CachedEvent>, last: nat)
    requires Ordered(hist) && BackfillFits(c, hist, |hist|) && forall i :: 0 <= i < |hist| ==> hist[i].seqNo <= last
    ensures Numbered(c.backfill) && NumberedUpTo(c.backfill, last)
  {}

  // ----- The history under each connection -----

  lemma ConnHistoryGrows(c: Conn, hist: seq<CachedEvent>, e: CachedEvent, published: nat, at: Progress,
                         frontierSeq: nat)
    requires ConnInv(c, hist, published, at, frontierSeq) && published <= |hist|
    requires e.seqNo > frontierSeq && forall i :: 0 <= i < published ==> hist[i].seqNo < e.seqNo
    ensures ConnInv(c, hist + [e], published, at, frontierSeq)
  {
    hide LocalInv, FreshInv, Spaced, CaughtUp, RangeFits, Embedded;
    EmbeddedGrows(c.enqueued, hist, hist + [e]);
    RangeFitsGrows(c, hist, published, e);
    SplitsGrows(hist, c.joinSeq, c.joinPos, e);
  }

  /** A batch begins or completes: more may be published, and frontiers move on. */
  lemma ConnPublished(c: Conn, hist: seq<CachedEvent>, published: nat, published': nat,
                      at: Progress, at': Progress, frontierSeq: nat, frontierSeq': nat)
    requires ConnInv(c, hist, published, at, frontierSeq)
    requires published <= published' <= |hist| && frontierSeq <= frontierSeq'
    requires at.stage.Checking? && at'.stage.Checking?
    requires Active(c) && !Unjoined(c.pc) ==> at.handed == at'.handed
    ensures ConnInv(c, hist, published', at', frontierSeq')
  {
    hide LocalInv, FreshInv, Spaced, RangeFits, Embedded;
    RangeFitsLater(c, hist, published, published');
  }
}
