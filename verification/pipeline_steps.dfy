/** Every step of the server keeps the invariant. */
module PipelineSteps {
  import opened Events
  import opened EventCaches
  import opened Subscription
  import opened Connections
  import opened ConnectionInvariant
  import opened Placement
  import opened Pipeline
  import opened PipelineInvariant
  import Tailing

  // ----- Framing -----

  ghost predicate AllOk(s: State) {
    forall id :: 0 <= id < |s.conns| ==> ConnOk(s, id)
  }

  /** Nothing a connection depends on has changed. */
  ghost predicate SameView(s: State, s': State) {
    && s'.hist == s.hist && s'.published == s.published && FrontierSeq(s') == FrontierSeq(s)
  }

  /** The history side of the invariant does not look at connections, registry, stop flag or main thread. */
  lemma CoreFrame(s: State, s': State)
    requires CoreInv(s) && s'.cfg == s.cfg && s'.tail == s.tail && s'.cache == s.cache && s'.ext == s.ext
    requires s'.frames == s.frames && s'.batches == s.batches && s'.hist == s.hist && s'.published == s.published
    ensures CoreInv(s')
  {
    hide Ordered, CacheOf, BatchPlaced;
    BatchFrame(s, s');
  }

  lemma BatchFrame(s: State, s': State)
    requires s'.batches == s.batches && s'.hist == s.hist && s'.published == s.published
    ensures forall seqNo, batch, pushed :: BatchPlaced(s, seqNo, batch, pushed) ==>
          BatchPlaced(s', seqNo, batch, pushed)
  {}

  lemma AllOkFrame(s: State, s': State)
    requires AllOk(s) && SameView(s, s') && s'.conns == s.conns
    requires forall id :: 0 <= id < |s.conns| ==> ProgressOf(s', id) == ProgressOf(s, id)
    ensures AllOk(s')
  {
    hide ConnInv, ProgressOf;
    forall id | 0 <= id < |s'.conns| ensures ConnOk(s', id) {
      assert ConnOk(s, id);
    }
  }

  lemma AllOkExcept(s: State, s': State, id: ConnId)
    requires AllOk(s) && SameView(s, s') && id < |s.conns| == |s'.conns|
    requires forall j :: 0 <= j < |s.conns| && j != id ==> s'.conns[j] == s.conns[j]
    requires forall j :: 0 <= j < |s.conns| && j != id ==> ProgressOf(s', j) == ProgressOf(s, j)
    requires ConnOk(s', id)
    ensures AllOk(s')
  {
    hide ConnInv, ProgressOf;
    forall j | 0 <= j < |s'.conns| ensures ConnOk(s', j) {
      if j != id {
        assert ConnOk(s, j);
      }
    }
  }

  /** Joined threads stay joined, so every list of joiners stays one. */
  lemma JoinersUpdate(conns: seq<Conn>, ids: seq<ConnId>, id: ConnId, c: Conn)
    requires Joiners(conns, ids) && id < |conns| && (!Unjoined(conns[id].pc) ==> !Unjoined(c.pc))
    ensures Joiners(conns[id := c], ids)
  {}

  /** What a shutdown request relies on is never taken back. */
  predicate Steady(sub: Sub<Item>, sub': Sub<Item>) {
    (sub.shutdownRequested ==> sub'.shutdownRequested) && (sub'.receiverOpen ==> sub.receiverOpen)
  }

  lemma RequestsUpdate(conns: seq<Conn>, remaining: seq<ConnId>, stage: SignalStage, id: ConnId, c: Conn)
    requires Joiners(conns, remaining) && RequestsFit(conns, remaining, stage) && id < |conns|
    requires (!Unjoined(conns[id].pc) ==> !Unjoined(c.pc)) && Steady(conns[id].sub, c.sub)
    ensures Joiners(conns[id := c], remaining) && RequestsFit(conns[id := c], remaining, stage)
  {}

  lemma RegistryUpdate(s: State, s': State, id: ConnId, c: Conn)
    requires RegistryInv(s) && id < |s.conns| && s'.conns == s.conns[id := c]
    requires s'.registry == s.registry && s'.ext == s.ext && s'.main == s.main
    requires !Unjoined(s.conns[id].pc) ==> !Unjoined(c.pc)
    requires (Participating(c) ==> Participating(s.conns[id])) && Steady(s.conns[id].sub, c.sub)
    ensures RegistryInv(s')
  {
    hide Unjoined, Participating, Steady, RequestsFit, Joiners, Distinct;
    JoinersUpdate(s.conns, s.registry, id, c);
    if s.ext.Broadcasting? { JoinersUpdate(s.conns, s.ext.snapshot, id, c); }
    if s.ext.HaltSignalling? { RequestsUpdate(s.conns, s.ext.remaining, s.ext.stage, id, c); }
    if s.main.FinalSignalling? { RequestsUpdate(s.conns, s.main.remaining, s.main.stage, id, c); }
  }

  // ----- Steps of a connection thread -----

  lemma ThreadKeepsInv(s: State, id: ConnId, a: Local)
    requires Inv(s) && StepEnabled(s, Thread(id, a))
    ensures Inv(Apply(s, Thread(id, a)))
  {
    hide ConnInv, Act, Enabled, Unjoined, Participating, RegistryInv, CoreInv, Steady;
    var c := s.conns[id];
    var s' := Apply(s, Thread(id, a));
    assert ConnOk(s, id);
    ConnActed(c, a, s.hist, s.published, ProgressOf(s, id), FrontierSeq(s));
    ActActivity(c, a);
    ActSteady(c, a);
    CoreFrame(s, s');
    RegistryUpdate(s, s', id, Act(c, a));
    AllOkExcept(s, s', id);
  }

  lemma ActSteady(c: Conn, a: Local)
    requires Enabled(c, a)
    ensures Steady(c.sub, Act(c, a).sub)
  {
    hide SignalAccess;
    if a.SignalSelf? {
      SignalFrame(c.sub, c.pc.stage);
    }
  }

  /** A newcomer joins at a clean cut of the history. */
  lemma FrontierSplits(s: State)
    requires CoreInv(s)
    ensures Splits(s.hist, FrontierSeq(s), Frontier(s))
  {}

  lemma NotListed(conns: seq<Conn>, ids: seq<ConnId>, id: ConnId)
    requires Joiners(conns, ids) && id < |conns| && Unjoined(conns[id].pc)
    ensures id !in ids
  {}

  lemma RegisterKeepsRegistry(s: State, id: ConnId)
    requires RegistryInv(s) && StepEnabled(s, Register(id))
    ensures RegistryInv(Apply(s, Register(id)))
  {
    hide RequestsFit;
    var c := s.conns[id].(pc := Ranging, joinPos := Frontier(s), joinSeq := FrontierSeq(s));
    NotListed(s.conns, s.registry, id);
    JoinersUpdate(s.conns, s.registry, id, c);
    if s.ext.Broadcasting? { JoinersUpdate(s.conns, s.ext.snapshot, id, c); }
    if s.ext.HaltSignalling? { RequestsUpdate(s.conns, s.ext.remaining, s.ext.stage, id, c); }
    if s.main.FinalSignalling? { RequestsUpdate(s.conns, s.main.remaining, s.main.stage, id, c); }
  }

  /** Nobody who has not registered is in a snapshot. */
  lemma NewcomerHanded(s: State, id: ConnId)
    requires RegistryInv(s) && id < |s.conns| && Unjoined(s.conns[id].pc)
    ensures ProgressOf(s, id) == Progress(Frontier(s), Checking)
  {
    if s.ext.Broadcasting? { NotListed(s.conns, s.ext.snapshot, id); }
  }

  lemma ProgressFrame(s: State, s': State)
    requires s'.ext == s.ext && s'.hist == s.hist && s'.published == s.published
    ensures forall id :: ProgressOf(s', id) == ProgressOf(s, id)
  {}

  lemma RegisterKeepsInv(s: State, id: ConnId)
    requires Inv(s) && StepEnabled(s, Register(id))
    ensures Inv(Apply(s, Register(id)))
  {
    hide ConnInv, RegistryInv, CoreInv, Splits, ProgressOf;
    RegisterKeepsRegistry(s, id);
    FrontierSplits(s);
    NewcomerHanded(s, id);
    ProgressFrame(s, Apply(s, Register(id)));
    var s' := Apply(s, Register(id));
    assert ConnOk(s, id);
    ConnJoined(s.conns[id], s.hist, s.published, ProgressOf(s, id), Frontier(s), FrontierSeq(s));
    CoreFrame(s, s');
    AllOkExcept(s, s', id);
  }

  lemma {:induction false} RemoveKeeps(ids: seq<ConnId>, id: ConnId)
    ensures forall x :: x in Remove(ids, id) <==> x in ids && x != id
    ensures Distinct(ids) ==> Distinct(Remove(ids, id))
    ensures forall i :: 0 <= i < |Remove(ids, id)| ==> Remove(ids, id)[i] in ids
  {
    if ids != [] {
      var n := |ids| - 1;
      RemoveKeeps(ids[..n], id);
      assert ids == ids[..n] + [ids[n]];
    }
  }

  lemma UnregisterKeepsRegistry(s: State, id: ConnId)
    requires RegistryInv(s) && StepEnabled(s, Unregister(id))
    ensures RegistryInv(Apply(s, Unregister(id)))
  {
    hide RequestsFit;
    var c := Left(s.conns[id]);
    RemoveKeeps(s.registry, id);
    JoinersUpdate(s.conns, s.registry, id, c);
    if s.ext.Broadcasting? { JoinersUpdate(s.conns, s.ext.snapshot, id, c); }
    if s.ext.HaltSignalling? { RequestsUpdate(s.conns, s.ext.remaining, s.ext.stage, id, c); }
    if s.main.FinalSignalling? { RequestsUpdate(s.conns, s.main.remaining, s.main.stage, id, c); }
  }

  lemma UnregisterKeepsInv(s: State, id: ConnId)
    requires Inv(s) && StepEnabled(s, Unregister(id))
    ensures Inv(Apply(s, Unregister(id)))
  {
    hide ConnInv, RegistryInv, CoreInv, ProgressOf;
    var s' := Apply(s, Unregister(id));
    UnregisterKeepsRegistry(s, id);
    ProgressFrame(s, s');
    assert ConnOk(s, id);
    ConnLeft(s.conns[id], s.hist, s.published, ProgressOf(s, id), FrontierSeq(s));
    CoreFrame(s, s');
    AllOkExcept(s, s', id);
  }

  lemma SplitInRange(hist: seq<CachedEvent>, f: nat, b: nat)
    requires Splits(hist, f, b)
    ensures b <= |hist|
  {}

  lemma AnswerNumbers(hist: seq<CachedEvent>, capacity: nat, from: nat)
    requires capacity >= 1 && Ordered(hist)
    ensures Range(CacheOf(hist, capacity), from).OutOfWindow? ==>
          Range(CacheOf(hist, capacity), from).oldestAvailable <= U64_MAX
  {
    hide After;
    var k := EvictedCount(hist, capacity);
    assert k < |hist| ==> CacheOf(hist, capacity).buffer[0] == hist[k];
  }

  /** The cache's answer, tagged with positions, is the end of the history cut at the resume point. */
  lemma AnswerFits(c: Conn, cache: Cache, capacity: nat, hist: seq<CachedEvent>)
    requires capacity >= 1 && Ordered(hist) && cache == CacheOf(hist, capacity)
    ensures match Range(cache, c.resumeFrom)
            case OutOfWindow(point) => point <= U64_MAX
            case InWindow(es) => BackfillFits(c.(backfill := TailItems(es, |hist|)), hist, |hist|)
            case AtLiveTail => BackfillFits(c.(backfill := []), hist, |hist|)
  {
    hide Range, CacheOf, Ordered, Splits, After;
    var r := c.resumeFrom;
    RangeAgreesWithHistory(hist, capacity, r);
    AnswerNumbers(hist, capacity, r);
    assert hist[..|hist|] == hist;
    if r > 0 {
      var b := SplitExists(hist, r);
      AfterIsSuffix(hist, r, b);
      SplitInRange(hist, r, b);
    }
  }

  /** With the cache lock free, all that was pushed is published. */
  lemma LockFree(s: State)
    requires CoreInv(s) && !LockHeld(s)
    ensures s.published == |s.hist| && Ordered(s.hist)
    ensures s.cfg.capacity >= 1 && s.cache == CacheOf(s.hist, s.cfg.capacity)
    ensures forall i :: 0 <= i < |s.hist| ==> s.hist[i].seqNo <= FrontierSeq(s)
    ensures forall id :: ProgressOf(s, id) == Progress(|s.hist|, Checking)
  {}

  lemma RangeKeepsInv(s: State, id: ConnId)
    requires Inv(s) && StepEnabled(s, RangeCache(id))
    ensures Inv(Apply(s, RangeCache(id)))
  {
    hide ConnInv, RegistryInv, CoreInv, CacheOf, Range, BackfillFits, TailItems, ProgressOf, Ordered;
    LockFree(s);
    AnswerFits(s.conns[id], s.cache, s.cfg.capacity, s.hist);
    var s' := Apply(s, RangeCache(id));
    var c, h, q := s.conns[id], ProgressOf(s, id), FrontierSeq(s);
    assert ConnOk(s, id);
    ProgressFrame(s, s');
    match Range(s.cache, c.resumeFrom) {
      case OutOfWindow(point) => ConnRangedOut(c, point, s.hist, s.published, h, q);
      case InWindow(es) => ConnRanged(c, TailItems(es, |s.hist|), s.hist, h, q);
      case AtLiveTail => ConnRanged(c, [], s.hist, h, q);
    }
    CoreFrame(s, s');
    AnswerKeepsSub(s, c);
    RegistryUpdate(s, s', id, s'.conns[id]);
    AllOkExcept(s, s', id);
  }

  lemma AnswerKeepsSub(s: State, c: Conn)
    requires c.pc.Ranging?
    ensures RangeResult(s, c).sub == c.sub && !Unjoined(RangeResult(s, c).pc) && Participating(c)
  {
    hide Range, TailItems;
  }

  // ----- Steps of the extractor -----

  /** Steps of the extractor before and after its lock section. */
  predicate Quiet(e: ExtAction) {
    || e.CheckStop? || e.PollLog? || e.PollFails? || e.ExtractOk? || e.ExtractFails? || e.TakeLock?
    || e.HaltSnapshot? || e.HaltStop?
  }

  lemma QuietKeepsCore(s: State, e: ExtAction)
    requires CoreInv(s) && ExtEnabled(s, e) && Quiet(e)
    ensures CoreInv(ExtApply(s, e))
  {
    hide Tailing.Poll, Ordered, CacheOf;
    Tailing.PollNumbers(s.file, s.tail, s.cfg.payloadMax);
  }

  lemma QuietFrame(s: State, e: ExtAction)
    requires ExtEnabled(s, e) && Quiet(e)
    ensures var s' := ExtApply(s, e);
            && s'.conns == s.conns && s'.registry == s.registry && s'.main == s.main && SameView(s, s')
            && !s.ext.Broadcasting? && !s'.ext.Broadcasting?
            && (s'.ext.HaltSignalling? ==> s'.ext == HaltSignalling(s.registry, Looking))
  {
    hide Tailing.Poll;
  }

  lemma NewRequests(conns: seq<Conn>, ids: seq<ConnId>)
    requires Joiners(conns, ids)
    ensures RequestsFit(conns, ids, Looking)
  {}

  lemma QuietKeepsInv(s: State, e: ExtAction)
    requires Inv(s) && ExtEnabled(s, e) && Quiet(e)
    ensures Inv(ExtApply(s, e))
  {
    hide ExtApply, ConnInv, CoreInv, Joiners, Distinct;
    QuietKeepsCore(s, e);
    QuietFrame(s, e);
    NewRequests(s.conns, s.registry);
    AllOkFrame(s, ExtApply(s, e));
  }

  /** Within the loop the cache never refuses a push. */
  lemma PushNeverOutOfOrder(s: State)
    requires CoreInv(s) && ExtEnabled(s, PushOne)
    ensures var e := CachedEvent(s.ext.seqNo, s.ext.batch[s.ext.pushed]);
            && Push(s.cache, e).1 == Pushed
            && Push(s.cache, e).0 == CacheOf(s.hist + [e], s.cfg.capacity)
            && Ordered(s.hist + [e])
            && PushedOne(s).hist == s.hist + [e]
  {
    hide Push, CacheOf;
    PushSlidesWindow(s.hist, s.cfg.capacity, CachedEvent(s.ext.seqNo, s.ext.batch[s.ext.pushed]));
  }

  lemma PushKeepsCore(s: State)
    requires CoreInv(s) && ExtEnabled(s, PushOne)
    ensures CoreInv(PushedOne(s))
  {
    hide Push, CacheOf, Ordered;
    PushNeverOutOfOrder(s);
  }

  lemma PushIsNew(s: State)
    requires CoreInv(s) && ExtEnabled(s, PushOne)
    ensures s.published <= |s.hist|
    ensures s.ext.seqNo > FrontierSeq(s) && forall i :: 0 <= i < s.published ==> s.hist[i].seqNo < s.ext.seqNo
  {}

  lemma PushKeepsInv(s: State)
    requires Inv(s) && ExtEnabled(s, PushOne)
    ensures Inv(ExtApply(s, PushOne))
  {
    hide Push, ConnInv, CoreInv, Joiners, Distinct, Ordered, CacheOf;
    var e := CachedEvent(s.ext.seqNo, s.ext.batch[s.ext.pushed]);
    var s' := PushedOne(s);
    PushNeverOutOfOrder(s);
    PushKeepsCore(s);
    PushIsNew(s);
    forall id | 0 <= id < |s'.conns| ensures ConnOk(s', id) {
      assert ConnOk(s, id);
      ConnHistoryGrows(s.conns[id], s.hist, e, s.published, ProgressOf(s, id), FrontierSeq(s));
    }
  }

  /** An active joined subscriber is in the registry. */
  lemma ActiveIsRegistered(s: State, id: ConnId)
    requires RegistryInv(s) && id < |s.conns| && LocalInv(s.conns[id])
    requires Active(s.conns[id]) && !Unjoined(s.conns[id].pc)
    ensures id in s.registry
  {}

  lemma SnapshotKeepsCore(s: State)
    requires CoreInv(s) && ExtEnabled(s, TakeSnapshot)
    ensures CoreInv(ExtApply(s, TakeSnapshot))
  {
    hide Ordered, CacheOf;
  }

  lemma SnapshotKeepsRegistry(s: State)
    requires RegistryInv(s) && ExtEnabled(s, TakeSnapshot)
    ensures RegistryInv(ExtApply(s, TakeSnapshot))
  {
    hide RequestsFit, Joiners, Distinct, Participating;
  }

  lemma SnapshotKeepsInv(s: State)
    requires Inv(s) && ExtEnabled(s, TakeSnapshot)
    ensures Inv(ExtApply(s, TakeSnapshot))
  {
    hide CoreInv, RegistryInv, ConnInv, LocalInv, Active, Unjoined;
    var s' := ExtApply(s, TakeSnapshot);
    SnapshotKeepsCore(s);
    SnapshotKeepsRegistry(s);
    SnapshotSeq(s);
    forall id | 0 <= id < |s'.conns| ensures ConnOk(s', id) {
      assert ConnOk(s, id);
      var c := s.conns[id];
      ConnLocal(c, s.hist, s.published, ProgressOf(s, id), FrontierSeq(s));
      if Active(c) && !Unjoined(c.pc) {
        ActiveIsRegistered(s, id);
      }
      ConnPublished(c, s.hist, s.published, s.published, ProgressOf(s, id), ProgressOf(s', id), FrontierSeq(s),
            FrontierSeq(s'));
    }
  }

  lemma SnapshotSeq(s: State)
    requires CoreInv(s) && s.ext.Pushing?
    ensures s.published <= |s.hist| && s.ext.seqNo == |s.batches| + 1
  {}

  /** The progress of each subscriber before and after one access of an offer. */
  lemma OfferProgress(s: State)
    requires ExtEnabled(s, OfferOne) && Distinct(s.ext.snapshot)
    ensures var s' := OfferedOne(s);
            var id := s.ext.snapshot[s.ext.peer];
            && ProgressOf(s,
                  id) == Progress(s.published + s.ext.event + (if s.ext.offer.Evicting? then 1 else 0), s.ext.offer)
            && ProgressOf(s', id) == Advanced(s.conns[id], AtHand(s), ProgressOf(s, id))
            && (forall j :: j != id ==> ProgressOf(s', j) == ProgressOf(s, j))
  {
    var snap, p := s.ext.snapshot, s.ext.peer;
    assert snap[..p + 1] == snap[..p] + [snap[p]];
  }

  lemma OfferKeepsCore(s: State)
    requires CoreInv(s) && ExtEnabled(s, OfferOne)
    ensures CoreInv(OfferedOne(s))
    ensures var p := s.published + s.ext.event;
            p < |s.hist| && s.hist[p] == CachedEvent(s.ext.seqNo, s.ext.batch[s.ext.event]) && Ordered(s.hist)
  {
    hide Ordered, CacheOf, Offered, OfferAccess, BatchPlaced;
    BatchFrame(s, OfferedOne(s));
    OfferPlaced(s, s.ext.seqNo, s.ext.batch, s.ext.event);
  }

  lemma OfferPlaced(s: State, seqNo: nat, batch: seq<Bytes>, event: nat)
    requires BatchPlaced(s, seqNo, batch, |batch|) && event < |batch|
    ensures s.published + event < |s.hist| && s.hist[s.published + event] == CachedEvent(seqNo, batch[event])
  {}

  lemma OfferKeepsInv(s: State)
    requires Inv(s) && ExtEnabled(s, OfferOne)
    ensures Inv(ExtApply(s, OfferOne))
  {
    hide ConnInv, CoreInv, Offered, ProgressOf, Ordered, OfferAccess, Advanced;
    var s' := OfferedOne(s);
    var id := s.ext.snapshot[s.ext.peer];
    var c := s.conns[id];
    OfferKeepsCore(s);
    OfferProgress(s);
    assert ConnOk(s, id);
    ConnOffered(c, AtHand(s), ProgressOf(s, id), s.hist, s.published, FrontierSeq(s));
    OfferKeepsRegistry(s);
    AllOkExcept(s, s', id);
  }

  lemma OfferKeepsFlags(c: Conn, item: Item, stage: OfferStage)
    ensures Offered(c, item, stage).pc == c.pc && Steady(c.sub, Offered(c, item, stage).sub)
  {}

  lemma OfferKeepsRegistry(s: State)
    requires RegistryInv(s) && ExtEnabled(s, OfferOne)
    ensures RegistryInv(OfferedOne(s))
  {
    hide Offered, OfferAccess, Steady, RequestsFit, Joiners, Distinct;
    var id := s.ext.snapshot[s.ext.peer];
    var c := Offered(s.conns[id], AtHand(s), s.ext.offer);
    OfferKeepsFlags(s.conns[id], AtHand(s), s.ext.offer);
    JoinersUpdate(s.conns, s.registry, id, c);
    JoinersUpdate(s.conns, s.ext.snapshot, id, c);
    if s.main.FinalSignalling? { RequestsUpdate(s.conns, s.main.remaining, s.main.stage, id, c); }
  }

  lemma NextEventKeepsInv(s: State)
    requires Inv(s) && ExtEnabled(s, NextEvent)
    ensures Inv(ExtApply(s, NextEvent))
  {
    var s' := ExtApply(s, NextEvent);
    hide ConnInv, Joiners, Distinct, Ordered, CacheOf;
    assert s.ext.snapshot[..s.ext.peer] == s.ext.snapshot;
    AllOkFrame(s, s');
  }

  /** When the lock is released every subscriber has been handed the whole history. */
  lemma AllHanded(s: State, id: ConnId)
    requires CoreInv(s) && ExtEnabled(s, ReleaseLock)
    ensures ProgressOf(s, id) == Progress(|s.hist|, Checking)
    ensures FrontierSeq(s) == |s.batches| + 1
  {}

  lemma ReleaseKeepsCore(s: State)
    requires CoreInv(s) && ExtEnabled(s, ReleaseLock)
    ensures CoreInv(ExtApply(s, ReleaseLock)) && s.published <= |s.hist|
  {
    hide Ordered, CacheOf;
  }

  lemma ReleaseKeepsInv(s: State)
    requires Inv(s) && ExtEnabled(s, ReleaseLock)
    ensures Inv(ExtApply(s, ReleaseLock))
  {
    hide ConnInv, CoreInv, Joiners, Distinct;
    var s' := ExtApply(s, ReleaseLock);
    ReleaseKeepsCore(s);
    forall id | 0 <= id < |s'.conns| ensures ConnOk(s', id) {
      assert ConnOk(s, id);
      AllHanded(s, id);
      ConnPublished(s.conns[id], s.hist, s.published, s'.published,
                    ProgressOf(s, id), ProgressOf(s', id), FrontierSeq(s), FrontierSeq(s'));
    }
  }

  // ----- Shutdown signals -----

  lemma SignalKeepsFlags(c: Conn, stage: SignalStage)
    ensures Signalled(c, stage).pc == c.pc && Steady(c.sub, Signalled(c, stage).sub)
  {
    hide SignalAccess;
    SignalFrame(c.sub, stage);
  }

  lemma SignalKeepsConns(s: State, id: ConnId, stage: SignalStage)
    requires Inv(s) && id < |s.conns| && !Unjoined(s.conns[id].pc)
    ensures Inv(SignalOne(s, id, stage))
  {
    hide ConnInv, CoreInv, RegistryInv, Signalled, ProgressOf, Steady;
    var s' := SignalOne(s, id, stage);
    assert ConnOk(s, id);
    ConnSignalled(s.conns[id], stage, s.hist, s.published, ProgressOf(s, id), FrontierSeq(s));
    SignalKeepsFlags(s.conns[id], stage);
    CoreFrame(s, s');
    ProgressFrame(s, s');
    RegistryUpdate(s, s', id, Signalled(s.conns[id], stage));
    AllOkExcept(s, s', id);
  }

  /** After one access the rest of the requests are where they should be. */
  lemma RequestsAdvance(s: State, remaining: seq<ConnId>, stage: SignalStage)
    requires remaining != [] && Joiners(s.conns, remaining) && RequestsFit(s.conns, remaining, stage)
    ensures var s' := SignalOne(s, remaining[0], stage);
            var (rest, next) := Waiting(s, remaining, stage);
            Joiners(s'.conns, rest) && RequestsFit(s'.conns, rest, next)
  {
    SignalKeepsFlags(s.conns[remaining[0]], stage);
    JoinersUpdate(s.conns, remaining, remaining[0], Signalled(s.conns[remaining[0]], stage));
  }

  lemma HaltSignalKeepsInv(s: State)
    requires Inv(s) && ExtEnabled(s, HaltSignal)
    ensures Inv(ExtApply(s, HaltSignal))
  {
    hide ConnInv, Signalled, Ordered, CacheOf, Unjoined;
    hide Participating, Waiting, RequestsFit, Joiners, Distinct;
    hide CacheInv, NumberingInv, BatchPlaced;
    var id := s.ext.remaining[0];
    var m := SignalOne(s, id, s.ext.stage);
    FirstHasJoined(s.conns, s.ext.remaining);
    RequestsAdvance(s, s.ext.remaining, s.ext.stage);
    SignalKeepsConns(s, id, s.ext.stage);
    var s' := ExtApply(s, HaltSignal);
    SameHistory(m, s');
    AllOkFrame(m, s');
  }

  lemma SameHistory(s: State, s': State)
    requires s' == s.(ext := s'.ext)
    ensures (CacheInv(s) ==> CacheInv(s')) && (NumberingInv(s) ==> NumberingInv(s'))
  {
    hide Ordered, CacheOf;
  }

  // ----- Steps of the main thread -----

  lemma NewConnInv(queueDepth: nat, maxLag: nat, hist: seq<CachedEvent>, published: nat, at: Progress, frontierSeq: nat)
    requires Ordered(hist)
    ensures ConnInv(NewConn(queueDepth, maxLag), hist, published, at, frontierSeq)
  {
    NewConnLocal(queueDepth, maxLag);
    hide LocalInv;
  }

  lemma NewConnLocal(queueDepth: nat, maxLag: nat)
    ensures LocalInv(NewConn(queueDepth, maxLag))
  {}

  lemma RejectedInv(cfg: Config, ok: bool, hist: seq<CachedEvent>, published: nat, at: Progress, frontierSeq: nat)
    requires Ordered(hist)
    ensures ConnInv(Rejected(cfg, ok), hist, published, at, frontierSeq)
  {
    hide ConnInv;
    var c := NewConn(cfg.queueDepth, cfg.maxLag);
    NewConnInv(cfg.queueDepth, cfg.maxLag, hist, published, at, frontierSeq);
    ConnActed(c, AcceptHandshake(0), hist, published, at, frontierSeq);
    var waiting := Act(c, AcceptHandshake(0));
    ConnActed(waiting, RefuseAtCapacity(ok), hist, published, at, frontierSeq);
    assert Rejected(cfg, ok) == Act(waiting, RefuseAtCapacity(ok));
  }

  lemma Outsiders(cfg: Config)
    ensures !Participating(NewConn(cfg.queueDepth, cfg.maxLag)) && forall ok :: !Participating(Rejected(cfg, ok))
  {}

  lemma ArrivalKeepsInv(s: State, c: Conn)
    requires Inv(s) && ConnInv(c, s.hist, s.published, ProgressOf(s, |s.conns|), FrontierSeq(s))
    requires !Participating(c)
    ensures Inv(s.(conns := s.conns + [c], main := AcceptTop))
  {
    hide ConnInv, CoreInv, ProgressOf, Unjoined, Participating;
    var s' := s.(conns := s.conns + [c], main := AcceptTop);
    CoreFrame(s, s');
    ProgressFrame(s, s');
    forall id | 0 <= id < |s'.conns| ensures ConnOk(s', id) {
      if id < |s.conns| {
        assert ConnOk(s, id);
      }
    }
  }

  lemma MainKeepsInv(s: State, m: MainAction)
    requires Inv(s) && MainEnabled(s, m)
    ensures Inv(MainApply(s, m))
  {
    hide ConnInv, CoreInv, Signalled, ProgressOf, Waiting, RequestsFit, Joiners, Distinct, Participating;
    var s' := MainApply(s, m);
    HistoryOrdered(s);
    Outsiders(s.cfg);
    match m {
      case AcceptConn =>
        NewConnInv(s.cfg.queueDepth, s.cfg.maxLag, s.hist, s.published, ProgressOf(s, |s.conns|), FrontierSeq(s));
        ArrivalKeepsInv(s, NewConn(s.cfg.queueDepth, s.cfg.maxLag));
      case RejectConn(ok) =>
        RejectedInv(s.cfg, ok, s.hist, s.published, ProgressOf(s, |s.conns|), FrontierSeq(s));
        ArrivalKeepsInv(s, Rejected(s.cfg, ok));
      case ShutdownSignal =>
        var n := SignalOne(s, s.main.remaining[0], s.main.stage);
        FirstHasJoined(s.conns, s.main.remaining);
        SignalKeepsConns(s, s.main.remaining[0], s.main.stage);
        RequestsAdvance(s, s.main.remaining, s.main.stage);
        CoreFrame(n, s');
        ProgressFrame(n, s');
        AllOkFrame(n, s');
      case _ =>
        NewRequests(s.conns, s.registry);
        CoreFrame(s, s');
        ProgressFrame(s, s');
        AllOkFrame(s, s');
    }
  }

  lemma FirstHasJoined(conns: seq<Conn>, ids: seq<ConnId>)
    requires Joiners(conns, ids) && ids != []
    ensures ids[0] < |conns| && !Unjoined(conns[ids[0]].pc)
  {}

  lemma HistoryOrdered(s: State)
    requires CoreInv(s)
    ensures Ordered(s.hist)
  {}

  // ----- All steps, all runs -----

  lemma ExtKeepsInv(s: State, e: ExtAction)
    requires Inv(s) && ExtEnabled(s, e)
    ensures Inv(ExtApply(s, e))
  {
    hide Inv, ExtApply;
    match e
    case PushOne => PushKeepsInv(s);
    case TakeSnapshot => SnapshotKeepsInv(s);
    case OfferOne => OfferKeepsInv(s);
    case NextEvent => NextEventKeepsInv(s);
    case ReleaseLock => ReleaseKeepsInv(s);
    case HaltSignal => HaltSignalKeepsInv(s);
    case _ => QuietKeepsInv(s, e);
  }

  lemma EnvironmentKeepsInv(s: State, s': State)
    requires Inv(s) && (s' == s.(file := s'.file) || s' == s.(stop := true))
    ensures Inv(s')
  {
    hide ConnInv, CoreInv, ProgressOf, Joiners, Distinct, Participating;
    CoreFrame(s, s');
    ProgressFrame(s, s');
    AllOkFrame(s, s');
  }

  lemma StepKeepsInv(s: State, step: Step)
    requires Inv(s) && StepEnabled(s, step)
    ensures Inv(Apply(s, step))
  {
    hide Inv;
    match step
    case Append(_) => EnvironmentKeepsInv(s, Apply(s, step));
    case OperatorStop => EnvironmentKeepsInv(s, Apply(s, step));
    case Ext(e) => ExtKeepsInv(s, e);
    case Run(m) => MainKeepsInv(s, m);
    case Thread(id, a) => ThreadKeepsInv(s, id, a);
    case Register(id) => RegisterKeepsInv(s, id);
    case RangeCache(id) => RangeKeepsInv(s, id);
    case Unregister(id) => UnregisterKeepsInv(s, id);
  }

  lemma InitInv(cfg: Config)
    requires cfg.capacity >= 1
    ensures Inv(Init(cfg))
  {}

  /** Every state of every run satisfies the invariant. */
  lemma {:induction false} RunInv(run: seq<State>, i: nat)
    requires IsRun(run) && i < |run|
    ensures Inv(run[i])
  {
    hide Inv, StepEnabled, Apply, Init;
    if i == 0 {
      InitInv(run[0].cfg);
    } else {
      RunInv(run, i - 1);
      assert Next(run[i - 1], run[i - 1 + 1]);
      var step :| StepEnabled(run[i - 1], step) && run[i] == Apply(run[i - 1], step);
      StepKeepsInv(run[i - 1], step);
    }
  }

  /** In every run, every push of the extractor loop is accepted, and the cache is the window on all pushes. */
  lemma RunPushesAccepted(run: seq<State>, i: nat)
    requires IsRun(run) && i < |run|
    ensures run[i].cache == CacheOf(run[i].hist, run[i].cfg.capacity)
    ensures ExtEnabled(run[i], PushOne) ==>
              Push(run[i].cache, CachedEvent(run[i].ext.seqNo, run[i].ext.batch[run[i].ext.pushed])).1 == Pushed
  {
    hide IsRun, Push, CacheOf, ConnInv, RegistryInv;
    RunInv(run, i);
    if ExtEnabled(run[i], PushOne) {
      PushNeverOutOfOrder(run[i]);
    }
  }
}
