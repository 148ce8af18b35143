/** The push history is the log, frame by frame, through the extractor. */
module LogRefinement {
  import opened Events
  import opened EventCaches
  import opened Subscription
  import opened Connections
  import opened Pipeline
  import opened PipelineInvariant
  import opened PipelineSteps
  import opened PipelineRuns
  import ByteOrder
  import TailIntegrity
  import Tailing

  /** An extractor: its answer to a numbered frame, or None when it fails. */
  type Extract = (nat, Bytes) -> Option<seq<Bytes>>

  /** One frame's events, all carrying its number. */
  function Tagged(seqNo: nat, batch: seq<Bytes>): (es: seq<CachedEvent>)
    ensures |es| == |batch|
  {
    seq(|batch|, i requires 0 <= i < |batch| => CachedEvent(seqNo, batch[i]))
  }

  /** The events of the first frames of a log, by number, in order. */
  function Concatenation(batches: seq<seq<Bytes>>): seq<CachedEvent> {
    if batches == [] then []
    else Concatenation(batches[..|batches| - 1]) + Tagged(|batches|, batches[|batches| - 1])
  }

  // ----- The published history is the concatenation of the answers -----

  ghost predicate PublishedInv(s: State) {
    s.published <= |s.hist| && s.hist[..s.published] == Concatenation(s.batches)
  }

  lemma ReleaseKeepsPublished(s: State)
    requires CoreInv(s) && PublishedInv(s) && ExtEnabled(s, ReleaseLock)
    ensures PublishedInv(ExtApply(s, ReleaseLock))
  {
    hide Ordered, CacheOf;
    var s' := ExtApply(s, ReleaseLock);
    assert s'.batches[..|s.batches|] == s.batches;
    assert s.hist[s.published..] == Tagged(s.ext.seqNo, s.ext.batch);
    assert s.hist == s.hist[..s.published] + s.hist[s.published..];
    assert s'.hist[..s'.published] == s.hist;
  }

  lemma StepKeepsPublished(s: State, step: Step)
    requires CoreInv(s) && PublishedInv(s) && StepEnabled(s, step)
    ensures PublishedInv(Apply(s, step))
  {
    if step == Ext(ReleaseLock) {
      ReleaseKeepsPublished(s);
    } else {
      hide CoreInv;
      PublishedFrame(s, step);
      assert Apply(s, step).hist[..s.published] == s.hist[..s.published];
    }
  }

  lemma ExtFrame(s: State, e: ExtAction)
    requires ExtEnabled(s, e)
    ensures var s' := ExtApply(s, e);
            && s'.cfg == s.cfg && s'.file == s.file
            && (e != ReleaseLock ==> s'.batches == s.batches && s'.published == s.published)
            && (e != PollLog ==> s'.tail == s.tail && s'.frames == s.frames)
            && s.hist <= s'.hist
  {
    hide Tailing.Poll, Offered, OfferAccess, Signalled, Waiting, Push;
  }

  lemma PublishedFrame(s: State, step: Step)
    requires StepEnabled(s, step) && step != Ext(ReleaseLock)
    ensures var s' := Apply(s, step);
            s'.batches == s.batches && s'.published == s.published && s.hist <= s'.hist
  {
    hide ExtApply, ExtEnabled, Signalled, Act, Enabled, RangeResult, Joined, Left, Remove;
    if step.Ext? {
      ExtFrame(s, step.e);
    }
  }

  lemma InitPublished(cfg: Config)
    ensures PublishedInv(Init(cfg))
  {}

  lemma {:induction false} RunPublished(run: seq<State>, i: nat)
    requires IsRun(run) && i < |run|
    ensures PublishedInv(run[i])
  {
    hide StepEnabled, Apply, Init, PublishedInv, RegistryInv, ConnInv, CoreInv;
    if i == 0 {
      InitPublished(run[0].cfg);
    } else {
      RunPublished(run, i - 1);
      assert Next(run[i - 1], run[i - 1 + 1]);
      var step :| StepEnabled(run[i - 1], step) && run[i] == Apply(run[i - 1], step);
      RunInv(run, i - 1);
      StepKeepsPublished(run[i - 1], step);
    }
  }

  // ----- The frames read are the frames of the log -----

  /** The reader stands right behind the frames it has returned. */
  ghost predicate ReaderInv(s: State, log: seq<Bytes>) {
    && Tailing.Consumed(s.tail, log, |s.frames|)
    && s.frames == log[..|s.frames|]
    && s.tail.offset <= |s.file|
  }

  ghost predicate FitsCap(log: seq<Bytes>, max: nat) {
    forall i :: 0 <= i < |log| ==> |log[i]| <= max && |log[i]| <= U64_MAX
  }

  lemma PollKeepsReader(s: State, log: seq<Bytes>)
    requires ReaderInv(s, log) && s.file <= Tailing.EncodeAll(log) && FitsCap(log, s.cfg.payloadMax)
    ensures ReaderInv(Polled(s), log)
    ensures !Tailing.Failed(Tailing.Poll(s.file, s.tail, s.cfg.payloadMax).0)
  {
    hide Tailing.Poll, Tailing.EncodeAll;
    var k := |s.frames|;
    Tailing.PollOfLogPrefix(s.file, s.tail, s.cfg.payloadMax, log, k);
    if Tailing.Poll(s.file, s.tail, s.cfg.payloadMax).0.Frame? {
      assert log[..k + 1] == log[..k] + [log[k]];
    }
  }

  lemma StepKeepsReader(s: State, step: Step, log: seq<Bytes>)
    requires StepEnabled(s, step)
    requires ReaderInv(s, log) && s.file <= Tailing.EncodeAll(log) && FitsCap(log, s.cfg.payloadMax)
    ensures ReaderInv(Apply(s, step), log)
  {
    if step == Ext(PollLog) {
      PollKeepsReader(s, log);
    } else {
      hide Tailing.Consumed;
      ReaderFrame(s, step);
    }
  }

  lemma ReaderFrame(s: State, step: Step)
    requires StepEnabled(s, step) && step != Ext(PollLog)
    ensures var s' := Apply(s, step);
            s'.tail == s.tail && s'.frames == s.frames && s.file <= s'.file && s'.cfg == s.cfg
  {
    hide ExtApply, ExtEnabled, Signalled, Act, Enabled, RangeResult, Joined, Left, Remove;
    if step.Ext? {
      ExtFrame(s, step.e);
    }
  }

  lemma StepKeepsConfig(s: State, step: Step)
    requires StepEnabled(s, step)
    ensures Apply(s, step).cfg == s.cfg
  {
    hide ExtApply, ExtEnabled, Signalled, Act, Enabled, RangeResult, Joined, Left, Remove;
    if step.Ext? {
      ExtFrame(s, step.e);
    }
  }

  lemma InitReader(cfg: Config, log: seq<Bytes>)
    ensures ReaderInv(Init(cfg), log)
  {
    assert log[..0] == [];
  }

  lemma {:induction false} RunReader(run: seq<State>, i: nat, log: seq<Bytes>)
    requires IsRun(run) && i < |run| && run[i].file <= Tailing.EncodeAll(log)
    requires FitsCap(log, run[0].cfg.payloadMax)
    ensures ReaderInv(run[i], log) && run[i].cfg == run[0].cfg
  {
    hide StepEnabled, Apply, Init, ReaderInv, Tailing.EncodeAll;
    if i == 0 {
      InitReader(run[0].cfg, log);
    } else {
      RunHistory(run, i - 1, i);
      RunReader(run, i - 1, log);
      assert Next(run[i - 1], run[i - 1 + 1]);
      var step :| StepEnabled(run[i - 1], step) && run[i] == Apply(run[i - 1], step);
      StepKeepsReader(run[i - 1], step, log);
      StepKeepsConfig(run[i - 1], step);
    }
  }

  /** Whatever the bytes are, the frames returned are the ones the file starts with. */
  ghost predicate BytesInv(s: State) {
    s.tail.offset <= |s.file| && Tailing.EncodeAll(s.frames) == s.file[..s.tail.offset]
  }

  lemma PollKeepsBytes(s: State)
    requires BytesInv(s)
    ensures BytesInv(Polled(s))
  {
    hide Tailing.Poll, Tailing.EncodeFrame;
    var (r, t) := Tailing.Poll(s.file, s.tail, s.cfg.payloadMax);
    Tailing.PollNumbers(s.file, s.tail, s.cfg.payloadMax);
    if r.Frame? {
      Tailing.FrameMeansEncoding(s.file, s.tail, s.cfg.payloadMax);
      assert (s.frames + [r.payload])[..|s.frames|] == s.frames;
      assert s.file[..t.offset] == s.file[..s.tail.offset] + s.file[s.tail.offset..t.offset];
    }
  }

  lemma StepKeepsBytes(s: State, step: Step)
    requires StepEnabled(s, step) && BytesInv(s)
    ensures BytesInv(Apply(s, step))
  {
    hide Tailing.EncodeAll;
    if step == Ext(PollLog) {
      PollKeepsBytes(s);
    } else {
      ReaderFrame(s, step);
      assert Apply(s, step).file[..s.tail.offset] == s.file[..s.tail.offset];
    }
  }

  lemma InitBytes(cfg: Config)
    ensures BytesInv(Init(cfg))
  {}

  lemma {:induction false} FramesStartFile(run: seq<State>, i: nat)
    requires IsRun(run) && i < |run|
    ensures BytesInv(run[i])
  {
    hide StepEnabled, Apply, Init, BytesInv;
    if i == 0 {
      InitBytes(run[0].cfg);
    } else {
      FramesStartFile(run, i - 1);
      assert Next(run[i - 1], run[i - 1 + 1]);
      var step :| StepEnabled(run[i - 1], step) && run[i] == Apply(run[i - 1], step);
      StepKeepsBytes(run[i - 1], step);
    }
  }

  // ----- The answers are the extractor's -----

  /** In this run every answer the extractor gives is the one `extract` gives. */
  ghost predicate Obeys(run: seq<State>, extract: Extract) {
    forall i :: 0 <= i < |run| - 1 ==> AnswersBy(run[i], run[i + 1], extract)
  }

  ghost predicate AnswersBy(s: State, s': State, extract: Extract) {
    s.ext.Extracting? && s'.ext.Locking? ==> extract(s.ext.seqNo, s.ext.payload) == Some(s'.ext.batch)
  }

  /** The batch at hand, if the extractor has answered. */
  ghost predicate BatchAnswers(s: State, extract: Extract) {
    match s.ext
    case Extracting(seqNo, payload) => 1 <= seqNo <= |s.frames| && payload == s.frames[seqNo - 1]
    case Locking(seqNo, batch) => 1 <= seqNo <= |s.frames| && extract(seqNo, s.frames[seqNo - 1]) == Some(batch)
    case Pushing(seqNo, batch, _) => 1 <= seqNo <= |s.frames| && extract(seqNo, s.frames[seqNo - 1]) == Some(batch)
    case Broadcasting(seqNo, batch, _, _, _, _) =>
      1 <= seqNo <= |s.frames| && extract(seqNo, s.frames[seqNo - 1]) == Some(batch)
    case _ => true
  }

  ghost predicate AnswersInv(s: State, extract: Extract) {
    && |s.batches| <= |s.frames|
    && (forall k :: 0 <= k < |s.batches| ==> extract(k + 1, s.frames[k]) == Some(s.batches[k]))
    && BatchAnswers(s, extract)
  }

  lemma ExtKeepsAnswers(s: State, e: ExtAction, extract: Extract)
    requires CoreInv(s) && AnswersInv(s, extract) && ExtEnabled(s, e)
    requires AnswersBy(s, ExtApply(s, e), extract)
    ensures AnswersInv(ExtApply(s, e), extract)
  {
    hide Tailing.Poll, Offered, OfferAccess, Signalled, Waiting, Push, Ordered, CacheOf;
    Tailing.PollNumbers(s.file, s.tail, s.cfg.payloadMax);
  }

  lemma StepKeepsAnswers(s: State, step: Step, extract: Extract)
    requires CoreInv(s) && AnswersInv(s, extract) && StepEnabled(s, step)
    requires AnswersBy(s, Apply(s, step), extract)
    ensures AnswersInv(Apply(s, step), extract)
  {
    hide CoreInv, ExtApply, ExtEnabled, Signalled, Act, Enabled, RangeResult, Joined, Left, Remove, AnswersBy;
    if step.Ext? {
      ExtKeepsAnswers(s, step.e, extract);
    }
  }

  lemma InitAnswers(cfg: Config, extract: Extract)
    ensures AnswersInv(Init(cfg), extract)
  {}

  lemma {:induction false} RunAnswers(run: seq<State>, i: nat, extract: Extract)
    requires IsRun(run) && i < |run| && Obeys(run, extract)
    ensures AnswersInv(run[i], extract)
  {
    hide StepEnabled, Apply, Init, AnswersInv, AnswersBy, RegistryInv, ConnInv, CoreInv;
    if i == 0 {
      InitAnswers(run[0].cfg, extract);
    } else {
      RunAnswers(run, i - 1, extract);
      assert Next(run[i - 1], run[i - 1 + 1]);
      assert AnswersBy(run[i - 1], run[i - 1 + 1], extract);
      var step :| StepEnabled(run[i - 1], step) && run[i] == Apply(run[i - 1], step);
      RunInv(run, i - 1);
      StepKeepsAnswers(run[i - 1], step, extract);
    }
  }

  // ----- The whole pipeline -----

  /** The specification: the answers of `extract` to the first `k` frames of the log, concatenated. */
  function Specified(log: seq<Bytes>, extract: Extract, k: nat): seq<CachedEvent>
    requires k <= |log|
  {
    if k == 0 then []
    else Specified(log, extract, k - 1)
         + (match extract(k, log[k - 1]) case None => [] case Some(batch) => Tagged(k, batch))
  }

  lemma {:induction false} ConcatenationIsSpecified(batches: seq<seq<Bytes>>, log: seq<Bytes>, extract: Extract)
    requires |batches| <= |log|
    requires forall k :: 0 <= k < |batches| ==> extract(k + 1, log[k]) == Some(batches[k])
    ensures Concatenation(batches) == Specified(log, extract, |batches|)
  {
    if batches != [] {
      ConcatenationIsSpecified(batches[..|batches| - 1], log, extract);
    }
  }

  lemma FramesRead(s: State)
    requires CoreInv(s)
    ensures |s.batches| <= |s.frames| <= |s.batches| + 1 && s.published <= |s.hist|
    ensures !LockHeld(s) ==> s.published == |s.hist|
    ensures LockHeld(s) ==> |s.frames| == |s.batches| + 1
  {}

  /** In the lock section, what has been pushed of the batch at hand is the beginning of the extractor's answer. */
  lemma LockedHistory(s: State, extract: Extract)
    requires CoreInv(s) && LockHeld(s) && BatchAnswers(s, extract) && |s.frames| == |s.batches| + 1
    requires s.hist[..s.published] == Specified(s.frames, extract, |s.batches|)
    ensures s.hist <= Specified(s.frames, extract, |s.frames|)
    ensures s.ext.Broadcasting? ==> s.hist == Specified(s.frames, extract, |s.frames|)
  {
    hide CacheInv, NumberingInv, FrameCount, Tagged, Specified;
    var k := |s.batches|;
    var done := |s.hist| - s.published;
    PushedPart(s, k + 1, s.ext.batch, done);
    OneMoreAnswer(s.frames, extract, k, s.ext.batch);
    assert s.hist == s.hist[..s.published] + s.hist[s.published..];
  }

  lemma PushedPart(s: State, seqNo: nat, batch: seq<Bytes>, pushed: nat)
    requires BatchPlaced(s, seqNo, batch, pushed)
    ensures s.published <= |s.hist| && s.hist[s.published..] == Tagged(seqNo, batch)[..pushed]
  {}

  lemma OneMoreAnswer(frames: seq<Bytes>, extract: Extract, k: nat, batch: seq<Bytes>)
    requires k < |frames| && extract(k + 1, frames[k]) == Some(batch)
    ensures Specified(frames, extract, k + 1) == Specified(frames, extract, k) + Tagged(k + 1, batch)
  {}

  lemma {:induction false} SpecifiedGrows(frames: seq<Bytes>, extract: Extract, j: nat, k: nat)
    requires j <= k <= |frames|
    ensures Specified(frames, extract, j) <= Specified(frames, extract, k)
  {
    if j < k {
      SpecifiedGrows(frames, extract, j, k - 1);
    }
  }

  /**
   * Pipeline refinement: whatever bytes the file holds and whatever I/O errors,
   * corruption, halts and interleavings occur, the frames read are the ones the
   * file starts with, and the published history is the in-order concatenation of
   * the extractor's answers to frames 1..k, none skipped or repeated. Only the
   * lock section goes beyond: its history is a prefix of the answers to frames
   * 1..k+1, and all of them while it broadcasts.
   */
  lemma PipelineRefinesLog(run: seq<State>, i: nat, extract: Extract)
    requires IsRun(run) && i < |run| && Obeys(run, extract)
    ensures var s := run[i];
            var k := |s.batches|;
            && s.tail.offset <= |s.file| && Tailing.EncodeAll(s.frames) == s.file[..s.tail.offset]
            && k <= |s.frames| <= k + 1 && s.published <= |s.hist|
            && s.hist[..s.published] == Specified(s.frames, extract, k)
            && (!LockHeld(s) ==> s.hist == Specified(s.frames, extract, k))
            && (s.ext.Broadcasting? ==> s.hist == Specified(s.frames, extract, |s.frames|))
            && s.hist <= Specified(s.frames, extract, |s.frames|)
  {
    hide IsRun, Tailing.EncodeAll, CoreInv, RegistryInv, ConnInv, BatchAnswers, Specified, Concatenation;
    var s := run[i];
    RunInv(run, i);
    RunPublished(run, i);
    FramesStartFile(run, i);
    RunAnswers(run, i, extract);
    FramesRead(s);
    ConcatenationIsSpecified(s.batches, s.frames, extract);
    if LockHeld(s) {
      LockedHistory(s, extract);
    } else {
      assert s.hist[..|s.hist|] == s.hist;
      SpecifiedGrows(s.frames, extract, |s.batches|, |s.frames|);
    }
  }

  /** While the file is a byte prefix of a valid log, the frames read are the first ones of that log. */
  lemma ValidLogIsFollowed(run: seq<State>, i: nat, log: seq<Bytes>)
    requires IsRun(run) && i < |run|
    requires run[i].file <= Tailing.EncodeAll(log) && FitsCap(log, run[0].cfg.payloadMax)
    ensures run[i].frames <= log
    ensures !Tailing.Failed(Tailing.Poll(run[i].file, run[i].tail, run[i].cfg.payloadMax).0)
  {
    hide IsRun, Tailing.EncodeAll, Tailing.Poll;
    RunReader(run, i, log);
    PollKeepsReader(run[i], log);
  }

  // ----- A halted extractor -----

  /** The extractor has given up on the log or stopped. */
  predicate Halted(ext: Extractor) {
    ext.Halting? || ext.HaltSignalling? || ext.Stopped?
  }

  lemma StepKeepsHalted(s: State, step: Step)
    requires StepEnabled(s, step) && Halted(s.ext)
    ensures var s' := Apply(s, step);
            Halted(s'.ext) && s'.hist == s.hist && s'.frames == s.frames && s'.batches == s.batches
  {
    hide Tailing.Poll, Offered, OfferAccess, Signalled, Waiting, Push;
    hide Act, Enabled, RangeResult, Joined, Left, Remove;
  }

  /** Once halted, the extractor reads and publishes nothing more. */
  lemma {:induction false} HaltIsFinal(run: seq<State>, i: nat, j: nat)
    requires IsRun(run) && i <= j < |run| && Halted(run[i].ext)
    ensures Halted(run[j].ext) && run[j].hist == run[i].hist && run[j].frames == run[i].frames
  {
    hide StepEnabled, Apply, Init;
    if i < j {
      HaltIsFinal(run, i, j - 1);
      assert Next(run[j - 1], run[j - 1 + 1]);
      var step :| StepEnabled(run[j - 1], step) && run[j] == Apply(run[j - 1], step);
      StepKeepsHalted(run[j - 1], step);
    }
  }

  /**
   * tail.rs:32-37 says that a frame whose trailer does not match is retried on
   * the next poll. In the code the poll that meets it halts the extractor.
   */
  lemma CorruptFrameHalts(s: State, payload: Bytes, trailer: Bytes)
    requires ExtEnabled(s, PollLog) && |payload| <= s.cfg.payloadMax && |payload| <= U64_MAX && |trailer| == 8
    requires s.tail.offset + Tailing.FrameLen(payload) <= |s.file|
    requires s.file[s.tail.offset..s.tail.offset + Tailing.FrameLen(payload)] ==
             Tailing.MAGIC + ByteOrder.LE(|payload|, 8) + payload + trailer
    ensures ExtApply(s, PollLog).ext.Halting? <==> ByteOrder.FromLE(trailer) != Tailing.Fnv(payload)
    ensures !ExtApply(s, PollLog).ext.Halting? ==> ExtApply(s, PollLog).ext == Extracting(s.tail.nextSeq, payload)
  {
    hide Tailing.Poll, Tailing.Fnv, ByteOrder.LE, ByteOrder.FromLE;
    Tailing.CompleteFrameDecided(s.file, s.tail, s.cfg.payloadMax, payload, trailer);
  }

  /** A poll of a file that shrank, or of a header with another magic or a length past the bound, halts too. */
  lemma CorruptHeaderHalts(s: State)
    requires ExtEnabled(s, PollLog)
    requires || |s.file| < s.tail.offset
             || (&& s.tail.offset + Tailing.FRAME_HEADER_LEN <= |s.file|
                 && TailIntegrity.BadHeader(s.file[s.tail.offset..s.tail.offset + Tailing.FRAME_HEADER_LEN],
                                            s.cfg.payloadMax))
    ensures ExtApply(s, PollLog) == s.(ext := Halting)
  {
    hide Tailing.Poll, TailIntegrity.BadHeader;
    TailIntegrity.HeaderDecides(s.file, s.tail, s.cfg.payloadMax);
  }

  /** An incomplete header or frame is waited for, and changes nothing else. */
  lemma PendingWaits(s: State, payload: Bytes)
    requires ExtEnabled(s, PollLog) && |payload| <= s.cfg.payloadMax && |payload| <= U64_MAX
    requires s.tail.offset <= |s.file| < s.tail.offset + Tailing.FrameLen(payload)
    requires s.file[s.tail.offset..] <= Tailing.EncodeFrame(payload)
    ensures ExtApply(s, PollLog) == s.(ext := LoopTop)
  {
    hide Tailing.Poll, Tailing.EncodeFrame;
    Tailing.TornFramePends(s.file, s.tail, s.cfg.payloadMax, payload);
  }

  /** A log frame with one byte of its payload changed never reaches the extractor. */
  lemma ChangedByteHalts(s: State, payload: Bytes, i: nat, b: uint8)
    requires ExtEnabled(s, PollLog) && |payload| <= s.cfg.payloadMax && |payload| <= U64_MAX
    requires i < |payload| && b != payload[i] && s.tail.offset + Tailing.FrameLen(payload) <= |s.file|
    requires s.file[s.tail.offset..s.tail.offset + Tailing.FrameLen(payload)] ==
             Tailing.EncodeFrame(payload)[Tailing.FRAME_HEADER_LEN + i := b]
    ensures ExtApply(s, PollLog) == s.(ext := Halting)
  {
    hide Tailing.Poll, Tailing.Fnv;
    TailIntegrity.ChangedByteCaught(s.file, s.tail, s.cfg.payloadMax, payload, i, b);
  }
}
