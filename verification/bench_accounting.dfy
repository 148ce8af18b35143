/** What every run of the benchmark keeps, and what a successful one reports. */
module BenchAccounting {
  import opened Events
  import opened BenchRunner

  // ----- Totals over the workers -----

  datatype Weight =
    | PendingAt(idx: nat)
    | Pending
    | Samples
    | Owed(warmup: nat)
    | Uncounted
    | OwnedAt(idx: nat)
    | ToClaim

  /** The worker has claimed an index and not yet submitted it. */
  predicate Claimed(pc: Pc) {
    pc.StartCheck? || pc.StartLock? || pc.FlagSet? || pc.Stamping?
  }

  /** The worker has claimed an index and neither recorded nor dismissed it. */
  predicate Holds(pc: Pc) {
    Claimed(pc) || pc.Submitting? || pc.Completing? || pc.Failing? || pc.Aborting? || pc.Failed?
  }

  /** How many of the requests are for this index. */
  function Recorded(requests: seq<Request>, idx: nat): nat {
    if requests == [] then 0
    else Recorded(requests[..|requests| - 1], idx) + (if requests[|requests| - 1].idx == idx then 1 else 0)
  }

  function WeightOf(w: Worker, m: Weight): nat {
    match m
    case PendingAt(idx) => if Claimed(w.pc) && w.pc.idx == idx then 1 else 0
    case Pending => if Claimed(w.pc) then 1 else 0
    case Samples => |w.samples|
    case Owed(warmup) => if Holds(w.pc) && w.pc.idx >= warmup then 1 else 0
    case Uncounted => if w.pc.Counting? then 1 else 0
    case ToClaim => if w.pc.Claiming? then 1 else 0
    case OwnedAt(idx) => (if Holds(w.pc) && w.pc.idx == idx then 1 else 0) + Recorded(w.requests, idx)
  }

  function Total(ws: seq<Worker>, m: Weight): nat {
    if ws == [] then 0 else Total(ws[..|ws| - 1], m) + WeightOf(ws[|ws| - 1], m)
  }

  lemma {:induction false} TotalUpdate(ws: seq<Worker>, id: nat, w: Worker, m: Weight)
    requires id < |ws|
    ensures Total(ws[id := w], m) == Total(ws, m) - WeightOf(ws[id], m) + WeightOf(w, m)
  {
    hide WeightOf;
    var n := |ws| - 1;
    if id == n {
      assert ws[id := w][..n] == ws[..n];
    } else {
      TotalUpdate(ws[..n], id, w, m);
      assert ws[id := w][..n] == ws[..n][id := w];
    }
  }

  lemma TotalAppend(ws: seq<Worker>, w: Worker, m: Weight)
    ensures Total(ws + [w], m) == Total(ws, m) + WeightOf(w, m)
  {
    assert (ws + [w])[..|ws|] == ws;
  }

  lemma {:induction false} TotalNone(ws: seq<Worker>, m: Weight)
    requires forall i :: 0 <= i < |ws| ==> WeightOf(ws[i], m) == 0
    ensures Total(ws, m) == 0
  {
    hide WeightOf;
    if ws != [] {
      TotalNone(ws[..|ws| - 1], m);
    }
  }

  // ----- Indices: each is submitted once -----

  function Lesser(a: nat, b: nat): nat {
    if a <= b then a else b
  }

  /** Whether `idx` has been claimed. */
  function Taken(s: State, idx: nat): nat {
    if idx < s.cursor && idx < s.total then 1 else 0
  }

  function Submitted(s: State, idx: nat): nat {
    multiset(s.submissions)[idx]
  }

  /** Every index below the cursor is either submitted or about to be, once. */
  ghost predicate IndexInv(s: State) {
    && (forall idx: nat :: Submitted(s, idx) + Total(s.workers, PendingAt(idx)) == Taken(s, idx))
    && |s.submissions| + Total(s.workers, Pending) == Lesser(s.cursor, s.total)
  }

  lemma ActMovesIndex(s: State, w: Worker, a: Action, idx: nat)
    requires CanAct(s, w, a)
    ensures var s' := Shared(s, w, a);
            && Submitted(s', idx) + WeightOf(Acted(s, w, a), PendingAt(idx)) - Taken(s', idx) ==
               Submitted(s, idx) + WeightOf(w, PendingAt(idx)) - Taken(s, idx)
            && |s'.submissions| + WeightOf(Acted(s, w, a), Pending) - Lesser(s'.cursor, s'.total) ==
               |s.submissions| + WeightOf(w, Pending) - Lesser(s.cursor, s.total)
  {}

  lemma SharedFrame(s: State, w: Worker, a: Action)
    requires CanAct(s, w, a)
    ensures var s' := Shared(s, w, a); s'.total == s.total && s'.warmup == s.warmup
  {}

  lemma IndexStep(s: State, id: nat, a: Action, idx: nat)
    requires IndexInv(s) && Enabled(s, Work(id, a))
    ensures var s' := Apply(s, Work(id, a));
            && Submitted(s', idx) + Total(s'.workers, PendingAt(idx)) == Taken(s', idx)
            && |s'.submissions| + Total(s'.workers, Pending) == Lesser(s'.cursor, s'.total)
  {
    hide Acted, Shared, CanAct, WeightOf, Total, Lesser;
    var w := s.workers[id];
    ActMovesIndex(s, w, a, idx);
    TotalUpdate(s.workers, id, Acted(s, w, a), PendingAt(idx));
    TotalUpdate(s.workers, id, Acted(s, w, a), Pending);
    assert Submitted(s, idx) + Total(s.workers, PendingAt(idx)) == Taken(s, idx);
  }

  lemma WorkKeepsIndices(s: State, id: nat, a: Action)
    requires IndexInv(s) && Enabled(s, Work(id, a))
    ensures IndexInv(Apply(s, Work(id, a)))
  {
    hide Apply, CanAct, Total, Lesser, Taken, Submitted;
    var s' := Apply(s, Work(id, a));
    forall idx: nat ensures Submitted(s', idx) + Total(s'.workers, PendingAt(idx)) == Taken(s', idx) {
      IndexStep(s, id, a, idx);
    }
    IndexStep(s, id, a, 0);
  }

  // ----- Samples: each measured index is recorded once -----

  function Beyond(a: nat, b: nat): nat {
    if a <= b then 0 else a - b
  }

  /** How many indices past the warmup have been claimed. */
  function Due(s: State): nat {
    Beyond(Lesser(s.cursor, s.total), s.warmup)
  }

  /** Measured indices are recorded or still held, and recorded samples are counted or about to be. */
  ghost predicate SampleInv(s: State) {
    && Total(s.workers, Samples) + Total(s.workers, Owed(s.warmup)) == Due(s)
    && s.measured + Total(s.workers, Uncounted) == Total(s.workers, Samples)
    && (forall i :: 0 <= i < |s.workers| && s.workers[i].pc.Completing? ==> s.workers[i].pc.idx >= s.warmup)
  }

  lemma ActMovesSamples(s: State, w: Worker, a: Action)
    requires CanAct(s, w, a) && (w.pc.Completing? ==> w.pc.idx >= s.warmup)
    ensures var s', w' := Shared(s, w, a), Acted(s, w, a);
            && WeightOf(w', Samples) + WeightOf(w', Owed(s.warmup)) - Due(s') ==
               WeightOf(w, Samples) + WeightOf(w, Owed(s.warmup)) - Due(s)
            && (w'.pc.Completing? ==> w'.pc.idx >= s.warmup)
  {}

  lemma ActMovesCount(s: State, w: Worker, a: Action)
    requires CanAct(s, w, a)
    ensures var s', w' := Shared(s, w, a), Acted(s, w, a);
            s'.measured + WeightOf(w', Uncounted) - WeightOf(w', Samples) ==
            s.measured + WeightOf(w, Uncounted) - WeightOf(w, Samples)
  {}

  lemma WorkKeepsSamples(s: State, id: nat, a: Action)
    requires SampleInv(s) && Enabled(s, Work(id, a))
    ensures SampleInv(Apply(s, Work(id, a)))
  {
    hide Acted, Shared, CanAct, WeightOf, Total;
    var w := Acted(s, s.workers[id], a);
    SharedFrame(s, s.workers[id], a);
    ActMovesSamples(s, s.workers[id], a);
    ActMovesCount(s, s.workers[id], a);
    TotalUpdate(s.workers, id, w, Samples);
    TotalUpdate(s.workers, id, w, Owed(s.warmup));
    TotalUpdate(s.workers, id, w, Uncounted);
  }

  // ----- Aborting -----

  /** Why a worker stopped, and why the run is being aborted. */
  ghost predicate AbortInv(s: State) {
    && (s.abort ==> s.firstError.Some? || s.main.Unwinding? || (s.main.Returned? && s.main.result.SpawnFailed?))
    && (forall i :: 0 <= i < |s.workers| ==>
          && (s.workers[i].pc.Drained? ==> s.abort || s.cursor >= s.total)
          && (s.workers[i].pc.Aborting? || s.workers[i].pc.Failed? ==> s.firstError.Some?))
    && (s.main.Spawning? ==> s.workerCount > 0 && s.warmup < s.total)
  }

  lemma WorkKeepsAbort(s: State, id: nat, a: Action)
    requires AbortInv(s) && Enabled(s, Work(id, a))
    ensures AbortInv(Apply(s, Work(id, a)))
  {}

  // ----- Time -----

  function SumOf(samples: seq<u64>): nat {
    if samples == [] then 0 else SumOf(samples[..|samples| - 1]) + samples[|samples| - 1]
  }

  /** The latest completion the worker knows of. */
  function Latest(w: Worker): Option<nat> {
    if w.pc.Counting? then Some(w.pc.completion) else w.last
  }

  /** The worker is measuring a request that began at `began`. */
  predicate Measures(w: Worker, warmup: nat) {
    (w.pc.Submitting? || w.pc.Completing?) && w.pc.idx >= warmup
  }

  /** A worker's samples are disjoint stretches of time between the start of measurement and its latest completion. */
  ghost predicate WorkerTime(w: Worker, s: State) {
    && (w.samples != [] ==>
          s.start.Some? && Latest(w).Some? && s.start.value + SumOf(w.samples) <= Latest(w).value)
    && (Latest(w).Some? ==> Latest(w).value <= s.now)
    && (Measures(w, s.warmup) ==>
          && s.start.Some? && s.start.value <= w.pc.began <= s.now
          && (Latest(w).Some? ==> Latest(w).value <= w.pc.began))
    && (w.pc.FlagSet? || (w.pc.Stamping? && w.pc.idx >= s.warmup) ==> s.start.Some?)
    && (w.pc.Completing? ==> w.pc.idx >= s.warmup)
  }

  ghost predicate TimeInv(s: State) {
    && (s.started ==> s.start.Some?)
    && (s.start.Some? ==> s.start.value <= s.now)
    && (forall i :: 0 <= i < |s.workers| ==> WorkerTime(s.workers[i], s))
  }

  lemma SumAppend(samples: seq<u64>, x: u64)
    ensures SumOf(samples + [x]) == SumOf(samples) + x
  {
    assert (samples + [x])[..|samples|] == samples;
  }

  /** The acting worker keeps its own timing. */
  lemma ActKeepsOwnTime(s: State, w: Worker, a: Action)
    requires CanAct(s, w, a) && WorkerTime(w, s) && (s.started ==> s.start.Some?) && (s.start.Some? ==>
          s.start.value <= s.now)
    ensures WorkerTime(Acted(s, w, a), Shared(s, w, a))
  {
    hide SumOf;
    if a.Complete? {
      SumAppend(w.samples, Saturated(s.now - w.pc.began));
      NoSum();
    }
  }

  lemma NoSum()
    ensures SumOf([]) == 0
  {}

  lemma OthersKeepTime(s: State, w: Worker, a: Action, other: Worker)
    requires CanAct(s, w, a) && WorkerTime(other, s)
    ensures WorkerTime(other, Shared(s, w, a))
  {}

  lemma WorkKeepsTime(s: State, id: nat, a: Action)
    requires TimeInv(s) && Enabled(s, Work(id, a))
    ensures TimeInv(Apply(s, Work(id, a)))
  {
    hide WorkerTime, Acted;
    var s' := Apply(s, Work(id, a));
    var mid := Shared(s, s.workers[id], a);
    assert s'.start == mid.start && s'.now == mid.now && s'.warmup == mid.warmup;
    StartKept(s, s.workers[id], a);
    forall i | 0 <= i < |s'.workers| ensures WorkerTime(s'.workers[i], s') {
      if i == id {
        ActKeepsOwnTime(s, s.workers[id], a);
      } else {
        OthersKeepTime(s, s.workers[id], a, s.workers[i]);
      }
      SameTime(s'.workers[i], mid, s');
    }
  }

  lemma SameTime(w: Worker, s: State, s': State)
    requires WorkerTime(w, s) && s'.start == s.start && s'.warmup == s.warmup && s'.now >= s.now
    ensures WorkerTime(w, s')
  {}

  lemma StartKept(s: State, w: Worker, a: Action)
    requires CanAct(s, w, a) && WorkerTime(w, s) && (s.started ==> s.start.Some?) && (s.start.Some? ==>
          s.start.value <= s.now)
    ensures var s' := Shared(s, w, a); (s'.started ==> s'.start.Some?) && (s'.start.Some? ==> s'.start.value <= s'.now)
  {}

  // ----- Every run -----

  ghost predicate ResultInv(s: State) {
    s.main.Returned? && s.main.result.Ok? ==>
      && s.main.result == Result(s) && |s.workers| >= s.workerCount > 0 && s.warmup < s.total && !s.abort
      && (forall i :: 0 <= i < |s.workers| ==> Over(s.workers[i]))
  }

  ghost predicate Inv(s: State) {
    && IndexInv(s) && SampleInv(s) && AbortInv(s) && TimeInv(s) && ResultInv(s)
    && |s.workers| <= s.workerCount
  }

  lemma InitInv(total: nat, warmup: nat, workerCount: nat, now: nat)
    ensures Inv(Init(total, warmup, workerCount, now))
  {}

  lemma SpawnKeepsIndices(s: State)
    requires IndexInv(s) && Enabled(s, Spawn)
    ensures IndexInv(Apply(s, Spawn))
  {
    var w := NewWorker();
    forall idx: nat ensures Total(s.workers + [w], PendingAt(idx)) == Total(s.workers, PendingAt(idx)) {
      TotalAppend(s.workers, w, PendingAt(idx));
    }
    TotalAppend(s.workers, w, Pending);
  }

  lemma SpawnKeepsInv(s: State)
    requires Inv(s) && Enabled(s, Spawn)
    ensures Inv(Apply(s, Spawn))
  {
    hide IndexInv, Total;
    var w := NewWorker();
    SpawnKeepsIndices(s);
    TotalAppend(s.workers, w, Samples);
    TotalAppend(s.workers, w, Owed(s.warmup));
    TotalAppend(s.workers, w, Uncounted);
    forall i | 0 <= i < |s.workers| ensures WorkerTime(s.workers[i], Apply(s, Spawn)) {
      SameTime(s.workers[i], s, Apply(s, Spawn));
    }
  }

  lemma TickKeepsInv(s: State, nanos: nat)
    requires Inv(s)
    ensures Inv(Apply(s, Tick(nanos)))
  {
    hide WorkerTime, Total, Merged, End;
    var s' := Apply(s, Tick(nanos));
    forall i | 0 <= i < |s.workers| ensures WorkerTime(s.workers[i], s') {
      SameTime(s.workers[i], s, s');
    }
  }

  lemma SameWorkers(s: State, s': State)
    requires IndexInv(s) && SampleInv(s) && TimeInv(s)
    requires s' == s.(abort := s'.abort, main := s'.main)
    ensures IndexInv(s') && SampleInv(s') && TimeInv(s')
  {
    hide WorkerTime, Total;
    forall i | 0 <= i < |s.workers| ensures WorkerTime(s.workers[i], s') {
      SameTime(s.workers[i], s, s');
    }
  }

  lemma MainKeepsInv(s: State, step: Step)
    requires Inv(s) && Enabled(s, step) && (step.SpawnFails? || step.Finish?)
    ensures Inv(Apply(s, step))
  {
    hide IndexInv, SampleInv, TimeInv, Merged, End;
    SameWorkers(s, Apply(s, step));
    if step.Finish? && s.main.Spawning? && !AnyCrashed(s.workers) && s.firstError.None? {
      assert !s.abort;
    }
  }

  lemma WorkKeepsInv(s: State, id: nat, a: Action)
    requires Inv(s) && Enabled(s, Work(id, a))
    ensures Inv(Apply(s, Work(id, a)))
  {
    hide IndexInv, SampleInv, TimeInv, AbortInv;
    WorkKeepsIndices(s, id, a);
    WorkKeepsSamples(s, id, a);
    WorkKeepsAbort(s, id, a);
    WorkKeepsTime(s, id, a);
    ActFrame(s, s.workers[id], a);
  }

  lemma ActFrame(s: State, w: Worker, a: Action)
    requires CanAct(s, w, a)
    ensures !Over(w) && Shared(s, w, a).main == s.main && Shared(s, w, a).workerCount == s.workerCount
  {}

  lemma StepKeepsInv(s: State, step: Step)
    requires Inv(s) && Enabled(s, step)
    ensures Inv(Apply(s, step))
  {
    hide Inv, Apply;
    match step
    case Tick(nanos) => TickKeepsInv(s, nanos);
    case Spawn => SpawnKeepsInv(s);
    case SpawnFails => MainKeepsInv(s, step);
    case Finish => MainKeepsInv(s, step);
    case Work(id, a) => WorkKeepsInv(s, id, a);
  }

  lemma {:induction false} RunInv(run: seq<State>, i: nat)
    requires IsRun(run) && i < |run|
    ensures Inv(run[i])
  {
    hide Inv, Apply, Enabled;
    if i == 0 {
      InitInv(run[0].total, run[0].warmup, run[0].workerCount, run[0].now);
    } else {
      RunInv(run, i - 1);
      assert Next(run[i - 1], run[i]);
      var step :| Enabled(run[i - 1], step) && run[i] == Apply(run[i - 1], step);
      StepKeepsInv(run[i - 1], step);
    }
  }

  // ----- What a successful run reports -----

  /** When `run` returns Ok every worker left by exhausting the fixture. */
  lemma AllDrained(s: State)
    requires Inv(s) && s.main.Returned? && s.main.result.Ok?
    ensures s.cursor >= s.total && s.workers != []
    ensures forall i :: 0 <= i < |s.workers| ==> s.workers[i].pc.Drained? && !s.workers[i].crashed
  {
    hide IndexInv, SampleInv, TimeInv, Merged, End;
    assert s.firstError.None? && !AnyCrashed(s.workers);
    forall i | 0 <= i < |s.workers| ensures s.workers[i].pc.Drained? && !s.workers[i].crashed {
      assert Over(s.workers[i]);
    }
    assert s.workers[0].pc.Drained?;
  }

  lemma {:induction false} MergedSize(ws: seq<Worker>)
    requires forall i :: 0 <= i < |ws| ==> !ws[i].crashed
    ensures |Merged(ws)| == Total(ws, Samples)
  {
    if ws != [] {
      MergedSize(ws[..|ws| - 1]);
    }
  }

  /**
   * Accounting: whenever `run` returns Ok, in every interleaving, each payload
   * index was submitted exactly once, and the measured count and the size of the
   * merged histogram are both the number of payloads after the warmup.
   */
  lemma RunAccounting(run: seq<State>, i: nat)
    requires IsRun(run) && i < |run| && run[i].main.Returned? && run[i].main.result.Ok?
    ensures var s := run[i];
            var o := s.main.result.outcome;
            && |s.submissions| == s.total
            && (forall idx: nat :: Submitted(s, idx) == if idx < s.total then 1 else 0)
            && s.warmup < s.total
            && o.measured == |o.histogram| == s.total - s.warmup
  {
    hide IsRun, TimeInv, AbortInv, Total;
    var s := run[i];
    RunInv(run, i);
    AllDrained(s);
    forall idx: nat ensures Submitted(s, idx) == Taken(s, idx) {
      TotalNone(s.workers, PendingAt(idx));
    }
    TotalNone(s.workers, Pending);
    TotalNone(s.workers, Owed(s.warmup));
    TotalNone(s.workers, Uncounted);
    MergedSize(s.workers);
  }

  lemma {:induction false} SumConcat(a: seq<u64>, b: seq<u64>)
    ensures SumOf(a + b) == SumOf(a) + SumOf(b)
  {
    if b == [] {
      assert a + b == a;
    } else {
      SumConcat(a, b[..|b| - 1]);
      assert (a + b)[..|a + b| - 1] == a + b[..|b| - 1];
    }
  }

  lemma {:induction false} SampleWithinSum(samples: seq<u64>, k: nat)
    requires k < |samples|
    ensures samples[k] <= SumOf(samples)
  {
    if k < |samples| - 1 {
      SampleWithinSum(samples[..|samples| - 1], k);
    }
  }

  lemma {:induction false} EndIsLatest(ws: seq<Worker>, i: nat)
    requires i < |ws| && !ws[i].crashed && ws[i].last.Some?
    ensures End(ws).Some? && End(ws).value >= ws[i].last.value
  {
    if i < |ws| - 1 {
      EndIsLatest(ws[..|ws| - 1], i);
    }
  }

  /** No worker's samples add up to more than `span`. */
  ghost predicate WithinSpan(ws: seq<Worker>, span: nat) {
    forall i :: 0 <= i < |ws| ==> !ws[i].crashed && SumOf(ws[i].samples) <= span
  }

  lemma OneMore(n: nat, span: nat, a: nat, b: nat)
    requires a <= n * span && b <= span
    ensures a + b <= (n + 1) * span
  {}

  lemma {:induction false} MergedWithin(ws: seq<Worker>, span: nat)
    requires WithinSpan(ws, span)
    ensures SumOf(Merged(ws)) <= |ws| * span
  {
    hide SumOf;
    if ws == [] {
      NoSum();
    } else {
      var front, w := ws[..|ws| - 1], ws[|ws| - 1];
      MergedWithin(front, span);
      SumConcat(Merged(front), w.samples);
      OneMore(|front|, span, SumOf(Merged(front)), SumOf(w.samples));
    }
  }

  lemma {:induction false} MergedSamples(ws: seq<Worker>, span: nat, x: u64)
    requires WithinSpan(ws, span) && x in Merged(ws)
    ensures x <= span
  {
    var front, w := ws[..|ws| - 1], ws[|ws| - 1];
    if x in Merged(front) {
      MergedSamples(front, span, x);
    } else {
      var k :| 0 <= k < |w.samples| && w.samples[k] == x;
      SampleWithinSum(w.samples, k);
    }
  }

  lemma SpanOfRun(s: State)
    requires TimeInv(s)
    requires forall i :: 0 <= i < |s.workers| ==> s.workers[i].pc.Drained? && !s.workers[i].crashed
    ensures WithinSpan(s.workers, Elapsed(s.start, End(s.workers)))
  {
    hide End, SumOf;
    forall i | 0 <= i < |s.workers| ensures SumOf(s.workers[i].samples) <= Elapsed(s.start, End(s.workers)) {
      var w := s.workers[i];
      assert WorkerTime(w, s);
      if w.samples == [] {
        NoSum();
      } else {
        EndIsLatest(s.workers, i);
      }
    }
  }

  /**
   * Timing: whenever `run` returns Ok, the reported elapsed time is at least
   * every recorded sample, and the samples together take at most the elapsed
   * time once per worker.
   */
  lemma RunTiming(run: seq<State>, i: nat)
    requires IsRun(run) && i < |run| && run[i].main.Returned? && run[i].main.result.Ok?
    ensures var s := run[i];
            var o := s.main.result.outcome;
            && (forall x :: x in o.histogram ==> x <= o.elapsed)
            && SumOf(o.histogram) <= s.workerCount * o.elapsed
  {
    hide IsRun, IndexInv, SampleInv, TimeInv, Merged, End, SumOf, WithinSpan;
    var s := run[i];
    var o := s.main.result.outcome;
    RunInv(run, i);
    AllDrained(s);
    SpanOfRun(s);
    MergedWithin(s.workers, o.elapsed);
    forall x | x in o.histogram ensures x <= o.elapsed {
      MergedSamples(s.workers, o.elapsed, x);
    }
    assert |s.workers| == s.workerCount;
  }
}
