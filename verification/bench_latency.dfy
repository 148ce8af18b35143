/** What the reported latencies and the reported verdict of a benchmark run mean (canon-bench, runner.rs). */
module BenchLatency {
  import opened Events
  import opened BenchRunner
  import opened BenchAccounting

  // ----- Each sample is the time of one request -----

  /** The worker's samples are the durations of its requests, all within the measured span. */
  ghost predicate Timed(w: Worker, warmup: nat, start: Option<nat>) {
    && |w.samples| == |w.requests|
    && Latest(w) == (if w.requests == [] then None else Some(w.requests[|w.requests| - 1].completion))
    && (forall j :: 0 <= j < |w.requests| ==>
          && w.requests[j].idx >= warmup && start.Some?
          && start.value <= w.requests[j].began <= w.requests[j].completion <= Latest(w).value
          && w.samples[j] == Saturated(w.requests[j].completion - w.requests[j].began))
  }

  ghost predicate LatencyInv(s: State) {
    && (forall i :: 0 <= i < |s.workers| ==> Timed(s.workers[i], s.warmup, s.start))
    && (forall idx: nat :: idx >= s.warmup ==> Total(s.workers, OwnedAt(idx)) == Taken(s, idx))
  }

  lemma ActTimed(s: State, w: Worker, a: Action)
    requires CanAct(s, w, a) && WorkerTime(w, s) && Timed(w, s.warmup, s.start)
    ensures Timed(Acted(s, w, a), s.warmup, Shared(s, w, a).start)
  {
    hide SumOf;
  }

  lemma OthersTimed(s: State, w: Worker, a: Action, other: Worker)
    requires CanAct(s, w, a) && Timed(other, s.warmup, s.start)
    ensures Timed(other, s.warmup, Shared(s, w, a).start)
  {}

  lemma RecordedAppend(requests: seq<Request>, q: Request, idx: nat)
    ensures Recorded(requests + [q], idx) == Recorded(requests, idx) + (if q.idx == idx then 1 else 0)
  {
    assert (requests + [q])[..|requests|] == requests;
  }

  lemma ActMovesOwned(s: State, w: Worker, a: Action, idx: nat)
    requires CanAct(s, w, a) && idx >= s.warmup
    ensures WeightOf(Acted(s, w, a), OwnedAt(idx)) - Taken(Shared(s, w, a), idx) ==
            WeightOf(w, OwnedAt(idx)) - Taken(s, idx)
  {
    if a.Complete? {
      RecordedAppend(w.requests, Request(w.pc.idx, w.pc.began, s.now), idx);
    }
    hide Recorded;
  }

  lemma WorkKeepsOwned(s: State, id: nat, a: Action, idx: nat)
    requires Enabled(s, Work(id, a)) && idx >= s.warmup && Total(s.workers, OwnedAt(idx)) == Taken(s, idx)
    ensures var s' := Apply(s, Work(id, a)); Total(s'.workers, OwnedAt(idx)) == Taken(s', idx)
  {
    hide Acted, Shared, CanAct, WeightOf, Total;
    ActMovesOwned(s, s.workers[id], a, idx);
    TotalUpdate(s.workers, id, Acted(s, s.workers[id], a), OwnedAt(idx));
  }

  lemma WorkKeepsTimed(s: State, id: nat, a: Action, i: nat)
    requires Enabled(s, Work(id, a)) && TimeInv(s) && i < |s.workers|
    requires Timed(s.workers[i], s.warmup, s.start)
    ensures var s' := Apply(s, Work(id, a));
            i < |s'.workers| && Timed(s'.workers[i], s'.warmup, s'.start)
  {
    hide Acted, Shared, CanAct, WorkerTime, Timed;
    SharedFrame(s, s.workers[id], a);
    if i == id {
      assert WorkerTime(s.workers[id], s);
      ActTimed(s, s.workers[id], a);
    } else {
      OthersTimed(s, s.workers[id], a, s.workers[i]);
    }
  }

  lemma WorkKeepsLatency(s: State, id: nat, a: Action)
    requires LatencyInv(s) && TimeInv(s) && Enabled(s, Work(id, a))
    ensures LatencyInv(Apply(s, Work(id, a)))
  {
    hide CanAct, Timed, Total, Taken, TimeInv;
    var s' := Apply(s, Work(id, a));
    SharedFrame(s, s.workers[id], a);
    forall i | 0 <= i < |s'.workers| ensures Timed(s'.workers[i], s'.warmup, s'.start) {
      WorkKeepsTimed(s, id, a, i);
    }
    forall idx: nat | idx >= s'.warmup ensures Total(s'.workers, OwnedAt(idx)) == Taken(s', idx) {
      WorkKeepsOwned(s, id, a, idx);
    }
  }

  lemma SpawnKeepsLatency(s: State)
    requires LatencyInv(s) && Enabled(s, Spawn)
    ensures LatencyInv(Apply(s, Spawn))
  {
    hide Total;
    forall idx: nat | idx >= s.warmup
      ensures Total(s.workers + [NewWorker()], OwnedAt(idx)) == Total(s.workers, OwnedAt(idx))
    {
      TotalAppend(s.workers, NewWorker(), OwnedAt(idx));
    }
  }

  lemma StepKeepsLatency(s: State, step: Step)
    requires LatencyInv(s) && TimeInv(s) && Enabled(s, step)
    ensures LatencyInv(Apply(s, step))
  {
    if step.Work? {
      hide LatencyInv, TimeInv, Apply;
      WorkKeepsLatency(s, step.id, step.a);
    } else if step.Spawn? {
      SpawnKeepsLatency(s);
    } else {
      hide Timed, Total, Result;
    }
  }

  lemma {:induction false} RunLatencyInv(run: seq<State>, i: nat)
    requires IsRun(run) && i < |run|
    ensures LatencyInv(run[i])
  {
    if i > 0 {
      hide LatencyInv, Apply, Enabled, IndexInv, SampleInv, AbortInv, TimeInv, ResultInv;
      RunLatencyInv(run, i - 1);
      RunInv(run, i - 1);
      assert Next(run[i - 1], run[i - 1 + 1]);
      var step :| Enabled(run[i - 1], step) && run[i] == Apply(run[i - 1], step);
      StepKeepsLatency(run[i - 1], step);
    }
  }

  // ----- Stamp and completion are readings of the clock in the run -----

  /** Between `k` and `k + 1` worker `id` read the clock and submitted the index. */
  predicate Stamped(run: seq<State>, k: nat, id: nat, idx: nat, began: nat) {
    && k + 1 < |run| && id < |run[k].workers| && id < |run[k + 1].workers| && run[k].now == began
    && run[k].workers[id].pc == Stamping(idx) && run[k + 1].workers[id].pc == Submitting(idx, began)
    && run[k + 1].submissions == run[k].submissions + [idx]
  }

  /** Between `k` and `k + 1` worker `id` read the clock because the submission had succeeded. */
  predicate Completed(run: seq<State>, k: nat, id: nat, idx: nat, completion: nat) {
    && k + 1 < |run| && id < |run[k].workers| && id < |run[k + 1].workers| && run[k].now == completion
    && run[k].workers[id].pc.Completing? && run[k].workers[id].pc.idx == idx
    && run[k + 1].workers[id].pc.Counting?
  }

  ghost predicate Happened(run: seq<State>, i: nat, id: nat, q: Request) {
    exists k, l :: 0 <= k < l < i && Stamped(run, k, id, q.idx, q.began) && Completed(run, l, id, q.idx, q.completion)
  }

  /** What one step can do to a worker's measurement. */
  ghost predicate Measured(s: State, s': State, w: Worker, w': Worker) {
    && (w'.pc.Submitting? || w'.pc.Completing? ==>
          || ((w.pc.Submitting? || w.pc.Completing?) && w.pc.idx == w'.pc.idx && w.pc.began == w'.pc.began)
          || (&& w.pc == Stamping(w'.pc.idx) && w'.pc == Submitting(w.pc.idx, s.now)
              && s'.submissions == s.submissions + [w.pc.idx]))
    && (|| w'.requests == w.requests
        || (&& w.pc.Completing? && w'.pc.Counting?
            && w'.requests == w.requests + [Request(w.pc.idx, w.pc.began, s.now)]))
  }

  lemma ActMeasures(s: State, w: Worker, a: Action)
    requires CanAct(s, w, a)
    ensures Measured(s, Shared(s, w, a), w, Acted(s, w, a))
  {}

  lemma StepMeasures(s: State, step: Step, id: nat)
    requires Enabled(s, step) && id < |s.workers|
    ensures id < |Apply(s, step).workers| && Measured(s, Apply(s, step), s.workers[id], Apply(s, step).workers[id])
  {
    hide Result, Acted, Shared, CanAct;
    if step.Work? {
      ActMeasures(s, s.workers[step.id], step.a);
    }
  }

  lemma {:induction false} StampOf(run: seq<State>, i: nat, id: nat) returns (k: nat)
    requires IsRun(run) && i < |run| && id < |run[i].workers|
    requires run[i].workers[id].pc.Submitting? || run[i].workers[id].pc.Completing?
    ensures k < i && Stamped(run, k, id, run[i].workers[id].pc.idx, run[i].workers[id].pc.began)
  {
    hide Apply, Enabled;
    assert i > 0;
    assert Next(run[i - 1], run[i - 1 + 1]);
    var step :| Enabled(run[i - 1], step) && run[i] == Apply(run[i - 1], step);
    if id < |run[i - 1].workers| {
      StepMeasures(run[i - 1], step, id);
      var pc := run[i - 1].workers[id].pc;
      if pc.Submitting? || pc.Completing? {
        k := StampOf(run, i - 1, id);
      } else {
        k := i - 1;
      }
    } else {
      NewcomersIdle(run[i - 1], step, id);
      assert false;
    }
  }

  lemma NewcomersIdle(s: State, step: Step, id: nat)
    requires Enabled(s, step) && |s.workers| <= id < |Apply(s, step).workers|
    ensures Apply(s, step).workers[id] == NewWorker()
  {
    hide Result;
  }

  lemma {:induction false} RequestsHappened(run: seq<State>, i: nat, id: nat, j: nat)
    requires IsRun(run) && i < |run| && id < |run[i].workers| && j < |run[i].workers[id].requests|
    ensures Happened(run, i, id, run[i].workers[id].requests[j])
  {
    hide Apply, Enabled;
    assert i > 0;
    assert Next(run[i - 1], run[i - 1 + 1]);
    var step :| Enabled(run[i - 1], step) && run[i] == Apply(run[i - 1], step);
    if id < |run[i - 1].workers| {
      StepMeasures(run[i - 1], step, id);
      if j < |run[i - 1].workers[id].requests| {
        RequestsHappened(run, i - 1, id, j);
      } else {
        var k := StampOf(run, i - 1, id);
        var q := run[i].workers[id].requests[j];
        assert Completed(run, i - 1, id, q.idx, q.completion);
      }
    } else {
      NewcomersIdle(run[i - 1], step, id);
      assert false;
    }
  }

  // ----- The merged histogram -----

  function AllRequests(ws: seq<Worker>): seq<Request> {
    if ws == [] then [] else AllRequests(ws[..|ws| - 1]) + ws[|ws| - 1].requests
  }

  lemma {:induction false} RecordedConcat(a: seq<Request>, b: seq<Request>, idx: nat)
    ensures Recorded(a + b, idx) == Recorded(a, idx) + Recorded(b, idx)
  {
    if b == [] {
      assert a + b == a;
    } else {
      RecordedConcat(a, b[..|b| - 1], idx);
      assert (a + b)[..|a + b| - 1] == a + b[..|b| - 1];
    }
  }

  lemma {:induction false} AllRecorded(ws: seq<Worker>, idx: nat)
    requires forall i :: 0 <= i < |ws| ==> ws[i].pc.Drained?
    ensures Recorded(AllRequests(ws), idx) == Total(ws, OwnedAt(idx))
  {
    if ws != [] {
      hide Recorded;
      AllRecorded(ws[..|ws| - 1], idx);
      RecordedConcat(AllRequests(ws[..|ws| - 1]), ws[|ws| - 1].requests, idx);
    } else {
      assert Recorded([], idx) == 0;
    }
  }

  lemma {:induction false} RecordedHas(requests: seq<Request>, j: nat)
    requires j < |requests|
    ensures Recorded(requests, requests[j].idx) >= 1
  {
    if j < |requests| - 1 {
      RecordedHas(requests[..|requests| - 1], j);
    }
  }

  lemma {:induction false} RecordedTwice(requests: seq<Request>, j: nat, k: nat)
    requires j < k < |requests| && requests[j].idx == requests[k].idx
    ensures Recorded(requests, requests[j].idx) >= 2
  {
    var n := |requests| - 1;
    if k < n {
      RecordedTwice(requests[..n], j, k);
    } else {
      RecordedHas(requests[..n], j);
    }
  }

  lemma {:induction false} MergedSizes(ws: seq<Worker>)
    requires forall i :: 0 <= i < |ws| ==> !ws[i].crashed && |ws[i].samples| == |ws[i].requests|
    ensures |Merged(ws)| == |AllRequests(ws)|
  {
    if ws != [] {
      MergedSizes(ws[..|ws| - 1]);
    }
  }

  /** The merged samples and all requests are in the same order: each pair comes from one place of one worker. */
  lemma {:induction false} MergedFrom(ws: seq<Worker>, j: nat) returns (i: nat, m: nat)
    requires forall i :: 0 <= i < |ws| ==> !ws[i].crashed && |ws[i].samples| == |ws[i].requests|
    requires j < |Merged(ws)| == |AllRequests(ws)|
    ensures i < |ws| && m < |ws[i].requests|
    ensures AllRequests(ws)[j] == ws[i].requests[m] && Merged(ws)[j] == ws[i].samples[m]
  {
    var n := |ws| - 1;
    MergedSizes(ws[..n]);
    if j < |Merged(ws[..n])| {
      i, m := MergedFrom(ws[..n], j);
    } else {
      i, m := n, j - |Merged(ws[..n])|;
    }
  }

  /** A request as the run shows it: measured by some worker, within the span that begins at `start`. */
  ghost predicate Genuine(run: seq<State>, i: nat, q: Request, start: nat) {
    start <= q.began <= q.completion && exists id: nat :: Happened(run, i, id, q)
  }

  /**
   * The histogram means what it says: whenever `run` returns Ok, its samples are
   * the durations, saturated at 64 bits, of requests that happened in the run,
   * one for each index past the warmup and none for any other. Each duration lies
   * between the worker's reading of the clock as it submitted that index and its
   * reading when that submission had succeeded.
   */
  lemma SamplesAreLatencies(run: seq<State>, i: nat) returns (requests: seq<Request>)
    requires IsRun(run) && i < |run| && run[i].main.Returned? && run[i].main.result.Ok?
    ensures var s, histogram := run[i], run[i].main.result.outcome.histogram;
            && s.start.Some? && |requests| == |histogram| == s.total - s.warmup
            && (forall j :: 0 <= j < |requests| ==>
                  && s.warmup <= requests[j].idx < s.total && Genuine(run, i, requests[j], s.start.value)
                  && var nanos := requests[j].completion - requests[j].began;
                     histogram[j] == if nanos <= U64_MAX then nanos else U64_MAX)
            && (forall j, k :: 0 <= j < k < |requests| ==> requests[j].idx != requests[k].idx)
  {
    hide IsRun, IndexInv, SampleInv, AbortInv, TimeInv, Merged, End, AllRequests, Recorded, Total, Genuine, Timed;
    var s := run[i];
    requests := AllRequests(s.workers);
    RunInv(run, i);
    RunLatencyInv(run, i);
    AllDrained(s);
    RunAccounting(run, i);
    forall w | 0 <= w < |s.workers| ensures |s.workers[w].samples| == |s.workers[w].requests| {
      TimedSizes(s.workers[w], s.warmup, s.start);
    }
    MergedSizes(s.workers);
    forall j | 0 <= j < |requests|
      ensures s.warmup <= requests[j].idx < s.total && s.start.Some? && Genuine(run, i, requests[j], s.start.value)
      ensures requests[j].began <= requests[j].completion
      ensures Merged(s.workers)[j] == Saturated(requests[j].completion - requests[j].began)
    {
      var w, m := MergedFrom(s.workers, j);
      TimedRequest(run, i, w, m);
      AllRecorded(s.workers, requests[j].idx);
      RecordedHas(requests, j);
    }
    forall j, k | 0 <= j < k < |requests| ensures requests[j].idx != requests[k].idx {
      AllRecorded(s.workers, requests[j].idx);
      if requests[j].idx == requests[k].idx {
        RecordedTwice(requests, j, k);
      }
    }
    assert s.start.Some? by {
      assert 0 < |requests|;
      assert s.warmup <= requests[0].idx;
    }
  }

  lemma TimedSizes(w: Worker, warmup: nat, start: Option<nat>)
    requires Timed(w, warmup, start)
    ensures |w.samples| == |w.requests|
  {}

  lemma TimedRequest(run: seq<State>, i: nat, id: nat, m: nat)
    requires IsRun(run) && i < |run| && LatencyInv(run[i])
    requires id < |run[i].workers| && m < |run[i].workers[id].requests|
    ensures var s, w := run[i], run[i].workers[id];
            var q := w.requests[m];
            && s.start.Some? && q.idx >= s.warmup && Genuine(run, i, q, s.start.value)
            && |w.samples| == |w.requests| && w.samples[m] == Saturated(q.completion - q.began)
  {
    hide IsRun, Happened, Total;
    assert Timed(run[i].workers[id], run[i].warmup, run[i].start);
    RequestsHappened(run, i, id, m);
  }

  // ----- The elapsed time -----

  /** Between `k` and `k + 1` the first worker with a measured index read the clock for the start of the span. */
  predicate Begun(run: seq<State>, k: nat, start: nat) {
    && k + 1 < |run| && run[k].start.None? && run[k + 1].start == Some(start) && run[k].now == start
    && exists id :: 0 <= id < |run[k].workers| && run[k].workers[id].pc.StartLock?
  }

  lemma StepBegins(s: State, step: Step)
    requires Enabled(s, step)
    ensures var s' := Apply(s, step);
            || s'.start == s.start
            || (&& s.start.None? && s'.start == Some(s.now)
                && step.Work? && step.id < |s.workers| && s.workers[step.id].pc.StartLock?)
  {
    hide Result, Acted;
  }

  lemma {:induction false} StartOf(run: seq<State>, i: nat) returns (k: nat)
    requires IsRun(run) && i < |run| && run[i].start.Some?
    ensures k < i && Begun(run, k, run[i].start.value)
  {
    hide Apply, Enabled;
    assert i > 0;
    assert Next(run[i - 1], run[i - 1 + 1]);
    var step :| Enabled(run[i - 1], step) && run[i] == Apply(run[i - 1], step);
    StepBegins(run[i - 1], step);
    if run[i - 1].start.Some? {
      k := StartOf(run, i - 1);
    } else {
      k := i - 1;
    }
  }

  lemma {:induction false} EndAttained(ws: seq<Worker>) returns (i: nat)
    requires End(ws).Some?
    ensures i < |ws| && !ws[i].crashed && ws[i].last == End(ws)
  {
    var n := |ws| - 1;
    if !ws[n].crashed && ws[n].last == End(ws) {
      i := n;
    } else {
      i := EndAttained(ws[..n]);
    }
  }

  /**
   * The elapsed time is exact: it runs from the clock reading at the first
   * measured index to the completion of the request that completed last.
   */
  lemma ElapsedIsExact(run: seq<State>, i: nat) returns (k: nat, last: Request)
    requires IsRun(run) && i < |run| && run[i].main.Returned? && run[i].main.result.Ok?
    ensures k < i && run[i].start.Some? && Begun(run, k, run[i].start.value)
    ensures Genuine(run, i, last, run[i].start.value)
    ensures run[i].main.result.outcome.elapsed == last.completion - run[i].start.value
    ensures forall id, m :: 0 <= id < |run[i].workers| && 0 <= m < |run[i].workers[id].requests| ==>
              run[i].workers[id].requests[m].completion <= last.completion
  {
    hide IsRun, IndexInv, SampleInv, AbortInv, TimeInv, Merged, End, Total, Genuine, Timed, Begun;
    var s := run[i];
    RunInv(run, i);
    RunLatencyInv(run, i);
    AllDrained(s);
    var id, m := MergedFromRun(run, i);
    TimedRequest(run, i, id, m);
    k := StartOf(run, i);
    LastOf(s, id, m);
    EndIsLatest(s.workers, id);
    var e := EndAttained(s.workers);
    var w := s.workers[e];
    LastRequest(s, e);
    TimedRequest(run, i, e, |w.requests| - 1);
    last := w.requests[|w.requests| - 1];
    GenuineSpan(run, i, last, s.start.value);
    forall id, m | 0 <= id < |s.workers| && 0 <= m < |s.workers[id].requests|
      ensures s.workers[id].requests[m].completion <= last.completion
    {
      LastOf(s, id, m);
      EndIsLatest(s.workers, id);
    }
  }

  lemma GenuineSpan(run: seq<State>, i: nat, q: Request, start: nat)
    requires Genuine(run, i, q, start)
    ensures start <= q.completion
  {}

  lemma MergedFromRun(run: seq<State>, i: nat) returns (id: nat, m: nat)
    requires IsRun(run) && i < |run| && run[i].main.Returned? && run[i].main.result.Ok? && LatencyInv(run[i])
    ensures id < |run[i].workers| && m < |run[i].workers[id].requests|
  {
    hide IsRun, IndexInv, SampleInv, AbortInv, TimeInv, Merged, End, Total, Timed;
    var s := run[i];
    RunInv(run, i);
    AllDrained(s);
    RunAccounting(run, i);
    forall w | 0 <= w < |s.workers| ensures |s.workers[w].samples| == |s.workers[w].requests| {
      TimedSizes(s.workers[w], s.warmup, s.start);
    }
    MergedSizes(s.workers);
    id, m := MergedFrom(s.workers, 0);
  }

  /** A drained worker with a request knows a completion at least as late. */
  lemma LastOf(s: State, id: nat, m: nat)
    requires LatencyInv(s) && id < |s.workers| && m < |s.workers[id].requests| && s.workers[id].pc.Drained?
    ensures s.workers[id].last.Some? && s.workers[id].requests[m].completion <= s.workers[id].last.value
  {
    hide Total;
    assert Timed(s.workers[id], s.warmup, s.start);
  }

  lemma LastRequest(s: State, id: nat)
    requires LatencyInv(s) && id < |s.workers| && s.workers[id].pc.Drained? && s.workers[id].last.Some?
    ensures var w := s.workers[id];
            w.requests != [] && w.last.value == w.requests[|w.requests| - 1].completion
  {
    hide Total;
    assert Timed(s.workers[id], s.warmup, s.start);
  }

  // ----- The fast path -----

  /** Once the start has been read, its flag is up, or the worker that read it is about to raise it. */
  ghost predicate FlagFollows(s: State) {
    s.start.Some? && !s.started ==> exists id :: 0 <= id < |s.workers| && s.workers[id].pc.FlagSet?
  }

  lemma ActFlags(s: State, w: Worker, a: Action)
    requires CanAct(s, w, a)
    ensures var s', w' := Shared(s, w, a), Acted(s, w, a);
            && (s.started ==> s'.started) && (w.pc.FlagSet? ==> w'.pc.FlagSet? || s'.started)
            && (s'.start == s.start || w'.pc.FlagSet?)
            && (w'.pc.StartLock? && !w.pc.StartLock? ==> !s.started)
  {}

  lemma StepFlags(s: State, step: Step)
    requires Enabled(s, step) && FlagFollows(s)
    ensures FlagFollows(Apply(s, step)) && (s.started ==> Apply(s, step).started)
    ensures forall id :: 0 <= id < |Apply(s, step).workers| && Apply(s, step).workers[id].pc.StartLock? && s.started ==>
              id < |s.workers| && s.workers[id].pc.StartLock?
  {
    hide Acted, Shared, CanAct, Result;
    var s' := Apply(s, step);
    if step.Work? {
      ActFlags(s, s.workers[step.id], step.a);
    }
    if s.start.Some? && !s'.started {
      var id :| 0 <= id < |s.workers| && s.workers[id].pc.FlagSet?;
      assert s'.workers[id].pc.FlagSet?;
    } else if s'.start.Some? && !s'.started {
      assert s'.workers[step.id].pc.FlagSet?;
    }
  }

  /** Only the first measured indices take the lock: whoever is about to once the flag is up already was before. */
  lemma {:induction false} FlagSparesTheLock(run: seq<State>, i: nat, j: nat, id: nat)
    requires IsRun(run) && i <= j < |run|
    ensures FlagFollows(run[j]) && (run[i].started ==> run[j].started)
    ensures run[i].started && id < |run[j].workers| && run[j].workers[id].pc.StartLock? ==>
              id < |run[i].workers| && run[i].workers[id].pc.StartLock?
    decreases j
  {
    hide Apply, Enabled, FlagFollows;
    if j == 0 {
      NothingStarted(run);
    } else {
      assert Next(run[j - 1], run[j - 1 + 1]);
      var step :| Enabled(run[j - 1], step) && run[j] == Apply(run[j - 1], step);
      FlagSparesTheLock(run, if i < j then i else j - 1, j - 1, id);
      StepFlags(run[j - 1], step);
    }
  }

  lemma NothingStarted(run: seq<State>)
    requires IsRun(run)
    ensures FlagFollows(run[0])
  {}

  // ----- The verdict -----

  /** Somebody's submission of this index failed and was recorded. */
  ghost predicate FailedAt(ws: seq<Worker>, idx: nat) {
    exists i :: 0 <= i < |ws| && (ws[i].pc.Aborting? || ws[i].pc.Failed?) && ws[i].pc.idx == idx
  }

  ghost predicate AllDone(ws: seq<Worker>) {
    forall i :: 0 <= i < |ws| ==> ws[i].pc.Drained? && !ws[i].crashed
  }

  /** What the result says about the configuration and the workers; no two cases can hold at once. */
  ghost predicate Verdict(s: State, result: RunResult) {
    match result
    case NoWorkers => s.workerCount == 0
    case WarmupExceedsFixture => s.workerCount > 0 && s.warmup >= s.total
    case SpawnFailed(k) => s.warmup < s.total && |s.workers| == k < s.workerCount
    case WorkerPanicked => s.warmup < s.total && |s.workers| == s.workerCount > 0 && AnyCrashed(s.workers)
    case SubmissionFailed(idx) =>
      && s.warmup < s.total && |s.workers| == s.workerCount > 0 && !AnyCrashed(s.workers)
      && s.firstError == Some(idx) && exists i :: 0 <= i < |s.workers| && s.workers[i].pc == Failed(idx)
    case Ok(_) => s.warmup < s.total && |s.workers| == s.workerCount > 0 && AllDone(s.workers)
  }

  ghost predicate VerdictInv(s: State) {
    && (s.main.Spawning? ==> s.warmup < s.total && s.workerCount > 0)
    && (s.main.Unwinding? ==> s.warmup < s.total && |s.workers| < s.workerCount)
    && |s.workers| <= s.workerCount
    && (s.firstError.Some? ==> FailedAt(s.workers, s.firstError.value))
    && (s.main.Returned? ==> Verdict(s, s.main.result) && forall i :: 0 <= i < |s.workers| ==> Over(s.workers[i]))
  }

  lemma ActVerdict(s: State, w: Worker, a: Action)
    requires CanAct(s, w, a)
    ensures var s', w' := Shared(s, w, a), Acted(s, w, a);
            && (w.pc.Aborting? || w.pc.Failed? ==> (w'.pc.Aborting? || w'.pc.Failed?) && w'.pc.idx == w.pc.idx)
            && (s'.firstError == s.firstError || (s'.firstError.Some? && w'.pc == Aborting(s'.firstError.value)))
            && s'.main == s.main && s'.warmup == s.warmup && s'.total == s.total && s'.workerCount == s.workerCount
            && !Over(w)
  {}

  lemma WorkKeepsVerdict(s: State, id: nat, a: Action)
    requires VerdictInv(s) && Enabled(s, Work(id, a))
    ensures VerdictInv(Apply(s, Work(id, a)))
  {
    hide Acted, Shared, CanAct, Over, Verdict;
    var s' := Apply(s, Work(id, a));
    ActVerdict(s, s.workers[id], a);
    if s'.firstError.Some? {
      var idx := s'.firstError.value;
      if s.firstError == s'.firstError {
        var i :| && 0 <= i < |s.workers| && (s.workers[i].pc.Aborting? || s.workers[i].pc.Failed?)
                 && s.workers[i].pc.idx == idx;
        assert (s'.workers[i].pc.Aborting? || s'.workers[i].pc.Failed?) && s'.workers[i].pc.idx == idx;
      } else {
        assert s'.workers[id].pc == Aborting(idx);
      }
    }
  }

  lemma FinishVerdict(s: State)
    requires VerdictInv(s) && AbortInv(s) && Enabled(s, Finish)
    ensures VerdictInv(Apply(s, Finish))
  {
    hide Merged, End;
    if s.main.Spawning? && !AnyCrashed(s.workers) {
      forall i | 0 <= i < |s.workers| ensures s.workers[i].pc.Drained? || s.workers[i].pc.Failed? {
        assert Over(s.workers[i]);
      }
      if s.firstError.Some? {
        var i :| && 0 <= i < |s.workers| && (s.workers[i].pc.Aborting? || s.workers[i].pc.Failed?)
                 && s.workers[i].pc.idx == s.firstError.value;
        assert s.workers[i].pc == Failed(s.firstError.value);
      }
    }
  }

  lemma StepKeepsVerdict(s: State, step: Step)
    requires VerdictInv(s) && AbortInv(s) && Enabled(s, step)
    ensures VerdictInv(Apply(s, step))
  {
    match step
    case Work(id, a) => WorkKeepsVerdict(s, id, a);
    case Finish => FinishVerdict(s);
    case Spawn =>
      if s.firstError.Some? {
        var i :| && 0 <= i < |s.workers| && (s.workers[i].pc.Aborting? || s.workers[i].pc.Failed?)
                 && s.workers[i].pc.idx == s.firstError.value;
        assert (s.workers + [NewWorker()])[i] == s.workers[i];
      }
    case _ =>
  }

  lemma {:induction false} RunVerdictInv(run: seq<State>, i: nat)
    requires IsRun(run) && i < |run|
    ensures VerdictInv(run[i])
  {
    if i > 0 {
      hide VerdictInv, Apply, Enabled, IndexInv, SampleInv, AbortInv, TimeInv, ResultInv;
      RunVerdictInv(run, i - 1);
      RunInv(run, i - 1);
      assert Next(run[i - 1], run[i - 1 + 1]);
      var step :| Enabled(run[i - 1], step) && run[i] == Apply(run[i - 1], step);
      StepKeepsVerdict(run[i - 1], step);
    }
  }

  /**
   * `run` returns exactly the verdict that fits: no workers asked for, nothing
   * left after the warmup, a spawn that failed, else a panic before a failed
   * submission before success.
   */
  lemma VerdictFits(run: seq<State>, i: nat, result: RunResult)
    requires IsRun(run) && i < |run| && run[i].main.Returned?
    ensures Verdict(run[i], run[i].main.result)
    ensures Verdict(run[i], result) && !result.Ok? ==> run[i].main.result == result
    ensures Verdict(run[i], result) && result.Ok? ==> run[i].main.result.Ok?
  {
    hide IsRun;
    RunVerdictInv(run, i);
    if Verdict(run[i], result) {
      VerdictsExclude(run[i], run[i].main.result, result);
    }
  }

  /** The error that is reported is the one that was recorded first. */
  lemma {:induction false} FirstErrorIsFirst(run: seq<State>, i: nat) returns (k: nat)
    requires IsRun(run) && i < |run| && run[i].firstError.Some?
    ensures k < i && run[k].firstError.None? && run[k + 1].firstError == run[i].firstError
    ensures exists id :: 0 <= id < |run[k].workers| && run[k].workers[id].pc == Failing(run[i].firstError.value)
  {
    hide Apply, Enabled;
    assert i > 0;
    assert Next(run[i - 1], run[i - 1 + 1]);
    var step :| Enabled(run[i - 1], step) && run[i] == Apply(run[i - 1], step);
    StepErrs(run[i - 1], step);
    if run[i - 1].firstError.Some? {
      k := FirstErrorIsFirst(run, i - 1);
    } else {
      k := i - 1;
    }
  }

  lemma StepErrs(s: State, step: Step)
    requires Enabled(s, step)
    ensures var s' := Apply(s, step);
            || s'.firstError == s.firstError
            || (&& s.firstError.None? && s'.firstError.Some? && step.Work? && step.id < |s.workers|
                && s.workers[step.id].pc == Failing(s'.firstError.value))
  {
    hide Result, Acted;
  }

  lemma VerdictsExclude(s: State, a: RunResult, b: RunResult)
    requires Verdict(s, a) && Verdict(s, b)
    ensures a == b || (a.Ok? && b.Ok?)
  {}

  // ----- Aborting -----

  /** Whoever failed has raised the abort flag, and so has a failed spawn. */
  ghost predicate Raised(s: State) {
    && (forall i :: 0 <= i < |s.workers| && s.workers[i].pc.Failed? ==> s.abort)
    && (s.main.Unwinding? ==> s.abort)
    && (s.main.Returned? && s.main.result.SpawnFailed? ==> s.abort)
  }

  lemma StepKeepsRaised(s: State, step: Step)
    requires Raised(s) && Enabled(s, step)
    ensures Raised(Apply(s, step)) && (s.abort ==> Apply(s, step).abort)
  {
    hide Merged, End;
  }

  lemma ActSpends(s: State, w: Worker, a: Action)
    requires CanAct(s, w, a) && s.abort
    ensures Shared(s, w, a).cursor + WeightOf(Acted(s, w, a), ToClaim) <= s.cursor + WeightOf(w, ToClaim)
  {}

  lemma StepSpends(s: State, step: Step)
    requires Enabled(s, step) && s.abort
    ensures var s' := Apply(s, step);
            s'.cursor + Total(s'.workers, ToClaim) <= s.cursor + Total(s.workers, ToClaim)
  {
    hide Total, Acted, Shared, CanAct, Result;
    match step
    case Work(id, a) =>
      ActSpends(s, s.workers[id], a);
      TotalUpdate(s.workers, id, Acted(s, s.workers[id], a), ToClaim);
    case Spawn => TotalAppend(s.workers, NewWorker(), ToClaim);
    case _ =>
  }

  lemma {:induction false} FewClaim(ws: seq<Worker>)
    ensures Total(ws, ToClaim) <= |ws|
  {
    if ws != [] {
      FewClaim(ws[..|ws| - 1]);
    }
  }

  /** A failed submission or spawn raises the abort flag. */
  lemma {:induction false} FailureAborts(run: seq<State>, i: nat)
    requires IsRun(run) && i < |run|
    ensures Raised(run[i])
  {
    if i > 0 {
      hide Raised, Apply, Enabled;
      FailureAborts(run, i - 1);
      assert Next(run[i - 1], run[i - 1 + 1]);
      var step :| Enabled(run[i - 1], step) && run[i] == Apply(run[i - 1], step);
      StepKeepsRaised(run[i - 1], step);
    }
  }

  /** Once the abort flag is up, each worker there is claims at most one more index, and later ones claim none. */
  lemma {:induction false} AbortIsPrompt(run: seq<State>, i: nat, j: nat)
    requires IsRun(run) && i <= j < |run| && run[i].abort
    ensures run[j].abort
    ensures run[j].cursor + Total(run[j].workers, ToClaim) <= run[i].cursor + Total(run[i].workers, ToClaim)
    ensures run[j].cursor <= run[i].cursor + |run[i].workers|
  {
    hide Apply, Enabled, Total, Raised;
    FewClaim(run[i].workers);
    if i < j {
      AbortIsPrompt(run, i, j - 1);
      assert Next(run[j - 1], run[j - 1 + 1]);
      var step :| Enabled(run[j - 1], step) && run[j] == Apply(run[j - 1], step);
      StepSpends(run[j - 1], step);
      FailureAborts(run, j - 1);
      StepKeepsRaised(run[j - 1], step);
    }
  }
}
