/**
 * The benchmark runner (canon-bench, runner.rs) as an interleaved step system:
 * a spawning and joining thread, and workers that claim payload indices from a
 * shared cursor. One step is one access to shared state or one reading of the
 * clock; the clock advances by arbitrary amounts in between.
 */
module BenchRunner {
  import opened Events

  datatype Pc =
    | AbortCheck
    | Claiming
    | StartCheck(idx: nat)
    | StartLock(idx: nat)
    | FlagSet(idx: nat)
    | Stamping(idx: nat)
    | Submitting(idx: nat, began: nat)
    | Completing(idx: nat, began: nat)
    | Counting(completion: nat)
    | Failing(idx: nat)
    | Aborting(idx: nat)
    | Failed(idx: nat)
    | Drained

  /** A measured request: its index, when it was stamped and when it completed. */
  datatype Request = Request(idx: nat, began: nat, completion: nat)

  /**
   * A worker thread; a crashed one has panicked and takes no further steps. The
   * requests it has measured are bookkeeping that no step depends on.
   */
  datatype Worker = Worker(pc: Pc, samples: seq<u64>, last: Option<nat>, crashed: bool, requests: seq<Request>)

  datatype Outcome = Outcome(elapsed: nat, measured: nat, histogram: seq<u64>)

  datatype RunResult =
    | Ok(outcome: Outcome)
    | NoWorkers
    | WarmupExceedsFixture
    | SpawnFailed(worker: nat)
    | WorkerPanicked
    | SubmissionFailed(idx: nat)

  datatype Main = Spawning | Unwinding | Returned(result: RunResult)

  /**
   * An error is identified by the index whose submission failed. `submissions`
   * lists every index handed to `submit_once`, in order; no step depends on it.
   */
  datatype State = State(
    total: nat,
    warmup: nat,
    workerCount: nat,
    cursor: nat,
    started: bool,
    start: Option<nat>,
    measured: nat,
    abort: bool,
    firstError: Option<nat>,
    now: nat,
    workers: seq<Worker>,
    main: Main,
    submissions: seq<nat>)

  function Init(total: nat, warmup: nat, workerCount: nat, now: nat): State {
    State(total, warmup, workerCount, 0, false, None, 0, false, None, now, [],
          if workerCount == 0 then Returned(NoWorkers)
          else if warmup >= total then Returned(WarmupExceedsFixture)
          else Spawning,
          [])
  }

  // ----- Joining -----

  predicate Over(w: Worker) {
    w.crashed || w.pc.Drained? || w.pc.Failed?
  }

  /** The samples of all workers that did not panic, in spawn order. */
  function Merged(ws: seq<Worker>): seq<u64> {
    if ws == [] then []
    else Merged(ws[..|ws| - 1]) + (if ws[|ws| - 1].crashed then [] else ws[|ws| - 1].samples)
  }

  function Later(a: Option<nat>, b: Option<nat>): Option<nat> {
    if a.None? then b
    else if b.None? then a
    else if a.value <= b.value then b else a
  }

  /** The latest completion of any worker that did not panic. */
  function End(ws: seq<Worker>): Option<nat> {
    if ws == [] then None
    else if ws[|ws| - 1].crashed then End(ws[..|ws| - 1])
    else Later(End(ws[..|ws| - 1]), ws[|ws| - 1].last)
  }

  predicate AnyCrashed(ws: seq<Worker>) {
    exists i :: 0 <= i < |ws| && ws[i].crashed
  }

  function Elapsed(start: Option<nat>, end: Option<nat>): nat {
    if start.Some? && end.Some? && start.value <= end.value then end.value - start.value else 0
  }

  /** What `run` returns once every worker is over. */
  function Result(s: State): RunResult {
    if AnyCrashed(s.workers) then WorkerPanicked
    else if s.firstError.Some? then SubmissionFailed(s.firstError.value)
    else Ok(Outcome(Elapsed(s.start, End(s.workers)), s.measured, Merged(s.workers)))
  }

  /** The join loop, and what follows it. */
  method Join(s: State) returns (result: RunResult)
    ensures result == Result(s)
  {
    var merged: seq<u64> := [];
    var end: Option<nat> := None;
    var anyPanicked := false;
    for i := 0 to |s.workers|
      invariant anyPanicked <==> AnyCrashed(s.workers[..i])
      invariant merged == Merged(s.workers[..i]) && end == End(s.workers[..i])
    {
      var w := s.workers[i];
      assert s.workers[..i + 1][..i] == s.workers[..i];
      if w.crashed {
        assert s.workers[..i + 1][i].crashed;
        anyPanicked := true;
      } else {
        merged := merged + w.samples;
        end := Later(end, w.last);
        assert AnyCrashed(s.workers[..i + 1]) ==> AnyCrashed(s.workers[..i]);
        assert anyPanicked ==> AnyCrashed(s.workers[..i + 1]);
      }
    }
    assert s.workers[..|s.workers|] == s.workers;
    if anyPanicked {
      return WorkerPanicked;
    }
    if s.firstError.Some? {
      return SubmissionFailed(s.firstError.value);
    }
    return Ok(Outcome(Elapsed(s.start, end), s.measured, merged));
  }

  // ----- Steps -----

  datatype Action =
    | CheckAbort
    | Claim
    | CheckStart
    | SetStart
    | SetFlag
    | Stamp
    | SubmitOk
    | SubmitErr
    | Complete
    | Count
    | RecordError
    | SetAbort
    | Crash

  datatype Step =
    | Tick(nanos: nat)
    | Spawn
    | SpawnFails
    | Finish
    | Work(id: nat, a: Action)

  function Saturated(nanos: nat): u64 {
    if nanos <= U64_MAX then nanos else U64_MAX
  }

  predicate CanAct(s: State, w: Worker, a: Action) {
    && !w.crashed
    && match a
       case CheckAbort => w.pc.AbortCheck?
       case Claim => w.pc.Claiming?
       case CheckStart => w.pc.StartCheck?
       case SetStart => w.pc.StartLock?
       case SetFlag => w.pc.FlagSet?
       case Stamp => w.pc.Stamping?
       case SubmitOk => w.pc.Submitting?
       case SubmitErr => w.pc.Submitting?
       case Complete => w.pc.Completing?
       case Count => w.pc.Counting?
       case RecordError => w.pc.Failing?
       case SetAbort => w.pc.Aborting?
       case Crash => !Over(w)
  }

  function NewWorker(): Worker {
    Worker(AbortCheck, [], None, false, [])
  }

  /** The acting worker afterwards. */
  function Acted(s: State, w: Worker, a: Action): Worker
    requires CanAct(s, w, a)
  {
    match a
    case CheckAbort => w.(pc := if s.abort then Drained else Claiming)
    case Claim =>
      w.(pc := if s.cursor >= s.total then Drained
               else if s.cursor < s.warmup then Stamping(s.cursor)
               else StartCheck(s.cursor))
    case CheckStart => w.(pc := if s.started then Stamping(w.pc.idx) else StartLock(w.pc.idx))
    case SetStart => w.(pc := if s.start.None? then FlagSet(w.pc.idx) else Stamping(w.pc.idx))
    case SetFlag => w.(pc := Stamping(w.pc.idx))
    case Stamp => w.(pc := Submitting(w.pc.idx, s.now))
    case SubmitOk => w.(pc := if w.pc.idx < s.warmup then AbortCheck else Completing(w.pc.idx, w.pc.began))
    case SubmitErr => w.(pc := Failing(w.pc.idx))
    case Complete =>
      w.(pc := Counting(s.now),
         samples := w.samples + [Saturated(if w.pc.began <= s.now then s.now - w.pc.began else 0)],
         requests := w.requests + [Request(w.pc.idx, w.pc.began, s.now)])
    case Count => w.(pc := AbortCheck, last := Some(w.pc.completion))
    case RecordError => w.(pc := Aborting(w.pc.idx))
    case SetAbort => w.(pc := Failed(w.pc.idx))
    case Crash => w.(crashed := true)
  }

  /** The shared state afterwards. Writing the start time and raising its flag are two steps of one lock section. */
  function Shared(s: State, w: Worker, a: Action): State
    requires CanAct(s, w, a)
  {
    match a
    case Claim => s.(cursor := s.cursor + 1)
    case SetStart => if s.start.None? then s.(start := Some(s.now)) else s
    case SetFlag => s.(started := true)
    case Stamp => s.(submissions := s.submissions + [w.pc.idx])
    case Count => s.(measured := s.measured + 1)
    case RecordError => if s.firstError.None? then s.(firstError := Some(w.pc.idx)) else s
    case SetAbort => s.(abort := true)
    case _ => s
  }

  predicate Enabled(s: State, step: Step) {
    match step
    case Tick(_) => true
    case Spawn => s.main.Spawning? && |s.workers| < s.workerCount
    case SpawnFails => s.main.Spawning? && |s.workers| < s.workerCount
    case Finish => && (s.main.Unwinding? || (s.main.Spawning? && |s.workers| >= s.workerCount))
                   && (forall i :: 0 <= i < |s.workers| ==> Over(s.workers[i]))
    case Work(id, a) => id < |s.workers| && CanAct(s, s.workers[id], a)
  }

  function Apply(s: State, step: Step): State
    requires Enabled(s, step)
  {
    match step
    case Tick(nanos) => s.(now := s.now + nanos)
    case Spawn => s.(workers := s.workers + [NewWorker()])
    case SpawnFails => s.(abort := true, main := Unwinding)
    case Finish => s.(main := Returned(if s.main.Unwinding? then SpawnFailed(|s.workers|) else Result(s)))
    case Work(id, a) => Shared(s, s.workers[id], a).(workers := s.workers[id := Acted(s, s.workers[id], a)])
  }

  ghost predicate Next(s: State, s': State) {
    exists step :: Enabled(s, step) && s' == Apply(s, step)
  }

  ghost predicate IsRun(run: seq<State>) {
    && run != []
    && run[0] == Init(run[0].total, run[0].warmup, run[0].workerCount, run[0].now)
    && (forall i :: 0 <= i < |run| - 1 ==> Next(run[i], run[i + 1]))
  }
}
