/**
 * The connection limiter (canon-host, listener.rs; canon-event-subscribe,
 * server.rs): any number of threads acquire a slot by a compare-and-swap loop on
 * a shared counter and release it by a decrement. Relaxed loads may return any
 * value the counter ever had; a weak exchange may fail for no reason.
 */
module ConnectionLimiter {
  const HARD_MAX_CONCURRENT_CONNECTIONS: nat := 65_536

  function Limit(cap: nat): nat {
    if cap <= HARD_MAX_CONCURRENT_CONNECTIONS then cap else HARD_MAX_CONCURRENT_CONNECTIONS
  }

  /** One of the two bounds is reached: no slot is free. */
  predicate Full(live: nat, cap: nat) {
    live == cap || live == HARD_MAX_CONCURRENT_CONNECTIONS
  }

  /** Where one thread is: outside, in the loop with the value it last saw, refused, or holding a slot. */
  datatype Pc = Outside | Trying(current: nat) | Refused | Holding

  /** `values` are all values the counter has had; the last is its value now. */
  datatype State = State(cap: nat, values: seq<nat>, threads: seq<Pc>)

  datatype Action =
    | Load(from: nat)
    | Exchange
    | ExchangeFails(from: nat)
    | Refuse
    | Leave
    | Release

  function Init(cap: nat, threads: nat): State {
    State(cap, [0], seq(threads, _ => Outside))
  }

  function Counter(s: State): nat
    requires s.values != []
  {
    s.values[|s.values| - 1]
  }

  predicate Enabled(s: State, t: nat, a: Action) {
    && s.values != [] && t < |s.threads|
    && var pc := s.threads[t];
       match a
       case Load(from) => pc.Outside? && from < |s.values|
       case Exchange => pc.Trying? && pc.current < Limit(s.cap) && pc.current == Counter(s)
       case ExchangeFails(from) => pc.Trying? && pc.current < Limit(s.cap) && from < |s.values|
       case Refuse => pc.Trying? && pc.current >= Limit(s.cap)
       case Leave => pc.Refused?
       case Release => pc.Holding?
  }

  /** `fetch_sub` on the counter, wrapping like the machine word it is. */
  function Decremented(n: nat): nat {
    if n == 0 then 0xFFFF_FFFF_FFFF_FFFF else n - 1
  }

  function Apply(s: State, t: nat, a: Action): State
    requires Enabled(s, t, a)
  {
    match a
    case Load(from) => s.(threads := s.threads[t := Trying(s.values[from])])
    case Exchange => s.(threads := s.threads[t := Holding], values := s.values + [Counter(s) + 1])
    case ExchangeFails(from) => s.(threads := s.threads[t := Trying(s.values[from])])
    case Refuse => s.(threads := s.threads[t := Refused])
    case Leave => s.(threads := s.threads[t := Outside])
    case Release => s.(threads := s.threads[t := Outside], values := s.values + [Decremented(Counter(s))])
  }

  ghost predicate Next(s: State, s': State) {
    exists t, a :: Enabled(s, t, a) && s' == Apply(s, t, a)
  }

  ghost predicate IsRun(run: seq<State>) {
    && run != []
    && run[0] == Init(run[0].cap, |run[0].threads|)
    && (forall i :: 0 <= i < |run| - 1 ==> Next(run[i], run[i + 1]))
  }

  /** The number of slots held. */
  function Live(threads: seq<Pc>): nat {
    if threads == [] then 0
    else Live(threads[..|threads| - 1]) + (if threads[|threads| - 1].Holding? then 1 else 0)
  }

  lemma {:induction false} LiveUpdate(threads: seq<Pc>, t: nat, pc: Pc)
    requires t < |threads|
    ensures Live(threads[t := pc]) ==
        Live(threads) - (if threads[t].Holding? then 1 else 0) + (if pc.Holding? then 1 else 0)
  {
    var n := |threads| - 1;
    if t == n {
      assert threads[t := pc][..n] == threads[..n];
    } else {
      LiveUpdate(threads[..n], t, pc);
      assert threads[t := pc][..n] == threads[..n][t := pc];
    }
  }

  lemma {:induction false} NoneLive(n: nat)
    ensures Live(seq(n, _ => Outside)) == 0
  {
    if n > 0 {
      NoneLive(n - 1);
      assert seq(n, _ => Outside)[..n - 1] == seq(n - 1, _ => Outside);
    }
  }

  /** The counter is the number of live slots, and every value it has had is within the limit. */
  ghost predicate Inv(s: State) {
    && s.values != []
    && Counter(s) == Live(s.threads)
    && (forall i :: 0 <= i < |s.values| ==> s.values[i] <= Limit(s.cap))
    && (forall t :: 0 <= t < |s.threads| && s.threads[t].Trying? ==> s.threads[t].current in s.values)
    && (forall t :: 0 <= t < |s.threads| && s.threads[t].Refused? ==> Limit(s.cap) in s.values)
  }

  lemma StepKeepsInv(s: State, t: nat, a: Action)
    requires Inv(s) && Enabled(s, t, a)
    ensures Inv(Apply(s, t, a)) && s.values <= Apply(s, t, a).values
  {
    LiveUpdate(s.threads, t, Apply(s, t, a).threads[t]);
    forall v | v in s.values ensures v in Apply(s, t, a).values {}
  }

  lemma {:induction false} RunInv(run: seq<State>, i: nat)
    requires IsRun(run) && i < |run|
    ensures Inv(run[i]) && run[i].cap == run[0].cap
  {
    if i == 0 {
      NoneLive(|run[0].threads|);
    } else {
      RunInv(run, i - 1);
      var t, a :| Enabled(run[i - 1], t, a) && run[i] == Apply(run[i - 1], t, a);
      StepKeepsInv(run[i - 1], t, a);
    }
  }

  /**
   * In every interleaving the counter equals the number of live slots, within
   * the limit, and a release never wraps it.
   */
  lemma SlotsAreCounted(run: seq<State>, i: nat)
    requires IsRun(run) && i < |run|
    ensures run[i].values != [] && Counter(run[i]) == Live(run[i].threads)
    ensures Live(run[i].threads) <= run[0].cap && Live(run[i].threads) <= HARD_MAX_CONCURRENT_CONNECTIONS
    ensures forall t :: 0 <= t < |run[i].threads| && run[i].threads[t].Holding? ==> Counter(run[i]) >= 1
  {
    RunInv(run, i);
    var s := run[i];
    forall t | 0 <= t < |s.threads| && s.threads[t].Holding? ensures Counter(s) >= 1 {
      LiveUpdate(s.threads, t, Outside);
    }
  }

  /** Every value the counter has had was the number of live slots at some moment of the run. */
  lemma {:induction false} ValuesWereLive(run: seq<State>, i: nat, v: nat)
    requires IsRun(run) && i < |run| && v in run[i].values
    ensures exists j :: 0 <= j <= i && Live(run[j].threads) == v
  {
    RunInv(run, i);
    if i == 0 {
      assert Live(run[0].threads) == v;
    } else {
      RunInv(run, i - 1);
      var t, a :| Enabled(run[i - 1], t, a) && run[i] == Apply(run[i - 1], t, a);
      if v in run[i - 1].values {
        ValuesWereLive(run, i - 1, v);
      } else {
        assert Live(run[i].threads) == v;
      }
    }
  }

  /** A refusal is justified by a moment, at or before it, when every slot was taken. */
  lemma RefusalMeansFull(run: seq<State>, i: nat, t: nat)
    requires IsRun(run) && i < |run| && t < |run[i].threads| && run[i].threads[t].Refused?
    ensures exists j :: 0 <= j <= i && Full(Live(run[j].threads), run[0].cap)
  {
    RunInv(run, i);
    ValuesWereLive(run, i, Limit(run[0].cap));
  }

  /** Between `j` and `j + 1` thread `t` saw a value that made it give up, and it saw no other up to `i`. */
  ghost predicate Decided(run: seq<State>, j: nat, i: nat, t: nat) {
    && j < i < |run| && t < |run[j].threads| && (forall k :: j < k <= i ==> t < |run[k].threads|)
    && run[j].values != [] && !GivingUp(run[j], t)
    && (forall k :: j < k <= i ==> GivingUp(run[k], t))
    && run[j + 1].threads[t].Trying?
  }

  /** The thread has seen the limit reached, or has been refused for it. */
  predicate GivingUp(s: State, t: nat) {
    && t < |s.threads|
    && (|| s.threads[t].Refused?
        || (&& s.threads[t].Trying?
            && (s.threads[t].current >= s.cap || s.threads[t].current >= HARD_MAX_CONCURRENT_CONNECTIONS)))
  }

  lemma GivingUpBegins(s: State, s': State, t: nat)
    requires Inv(s) && Next(s, s') && GivingUp(s', t) && !GivingUp(s, t)
    ensures t < |s.threads| && s'.threads[t].Trying? && s'.cap == s.cap
  {
    var u, a :| Enabled(s, u, a) && s' == Apply(s, u, a);
  }

  lemma {:induction false} DecidingLoad(run: seq<State>, i: nat, t: nat) returns (j: nat)
    requires IsRun(run) && i < |run| && GivingUp(run[i], t)
    ensures Decided(run, j, i, t)
  {
    hide Inv, Next;
    StartsOutside(run, t);
    assert Next(run[i - 1], run[i - 1 + 1]);
    RunInv(run, i - 1);
    if GivingUp(run[i - 1], t) {
      j := DecidingLoad(run, i - 1, t);
      NextFrame(run[i - 1], run[i]);
    } else {
      GivingUpBegins(run[i - 1], run[i], t);
      HasValues(run[i - 1]);
      j := i - 1;
    }
  }

  lemma StartsOutside(run: seq<State>, t: nat)
    requires IsRun(run)
    ensures !GivingUp(run[0], t)
  {}

  lemma HasValues(s: State)
    requires Inv(s)
    ensures s.values != []
  {}

  lemma NextFrame(s: State, s': State)
    requires Next(s, s')
    ensures |s'.threads| == |s.threads|
  {}

  /**
   * What a refusal rests on: one load (or failed exchange) in which the thread
   * saw the limit reached, after which it looked no further. If that load was
   * fresh, every slot was taken at that very moment.
   */
  lemma FreshRefusalMeansFullThen(run: seq<State>, i: nat, t: nat) returns (j: nat)
    requires IsRun(run) && i < |run| && t < |run[i].threads| && run[i].threads[t].Refused?
    ensures Decided(run, j, i, t)
    ensures run[j + 1].threads[t].current == Counter(run[j]) ==> Full(Live(run[j].threads), run[0].cap)
  {
    j := DecidingLoad(run, i, t);
    RunInv(run, j);
    RunInv(run, j + 1);
    var s := run[j];
    assert s.values[|s.values| - 1] <= Limit(s.cap);
    assert GivingUp(run[j + 1], t);
  }

  /** A thread that sees the present value and does not fail spuriously gets a slot if and only if one is free. */
  lemma FreshLoadDecides(s: State, t: nat)
    requires Inv(s) && t < |s.threads| && s.threads[t].Outside?
    ensures var s' := Apply(s, t, Load(|s.values| - 1));
            && (Enabled(s', t, Exchange) <==>
                Live(s.threads) < s.cap && Live(s.threads) < HARD_MAX_CONCURRENT_CONNECTIONS)
            && (Enabled(s', t, Refuse) <==> Full(Live(s.threads), s.cap))
  {
    var s' := Apply(s, t, Load(|s.values| - 1));
    assert s.values[|s.values| - 1] <= Limit(s.cap);
    assert s'.threads[t].current == Live(s.threads);
  }
}
