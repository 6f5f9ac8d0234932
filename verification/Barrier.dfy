/** The reusable thread_barrier of example/shared_work.cpp. */
module Barrier {

  /** The data members that `wait` reads and writes. */
  datatype Fields = Fields(initial: nat, current: nat, cycle: bool)

  /** What the section of `wait` under the mutex does to the members. */
  function Arrival(b: Fields): Fields {
    if b.current == 1 then b.(current := b.initial, cycle := !b.cycle)
    else if b.current == 0 then b
    else b.(current := b.current - 1)
  }

  class ThreadBarrier {
    var initial: nat
    var current: nat
    var cycle: bool

    ghost predicate Valid()
      reads this
    {
      1 <= current <= initial
    }

    function View(): Fields
      reads this
    {
      Fields(initial, current, cycle)
    }

    constructor (n: nat)
      requires n != 0
      ensures Valid() && View() == Fields(n, n, true)
    {
      initial, current, cycle := n, n, true;
    }

    /** From taking the mutex up to the notification or the wait: reports whether this
        caller completed the generation, and the cycle it saw. */
    method Arrive() returns (last: bool, seen: bool)
      requires Valid()
      modifies this
      ensures Valid()
      ensures View() == Arrival(old(View()))
      ensures seen == old(cycle) && last == (old(current) == 1) && initial == old(initial)
      ensures last ==> current == initial && cycle == !old(cycle)
      ensures !last ==> current == old(current) - 1 && cycle == old(cycle)
    {
      seen := cycle;
      current := current - 1;
      if 0 == current {
        cycle := !cycle;
        current := initial;
        return true, seen;
      }
      return false, seen;
    }
  }

  // ---------- Threads ----------

  /** Where a thread is.  `gen` counts the generations completed when it arrived; the
      code does not store it, it stands for the barrier use the caller meant. */
  datatype Thread =
    | Outside
    | Parked(seen: bool, gen: nat)    // asleep in cond_.wait
    | Woken(seen: bool, gen: nat)     // notified or spuriously awake, predicate not yet tested
    | Notifying(gen: nat)             // between lk.unlock() and the end of notify_all()

  datatype Event = Arrived(gen: nat) | Left(gen: nat, last: bool)

  datatype State = State(b: Fields, gen: nat, threads: seq<Thread>, log: seq<Event>)

  datatype Step = Arrive(t: nat) | NotifyAll(t: nat) | Wake(t: nat) | Test(t: nat)

  predicate Waiting(p: Thread) {
    p.Parked? || p.Woken?
  }

  predicate Enabled(s: State, step: Step) {
    step.t < |s.threads| &&
    match step
    case Arrive(t) => s.threads[t].Outside?
    case NotifyAll(t) => s.threads[t].Notifying?
    case Wake(t) => s.threads[t].Parked?          // also without any notification
    case Test(t) => s.threads[t].Woken?
  }

  function Roused(p: Thread): Thread {
    if p.Parked? then Woken(p.seen, p.gen) else p
  }

  function Do(s: State, step: Step): State
    requires Enabled(s, step)
  {
    match step
    case Arrive(t) =>
      var s1 := s.(b := Arrival(s.b), log := s.log + [Arrived(s.gen)]);
      if s.b.current == 1 then s1.(gen := s.gen + 1, threads := s.threads[t := Notifying(s.gen)])
      else s1.(threads := s.threads[t := Parked(s.b.cycle, s.gen)])
    case NotifyAll(t) =>
      s.(threads := seq(|s.threads|, i requires 0 <= i < |s.threads| =>
                        if i == t then Outside else Roused(s.threads[i])),
         log := s.log + [Left(s.threads[t].gen, true)])
    case Wake(t) => s.(threads := s.threads[t := Roused(s.threads[t])])
    case Test(t) =>
      if s.threads[t].seen != s.b.cycle
      then s.(threads := s.threads[t := Outside], log := s.log + [Left(s.threads[t].gen, false)])
      else s.(threads := s.threads[t := Parked(s.threads[t].seen, s.threads[t].gen)])
  }

  function Start(initial: nat, n: nat): State {
    State(Fields(initial, initial, true), 0, seq(n, i => Outside), [])
  }

  /** s' is reached from s by these steps, in this order. */
  ghost predicate Path(s: State, steps: seq<Step>, s': State)
    decreases |steps|
  {
    if steps == [] then s == s'
    else Enabled(s, steps[0]) && Path(Do(s, steps[0]), steps[1..], s')
  }

  // ---------- Counting ----------

  datatype Role = Waits(gen: nat) | Notifies(gen: nat)

  predicate Plays(p: Thread, r: Role) {
    match r
    case Waits(g) => Waiting(p) && p.gen == g
    case Notifies(g) => p == Notifying(g)
  }

  function Count(ts: seq<Thread>, r: Role): nat {
    if ts == [] then 0 else Count(ts[1..], r) + if Plays(ts[0], r) then 1 else 0
  }

  lemma {:induction false} CountUpdate(ts: seq<Thread>, t: nat, p: Thread, r: Role)
    requires t < |ts|
    ensures Count(ts[t := p], r) + (if Plays(ts[t], r) then 1 else 0) == Count(ts, r) + (if Plays(p, r) then 1 else 0)
    decreases |ts|
  {
    if t > 0 {
      CountUpdate(ts[1..], t - 1, p, r);
      assert ts[t := p][1..] == ts[1..][t - 1 := p];
    } else {
      assert ts[t := p][1..] == ts[1..];
    }
  }

  lemma {:induction false} CountsAgree(ts: seq<Thread>, us: seq<Thread>, r: Role)
    requires |ts| == |us|
    requires forall i :: 0 <= i < |ts| ==> Plays(ts[i], r) == Plays(us[i], r)
    ensures Count(ts, r) == Count(us, r)
    decreases |ts|
  {
    if ts != [] {
      CountsAgree(ts[1..], us[1..], r);
    }
  }

  lemma {:induction false} CountBound(ts: seq<Thread>, r: Role)
    ensures Count(ts, r) <= |ts|
    ensures (forall i :: 0 <= i < |ts| ==> !Plays(ts[i], r)) ==> Count(ts, r) == 0
    ensures (forall i :: 0 <= i < |ts| ==> Plays(ts[i], r)) ==> Count(ts, r) == |ts|
  {
    if ts != [] {
      CountBound(ts[1..], r);
    }
  }

  /** Threads outside the role leave that much room below the thread count. */
  lemma {:induction false} CountRoom(ts: seq<Thread>, r: Role, t: nat, u: nat)
    requires t < u < |ts| && !Plays(ts[t], r) && !Plays(ts[u], r)
    ensures Count(ts, r) + 2 <= |ts|
    decreases |ts|
  {
    if t > 0 {
      CountRoom(ts[1..], r, t - 1, u - 1);
    } else {
      CountUpdate(ts[1..], u - 1, Parked(true, r.gen), r);
      CountUpdate(ts[1..], u - 1, Notifying(r.gen), r);
      CountBound(ts[1..][u - 1 := if r.Waits? then Parked(true, r.gen) else Notifying(r.gen)], r);
    }
  }

  // ---------- What holds for any number of threads ----------

  ghost predicate ThreadOk(s: State, p: Thread) {
    && (Waiting(p) ==> p.seen == (p.gen % 2 == 0) && p.gen <= s.gen)
    && (p.Notifying? ==> p.gen < s.gen)
  }

  /** Arrivals and returns of generation g, from the log of the run. */
  ghost predicate GenerationOk(s: State, g: nat) {
    var log := multiset(s.log);
    && log[Arrived(g)] == (if g < s.gen then s.b.initial else if g == s.gen then s.b.initial - s.b.current else 0)
    && log[Left(g, true)] + Count(s.threads, Notifies(g)) == (if g < s.gen then 1 else 0)
    && log[Arrived(g)] ==
         log[Left(g, true)] + log[Left(g, false)] + Count(s.threads, Notifies(g)) + Count(s.threads, Waits(g))
  }

  /** No call of generation g has returned before all its arrivals. */
  ghost predicate NoEarlyReturn(s: State) {
    forall k :: 0 <= k < |s.log| && s.log[k].Left? ==> multiset(s.log[..k])[Arrived(s.log[k].gen)] == s.b.initial
  }

  ghost predicate Counted(s: State) {
    && 1 <= s.b.current <= s.b.initial
    && s.b.cycle == (s.gen % 2 == 0)
    && (forall t :: 0 <= t < |s.threads| ==> ThreadOk(s, s.threads[t]))
    && (forall g: nat :: GenerationOk(s, g))
    && NoEarlyReturn(s)
  }

  lemma LogGrows(s: State, e: Event, s': State)
    requires NoEarlyReturn(s) && s'.log == s.log + [e] && s'.b.initial == s.b.initial
    requires e.Left? ==> multiset(s.log)[Arrived(e.gen)] == s.b.initial
    ensures NoEarlyReturn(s')
  {
    forall k | 0 <= k < |s'.log| && s'.log[k].Left?
      ensures multiset(s'.log[..k])[Arrived(s'.log[k].gen)] == s.b.initial
    {
      assert s'.log[..k] == s.log[..k];
      if k == |s.log| { assert s.log[..k] == s.log; }
    }
  }

  lemma GenerationArrive(s: State, t: nat, g: nat)
    requires Enabled(s, Arrive(t)) && 1 <= s.b.current <= s.b.initial && GenerationOk(s, g)
    ensures GenerationOk(Do(s, Arrive(t)), g)
  {
    var p := if s.b.current == 1 then Notifying(s.gen) else Parked(s.b.cycle, s.gen);
    CountUpdate(s.threads, t, p, Notifies(g));
    CountUpdate(s.threads, t, p, Waits(g));
  }

  lemma GenerationNotify(s: State, t: nat, g: nat)
    requires Enabled(s, NotifyAll(t)) && ThreadOk(s, s.threads[t]) && GenerationOk(s, g)
    ensures GenerationOk(Do(s, NotifyAll(t)), g)
  {
    var one := s.threads[t := Outside];
    var all := Do(s, NotifyAll(t)).threads;
    CountUpdate(s.threads, t, Outside, Notifies(g));
    CountUpdate(s.threads, t, Outside, Waits(g));
    CountsAgree(one, all, Notifies(g));
    CountsAgree(one, all, Waits(g));
  }

  lemma GenerationWake(s: State, t: nat, g: nat)
    requires Enabled(s, Wake(t)) && GenerationOk(s, g)
    ensures GenerationOk(Do(s, Wake(t)), g)
  {
    CountUpdate(s.threads, t, Roused(s.threads[t]), Notifies(g));
    CountUpdate(s.threads, t, Roused(s.threads[t]), Waits(g));
  }

  lemma GenerationTest(s: State, t: nat, g: nat)
    requires Enabled(s, Test(t)) && ThreadOk(s, s.threads[t]) && GenerationOk(s, g)
    ensures GenerationOk(Do(s, Test(t)), g)
  {
    var p := Do(s, Test(t)).threads[t];
    CountUpdate(s.threads, t, p, Notifies(g));
    CountUpdate(s.threads, t, p, Waits(g));
  }

  lemma GenerationStep(s: State, step: Step, g: nat)
    requires Enabled(s, step) && 1 <= s.b.current <= s.b.initial
    requires ThreadOk(s, s.threads[step.t]) && GenerationOk(s, g)
    ensures GenerationOk(Do(s, step), g)
  {
    match step
    case Arrive(t) => GenerationArrive(s, t, g);
    case NotifyAll(t) => GenerationNotify(s, t, g);
    case Wake(t) => GenerationWake(s, t, g);
    case Test(t) => GenerationTest(s, t, g);
  }

  lemma LogStep(s: State, step: Step)
    requires Enabled(s, step) && NoEarlyReturn(s) && ThreadOk(s, s.threads[step.t])
    requires s.b.cycle == (s.gen % 2 == 0)
    requires s.threads[step.t].Outside? || GenerationOk(s, s.threads[step.t].gen)
    ensures NoEarlyReturn(Do(s, step))
  {
    var s' := Do(s, step);
    if |s'.log| > |s.log| {
      LogGrows(s, s'.log[|s.log|], s');
    }
  }

  lemma ThreadsStep(s: State, step: Step)
    requires Enabled(s, step) && s.b.cycle == (s.gen % 2 == 0)
    requires forall t :: 0 <= t < |s.threads| ==> ThreadOk(s, s.threads[t])
    ensures forall t :: 0 <= t < |s.threads| ==> ThreadOk(Do(s, step), Do(s, step).threads[t])
  {
    forall t | 0 <= t < |s.threads| ensures ThreadOk(Do(s, step), Do(s, step).threads[t]) {
      assert ThreadOk(s, s.threads[t]);
    }
  }

  lemma CountedStep(s: State, step: Step)
    requires Counted(s) && Enabled(s, step)
    ensures Counted(Do(s, step))
  {
    assert ThreadOk(s, s.threads[step.t]);
    ThreadsStep(s, step);
    LogStep(s, step);
    forall g: nat ensures GenerationOk(Do(s, step), g) {
      GenerationStep(s, step, g);
    }
  }

  lemma CountedStart(initial: nat, n: nat)
    requires initial > 0
    ensures Counted(Start(initial, n))
  {
    var s := Start(initial, n);
    forall g: nat ensures GenerationOk(s, g) {
      CountBound(s.threads, Waits(g));
      CountBound(s.threads, Notifies(g));
    }
  }

  /** In every reachable state, with any number of threads and any spurious wakeups:
      `current_` is what remains of the current generation, no call returns before its
      generation is complete, and exactly one call per complete generation returns true. */
  lemma {:induction false} BarrierCounts(s: State, steps: seq<Step>, s': State)
    requires Counted(s) && Path(s, steps, s')
    ensures Counted(s')
    decreases |steps|
  {
    if steps != [] {
      CountedStep(s, steps[0]);
      BarrierCounts(Do(s, steps[0]), steps[1..], s');
    }
  }

  /** What that means for a generation g of a barrier for `initial` that n threads use. */
  lemma GenerationsAreWhole(initial: nat, n: nat, steps: seq<Step>, s: State, g: nat)
    requires initial > 0 && Path(Start(initial, n), steps, s)
    ensures 1 <= s.b.current <= initial && s.b.current == initial - multiset(s.log)[Arrived(s.gen)]
    ensures g < s.gen ==>
      && multiset(s.log)[Arrived(g)] == initial
      && multiset(s.log)[Left(g, true)] + Count(s.threads, Notifies(g)) == 1
    ensures g >= s.gen ==> multiset(s.log)[Left(g, true)] == 0
    ensures forall k :: 0 <= k < |s.log| && s.log[k].Left? ==> multiset(s.log[..k])[Arrived(s.log[k].gen)] == initial
  {
    CountedStart(initial, n);
    BarrierCounts(Start(initial, n), steps, s);
    ThreadsStay(Start(initial, n), steps, s);
    assert GenerationOk(s, g) && GenerationOk(s, s.gen);
  }

  // ---------- When one bit is enough ----------

  /** What `cycle != cycle_` is meant to say: the generation of the waiter is over. */
  ghost predicate OneBitTells(s: State) {
    forall t :: 0 <= t < |s.threads| && Waiting(s.threads[t]) ==>
      (s.threads[t].seen != s.b.cycle <==> s.threads[t].gen < s.gen)
  }

  /** The caller has as many threads as the barrier expects, or fewer; or every call
      completes a generation by itself. */
  predicate EnoughForOneBit(initial: nat, n: nat) {
    n <= initial || initial == 1
  }

  /** Waiters are at most one generation behind, and one that sleeps a generation behind
      has its notifier still to come. */
  ghost predicate Timely(s: State) {
    && EnoughForOneBit(s.b.initial, |s.threads|)
    && (s.b.initial == 1 ==> forall t :: 0 <= t < |s.threads| ==> !Waiting(s.threads[t]))
    && (forall t :: 0 <= t < |s.threads| && Waiting(s.threads[t]) ==> s.threads[t].gen + 1 >= s.gen)
    && (forall t :: 0 <= t < |s.threads| && s.threads[t].Parked? && s.threads[t].gen < s.gen ==> NotifierPending(s))
  }

  ghost predicate NotifierPending(s: State) {
    exists u :: 0 <= u < |s.threads| && s.threads[u].Notifying?
  }

  /** All other places of the current generation are taken when it completes, so nobody
      is behind. */
  lemma NobodyBehind(s: State, t: nat)
    requires Counted(s) && Timely(s) && Enabled(s, Arrive(t)) && s.b.current == 1
    ensures forall u :: 0 <= u < |s.threads| && Waiting(s.threads[u]) ==> s.threads[u].gen == s.gen
  {
    var ts := s.threads;
    forall u | 0 <= u < |ts| && Waiting(ts[u]) ensures ts[u].gen == s.gen {
      assert ThreadOk(s, ts[u]);
      if ts[u].gen != s.gen {
        CurrentTakers(s);
        CountRoom(ts, Waits(s.gen), if t < u then t else u, if t < u then u else t);
      }
    }
  }

  lemma NotifierStays(s: State, step: Step)
    requires Enabled(s, step) && !step.NotifyAll? && NotifierPending(s)
    ensures NotifierPending(Do(s, step))
  {
    var u :| 0 <= u < |s.threads| && s.threads[u].Notifying?;
    assert Do(s, step).threads[u].Notifying?;
  }

  lemma TimelyStep(s: State, step: Step)
    requires Counted(s) && Timely(s) && Enabled(s, step)
    ensures Timely(Do(s, step))
  {
    assert ThreadOk(s, s.threads[step.t]);
    if step.Arrive? && s.b.current == 1 {
      NobodyBehind(s, step.t);
      assert Do(s, step).threads[step.t].Notifying?;
    } else if !step.NotifyAll? && NotifierPending(s) {
      NotifierStays(s, step);
    }
  }

  /** As many threads wait for the current generation as have arrived in it. */
  lemma CurrentTakers(s: State)
    requires Counted(s)
    ensures Count(s.threads, Waits(s.gen)) == s.b.initial - s.b.current
  {
    assert GenerationOk(s, s.gen);
    forall k | 0 <= k < |s.threads| ensures !Plays(s.threads[k], Notifies(s.gen)) {
      assert ThreadOk(s, s.threads[k]);
    }
    CountBound(s.threads, Notifies(s.gen));
    if multiset(s.log)[Left(s.gen, false)] > 0 {
      assert Left(s.gen, false) in s.log;
      var k :| 0 <= k < |s.log| && s.log[k] == Left(s.gen, false);
      PrefixCount(s.log, k, Arrived(s.gen));
    }
  }

  lemma PrefixCount(log: seq<Event>, k: nat, e: Event)
    requires k <= |log|
    ensures multiset(log[..k])[e] <= multiset(log)[e]
  {
    assert log == log[..k] + log[k..];
  }

  lemma {:induction false} TimelyRun(s: State, steps: seq<Step>, s': State)
    requires Counted(s) && Timely(s) && Path(s, steps, s')
    ensures Counted(s') && Timely(s')
    decreases |steps|
  {
    if steps != [] {
      CountedStep(s, steps[0]);
      TimelyStep(s, steps[0]);
      TimelyRun(Do(s, steps[0]), steps[1..], s');
    }
  }

  /** The bit tells the truth, and nobody sleeps on a true predicate with no
      notification to come. */
  lemma TimelyTells(s: State)
    requires Counted(s) && Timely(s)
    ensures OneBitTells(s)
    ensures forall t :: 0 <= t < |s.threads| && s.threads[t].Parked? && s.threads[t].seen != s.b.cycle ==>
            NotifierPending(s)
  {
    forall t | 0 <= t < |s.threads| && Waiting(s.threads[t])
      ensures s.threads[t].seen != s.b.cycle <==> s.threads[t].gen < s.gen
    {
      assert ThreadOk(s, s.threads[t]);
    }
  }

  /** With exactly `initial_` threads the barrier never deadlocks: somebody is outside,
      about to notify, or awake with its predicate still to test. */
  lemma SomebodyMoves(initial: nat, steps: seq<Step>, s: State)
    requires initial > 0 && Path(Start(initial, initial), steps, s)
    ensures exists t :: 0 <= t < |s.threads| && !s.threads[t].Parked?
  {
    CountedStart(initial, initial);
    TimelyRun(Start(initial, initial), steps, s);
    ThreadsStay(Start(initial, initial), steps, s);
    if forall t :: 0 <= t < |s.threads| ==> s.threads[t].Parked? {
      forall t | 0 <= t < |s.threads| ensures Plays(s.threads[t], Waits(s.gen)) {
        assert ThreadOk(s, s.threads[t]);
      }
      CountBound(s.threads, Waits(s.gen));
      CurrentTakers(s);
    }
  }

  lemma {:induction false} ThreadsStay(s: State, steps: seq<Step>, s': State)
    requires Path(s, steps, s')
    ensures |s'.threads| == |s.threads| && s'.b.initial == s.b.initial
    decreases |steps|
  {
    if steps != [] {
      ThreadsStay(Do(s, steps[0]), steps[1..], s');
    }
  }

  // ---------- When one bit is not enough ----------

  lemma {:induction false} PathAppend(s: State, steps: seq<Step>, s1: State, more: seq<Step>, s2: State)
    requires Path(s, steps, s1) && Path(s1, more, s2)
    ensures Path(s, steps + more, s2)
    decreases |steps|
  {
    if steps == [] {
      assert steps + more == more;
    } else {
      PathAppend(Do(s, steps[0]), steps[1..], s1, more, s2);
      assert (steps + more)[1..] == steps[1..] + more;
    }
  }

  lemma PathThen(s: State, steps: seq<Step>, s1: State, step: Step) returns (steps': seq<Step>)
    requires Path(s, steps, s1) && Enabled(s1, step)
    ensures Path(s, steps', Do(s1, step))
  {
    assert Path(Do(s1, step), [step][1..], Do(s1, step));
    PathAppend(s, steps, s1, [step], Do(s1, step));
    steps' := steps + [step];
  }

  /** Threads lo .. hi-1 arrive one after the other without completing the generation. */
  lemma {:induction false} ArriveInTurn(s: State, lo: nat, hi: nat) returns (steps: seq<Step>, s': State)
    requires lo <= hi <= |s.threads| && s.b.current > hi - lo
    requires forall i :: lo <= i < hi ==> s.threads[i].Outside?
    ensures Path(s, steps, s')
    ensures s'.b == s.b.(current := s.b.current - (hi - lo)) && s'.gen == s.gen && |s'.threads| == |s.threads|
    ensures forall i :: 0 <= i < |s.threads| ==>
              s'.threads[i] == if lo <= i < hi then Parked(s.b.cycle, s.gen) else s.threads[i]
    decreases hi
  {
    steps, s' := [], s;
    if lo < hi {
      var s1;
      steps, s1 := ArriveInTurn(s, lo, hi - 1);
      steps := PathThen(s, steps, s1, Arrive(hi - 1));
      s' := Do(s1, Arrive(hi - 1));
    }
  }

  /** Woken threads lo .. hi-1 of an odd number of generations ago leave. */
  lemma {:induction false} LeaveInTurn(s: State, lo: nat, hi: nat) returns (steps: seq<Step>, s': State)
    requires lo <= hi <= |s.threads|
    requires forall i :: lo <= i < hi ==> s.threads[i].Woken? && s.threads[i].seen != s.b.cycle
    ensures Path(s, steps, s')
    ensures s'.b == s.b && s'.gen == s.gen && |s'.threads| == |s.threads|
    ensures forall i :: 0 <= i < |s.threads| ==> s'.threads[i] == if lo <= i < hi then Outside else s.threads[i]
    decreases hi
  {
    steps, s' := [], s;
    if lo < hi {
      var s1;
      steps, s1 := LeaveInTurn(s, lo, hi - 1);
      steps := PathThen(s, steps, s1, Test(hi - 1));
      s' := Do(s1, Test(hi - 1));
    }
  }

  /** A spurious wakeup changes nothing: the predicate is false and the thread parks again. */
  lemma SpuriousWakeup(s: State, t: nat)
    requires t < |s.threads| && s.threads[t].Parked? && s.threads[t].seen == s.b.cycle
    ensures Path(s, [Wake(t), Test(t)], s)
  {
    var s1 := Do(s, Wake(t));
    assert Do(s1, Test(t)) == s;
    assert Path(s1, [Test(t)], s) by { assert [Test(t)][1..] == []; }
    assert [Wake(t), Test(t)][1..] == [Test(t)];
  }

  /** A whole first generation: all but the last have been woken, their predicates not yet
      tested. */
  lemma FirstGeneration(initial: nat, n: nat) returns (steps: seq<Step>, s: State)
    requires 1 <= initial <= n
    ensures Path(Start(initial, n), steps, s)
    ensures s.b == Fields(initial, initial, false) && s.gen == 1 && |s.threads| == n
    ensures forall i :: 0 <= i < n ==> s.threads[i] == if i < initial - 1 then Woken(true, 0) else Outside
  {
    var s0 := Start(initial, n);
    var s1;
    steps, s1 := ArriveInTurn(s0, 0, initial - 1);
    steps := PathThen(s0, steps, s1, Arrive(initial - 1));
    var s2 := Do(s1, Arrive(initial - 1));
    steps := PathThen(s0, steps, s2, NotifyAll(initial - 1));
    s := Do(s2, NotifyAll(initial - 1));
  }

  /** The barrier opens: a run in which as many threads as it expects arrive and all leave. */
  lemma BarrierOpens(initial: nat) returns (steps: seq<Step>, s: State)
    requires initial > 0
    ensures Path(Start(initial, initial), steps, s) && s.gen == 1
    ensures forall i :: 0 <= i < initial ==> i < |s.threads| && s.threads[i].Outside?
    ensures multiset(s.log)[Left(0, true)] == 1 && multiset(s.log)[Left(0, false)] == initial - 1
  {
    var first, s1 := FirstGeneration(initial, initial);
    var rest;
    rest, s := LeaveInTurn(s1, 0, initial - 1);
    PathAppend(Start(initial, initial), first, s1, rest, s);
    steps := first + rest;
    CountedStart(initial, initial);
    BarrierCounts(Start(initial, initial), steps, s);
    assert GenerationOk(s, 0);
    CountBound(s.threads, Waits(0));
    CountBound(s.threads, Notifies(0));
    ThreadsStay(Start(initial, initial), steps, s);
  }

  /** With one thread more than expected, thread 0 can sleep through two generations
      and then finds the bit as it left it. */
  lemma SleepThroughTwo(initial: nat, n: nat) returns (steps: seq<Step>, s: State)
    requires 2 <= initial < n
    ensures Path(Start(initial, n), steps, s) && !OneBitTells(s)
  {
    var s0 := Start(initial, n);
    var first, s3 := FirstGeneration(initial, n);
    var middle, s4 := LeaveInTurn(s3, 1, initial - 1);
    PathAppend(s0, first, s3, middle, s4);
    var last, s5 := ArriveInTurn(s4, 1, initial);
    PathAppend(s0, first + middle, s4, last, s5);
    steps := PathThen(s0, first + middle + last, s5, Arrive(initial));
    s := Do(s5, Arrive(initial));
    assert s.threads[0] == Woken(true, 0) && s.gen == 2 && s.b.cycle;
  }

  /** OneBitTells in every state of every run of n threads. */
  ghost predicate AlwaysTells(initial: nat, n: nat) {
    forall steps: seq<Step>, s: State :: Path(Start(initial, n), steps, s) ==> OneBitTells(s)
  }

  /** The one-bit cycle flag tells every waiter the truth in every run exactly if there
      are no more threads than the barrier expects, or it expects one. */
  lemma OneBitIsEnoughIff(initial: nat, n: nat)
    requires initial > 0
    ensures AlwaysTells(initial, n) <==> EnoughForOneBit(initial, n)
  {
    if EnoughForOneBit(initial, n) {
      CountedStart(initial, n);
      forall steps, s | Path(Start(initial, n), steps, s) ensures OneBitTells(s) {
        TimelyRun(Start(initial, n), steps, s);
        TimelyTells(s);
      }
    } else {
      var steps, s := SleepThroughTwo(initial, n);
      assert Path(Start(initial, n), steps, s) && !OneBitTells(s);
    }
  }
}
