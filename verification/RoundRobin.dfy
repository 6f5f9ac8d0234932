/** RoundRobinPolicy: the ready queue of one scheduler, the flag on which its dispatcher
    sleeps, and the scheduler that drives both. */
module RoundRobin {
  import opened Wrappers

  type Id = nat

  const DISPATCHER: Id := 0
  const MAIN: Id := 1

  /** The first in the queue, and the rest of the queue. */
  function Picked(q: seq<Id>): (Option<Id>, seq<Id>) {
    if q == [] then (None, []) else (Some(q[0]), q[1..])
  }

  class RoundRobinPolicy {
    var readyQueue: seq<Id>
    var flag: bool

    constructor ()
      ensures readyQueue == [] && !flag
    {
      readyQueue, flag := [], false;
    }

    method Awakened(ctx: Id)
      modifies this`readyQueue
      ensures readyQueue == old(readyQueue) + [ctx]
    {
      readyQueue := readyQueue + [ctx];
    }

    method PickNext() returns (ctx: Option<Id>)
      modifies this`readyQueue
      ensures old(readyQueue) == [] ==> ctx == None && readyQueue == []
      ensures old(readyQueue) != [] ==> ctx == Some(old(readyQueue)[0]) && readyQueue == old(readyQueue)[1..]
      ensures (ctx, readyQueue) == Picked(old(readyQueue))
    {
      ctx := None;
      if |readyQueue| != 0 {
        ctx := Some(readyQueue[0]);
        readyQueue := readyQueue[1..];
      }
    }

    method HasReadyFibers() returns (r: bool)
      ensures r <==> readyQueue != []
    {
      r := |readyQueue| != 0;
    }

    /** The part of SuspendUntil that follows each acquisition of the mutex: the wait ends
        when the flag is up or the time has come, and then the flag goes down. */
    method EndWait(timedOut: bool) returns (ended: bool)
      modifies this`flag
      ensures ended <==> old(flag) || timedOut
      ensures if ended then !flag else flag == old(flag)
      ensures (ended, flag) == WaitEnded(old(flag), timedOut)
    {
      ended := flag || timedOut;
      if ended {
        flag := false;
      }
    }

    /** Notify before it calls notify_all. */
    method Raise()
      modifies this`flag
      ensures flag
    {
      flag := true;
    }
  }

  function WaitEnded(flag: bool, timedOut: bool): (bool, bool) {
    (flag || timedOut, flag && !(flag || timedOut))
  }

  // ---------- One thread with its scheduler ----------

  /** Where the dispatcher is while it runs. */
  datatype Phase = Loop | FoundNone | Parked | Woken

  /** Why a run cannot go on: PickNext returned null and was dereferenced, or it returned a
      context that runs already or has ended, or the scheduler's mutex was locked that an ended
      context holds for ever. */
  datatype Fault = NoFault | NullPicked | NotResumable | SelfLocked

  /** `waiting` has a context as often as somebody is going to awaken it, `sleeping` is the
      sleep queue, identities from `next` on are unused.  `held`: mtx_ is held by the frame of
      a context that has ended in Terminate, which never returns. */
  datatype Contexts = Contexts(waiting: multiset<Id>, sleeping: multiset<Id>, alive: set<Id>, next: Id, held: bool)

  /** `due` counts the calls of Notify that have raised the flag and not yet called
      notify_all.  Since the dispatcher last found the queue empty, the contexts `arrived`
      were scheduled, and Notify raised the flag if `notified`. */
  datatype Bell = Bell(phase: Phase, flag: bool, due: nat, arrived: seq<Id>, notified: bool)

  datatype World = World(queue: seq<Id>, running: Id, all: Contexts, bell: Bell, fault: Fault)

  datatype Step =
    | Start                    // Fiber with ELaunch::Post: a new context is scheduled
    | Launch                   // Fiber with ELaunch::Dispatch: it runs at once, its starter is scheduled
    | Awaken(c: Id)            // by what c waits for, maybe on another thread
    | Block                    // Suspend: the running context gives way
    | End                      // Terminate
    | Yield                    // the running context gives way and is scheduled again
    | WaitUntil                // the same, after it was put into the sleep queue
    | Dispatch                 // the dispatcher resumes a context and is scheduled again
    | Expire(c: Id)            // ProcSleepToReady finds that the time of c has come
    | FindNone                 // PickNext finds the queue empty for the dispatcher
    | Sleep(timedOut: bool)    // SuspendUntil, up to the first wait
    | Stir                     // a wakeup that no Notify caused
    | Recheck(timedOut: bool)  // the condition variable looks at the flag again
    | Notify
    | NotifyAll

  predicate Enabled(w: World, step: Step) {
    && w.fault.NoFault?
    && match step
       case Awaken(c) => w.all.waiting[c] > 0
       case Start | Launch | Block | Yield | WaitUntil => w.running != DISPATCHER
       case End => w.running != DISPATCHER && w.running != MAIN
       case Dispatch => w.running == DISPATCHER && w.bell.phase.Loop? && w.queue != []
       case Expire(c) => w.running == DISPATCHER && w.bell.phase.Loop? && w.all.sleeping[c] > 0
       case FindNone => w.running == DISPATCHER && w.bell.phase.Loop? && w.queue == []
       case Sleep(timedOut) => w.bell.phase.FoundNone? && (timedOut ==> HasDeadline(w))
       case Stir => w.bell.phase.Parked?
       case Recheck(timedOut) => w.bell.phase.Woken? && (timedOut ==> HasDeadline(w))
       case Notify => true
       case NotifyAll => w.bell.due > 0
  }

  predicate HasDeadline(w: World) {
    w.all.sleeping != multiset{}
  }

  function Scheduled(w: World, c: Id): World {
    w.(queue := w.queue + [c], bell := w.bell.(arrived := w.bell.arrived + [c]))
  }

  /** The running context resumes what PickNext gives it; `again` are scheduled after that,
      and `after` is what becomes of the rest. */
  function Switched(w: World, after: Contexts, again: seq<Id>): World {
    var (c, rest) := Picked(w.queue);
    if c.None? then w.(fault := NullPicked)
    else if c.value == w.running || c.value !in after.alive then w.(fault := NotResumable)
    else w.(running := c.value, queue := rest + again, all := after)
  }

  function Waited(w: World, timedOut: bool): World {
    var (ended, flag) := WaitEnded(w.bell.flag, timedOut);
    w.(bell := w.bell.(phase := if ended then Loop else Parked, flag := flag))
  }

  function Do(w: World, step: Step): World
    requires Enabled(w, step)
  {
    var r, all, bell := w.running, w.all, w.bell;
    match step
    case Start =>
      if w.all.held then w.(fault := SelfLocked)
      else Scheduled(w.(all := all.(alive := all.alive + {all.next}, next := all.next + 1)), all.next)
    case Launch =>
      if w.all.held then w.(fault := SelfLocked)
      else w.(all := all.(alive := all.alive + {all.next}, next := all.next + 1),
              running := all.next, queue := w.queue + [r])
    case Awaken(c) => Scheduled(w.(all := all.(waiting := all.waiting - multiset{c})), c)
    case Block => Switched(w, all.(waiting := all.waiting + multiset{r}), [])
    case End =>
      if w.all.held then w.(fault := SelfLocked) else Switched(w, all.(alive := all.alive - {r}, held := true), [])
    case Yield => Switched(w, all, [r])
    case WaitUntil => Switched(w, all.(sleeping := all.sleeping + multiset{r}), [r])
    case Dispatch => Switched(w, all, [r])
    case Expire(c) => Scheduled(w.(all := all.(sleeping := all.sleeping - multiset{c})), c)
    case FindNone => w.(bell := bell.(phase := FoundNone, arrived := [], notified := false))
    case Sleep(timedOut) => Waited(w, timedOut)
    case Stir => w.(bell := bell.(phase := Woken))
    case Recheck(timedOut) => Waited(w, timedOut)
    case Notify => w.(bell := bell.(flag := true, due := bell.due + 1, notified := true))
    case NotifyAll => w.(bell := bell.(due := bell.due - 1, phase := if bell.phase.Parked? then Woken else bell.phase))
  }

  ghost predicate Path(w: World, steps: seq<Step>, w': World)
    decreases |steps|
  {
    if steps == [] then w == w'
    else Enabled(w, steps[0]) && Path(Do(w, steps[0]), steps[1..], w')
  }

  /** The main context runs and the dispatcher has been scheduled. */
  const START := World([DISPATCHER], MAIN, Contexts(multiset{}, multiset{}, {DISPATCHER, MAIN}, 2, false),
                       Bell(Loop, false, 0, [], false), NoFault)

  // ---------- One place for each context ----------

  /** In how many places context c is: it runs, is queued, or waits to be awakened. */
  function Places(w: World, c: Id): nat {
    multiset(w.queue)[c] + w.all.waiting[c] + if w.running == c then 1 else 0
  }

  /** A context is in one place as long as it lives and in none before and after. */
  predicate Placed(w: World, c: Id) {
    Places(w, c) == if c in w.all.alive then 1 else 0
  }

  ghost predicate AllPlaced(w: World) {
    forall c: Id :: Placed(w, c)
  }

  /** New identities are unused, and the dispatcher neither waits, sleeps nor ends. */
  ghost predicate Known(w: World) {
    && (forall c: Id :: c >= w.all.next ==> c !in w.all.alive && Places(w, c) == 0 && w.all.sleeping[c] == 0)
    && DISPATCHER in w.all.alive && w.all.waiting[DISPATCHER] == 0 && w.all.sleeping[DISPATCHER] == 0
  }

  lemma Rest(q: seq<Id>)
    requires q != []
    ensures multiset(q) == multiset{q[0]} + multiset(q[1..])
  {
    assert q == [q[0]] + q[1..];
  }

  /** The steps that pick. */
  predicate Takes(step: Step) {
    step.Block? || step.End? || step.Yield? || step.WaitUntil? || step.Dispatch?
  }

  /** A pick moves the first of the queue to the processor. */
  lemma SwitchedPlaces(w: World, after: Contexts, again: seq<Id>, c: Id)
    requires Switched(w, after, again).fault.NoFault?
    ensures Places(Switched(w, after, again), c) == multiset(w.queue)[c] + multiset(again)[c] + after.waiting[c]
  {
    Rest(w.queue);
  }

  lemma GivingWay(w: World, step: Step, c: Id)
    requires Enabled(w, step) && (step.Block? || step.End?) && Do(w, step).fault.NoFault?
    ensures Places(Do(w, step), c) == Places(w, c) - if step.End? && c == w.running then 1 else 0
  {
    if step.Block? {
      SwitchedPlaces(w, w.all.(waiting := w.all.waiting + multiset{w.running}), [], c);
    } else {
      SwitchedPlaces(w, w.all.(alive := w.all.alive - {w.running}, held := true), [], c);
    }
  }

  lemma Requeueing(w: World, step: Step, c: Id)
    requires Enabled(w, step) && (step.Yield? || step.WaitUntil? || step.Dispatch?) && Do(w, step).fault.NoFault?
    ensures Places(Do(w, step), c) == Places(w, c)
  {
    var r := w.running;
    var after := if step.WaitUntil? then w.all.(sleeping := w.all.sleeping + multiset{r}) else w.all;
    assert Do(w, step) == Switched(w, after, [r]);
    SwitchedPlaces(w, after, [r], c);
  }

  lemma Faulting(w: World, step: Step)
    requires Enabled(w, step) && !Do(w, step).fault.NoFault?
    ensures Do(w, step) == w.(fault := Do(w, step).fault)
  {
  }

  lemma ScheduledPlaces(w: World, d: Id, c: Id)
    ensures Places(Scheduled(w, d), c) == Places(w, c) + if c == d then 1 else 0
  {
  }

  lemma Scheduling(w: World, step: Step, c: Id)
    requires Enabled(w, step) && (step.Start? || step.Awaken? || step.Expire?) && Do(w, step).fault.NoFault?
    ensures Places(Do(w, step), c) == Places(w, c) 
            + if (step.Start? && c == w.all.next) || step == Expire(c) then 1 else 0
  {
    if step.Start? {
      ScheduledPlaces(w.(all := w.all.(alive := w.all.alive + {w.all.next}, next := w.all.next + 1)), w.all.next, c);
    } else if step.Awaken? {
      ScheduledPlaces(w.(all := w.all.(waiting := w.all.waiting - multiset{step.c})), step.c, c);
    } else {
      ScheduledPlaces(w.(all := w.all.(sleeping := w.all.sleeping - multiset{step.c})), step.c, c);
    }
  }

  /** What a step does to the places of a context. */
  lemma PlacesStep(w: World, step: Step, c: Id)
    requires Enabled(w, step) && Do(w, step).fault.NoFault?
    ensures var w' := Do(w, step);
            Places(w', c) == Places(w, c)
              + (if c == w.all.next && (step.Start? || step.Launch?) then 1 else 0)
              + (if step == Expire(c) then 1 else 0)
              - (if step.End? && c == w.running then 1 else 0)
  {
    if step.Block? || step.End? {
      GivingWay(w, step, c);
    } else if Takes(step) {
      Requeueing(w, step, c);
    } else if step.Start? || step.Awaken? || step.Expire? {
      Scheduling(w, step, c);
    } else if step.Launch? {
      assert Do(w, step).queue == w.queue + [w.running];
    } else {
      assert Do(w, step).queue == w.queue && Do(w, step).running == w.running
          && Do(w, step).all.waiting == w.all.waiting;
    }
  }

  /** What a step does to a context, and to the identities that are in use. */
  ghost predicate Effect(w: World, step: Step, c: Id, w': World) {
    && w'.all.next == w.all.next + (if step.Start? || step.Launch? then 1 else 0)
    && (c in w'.all.alive <==>
          || (c in w.all.alive && !(step.End? && c == w.running))
          || ((step.Start? || step.Launch?) && c == w.all.next))
    && w'.all.waiting[c] <= w.all.waiting[c] + (if step.Block? && c == w.running then 1 else 0)
    && w'.all.sleeping[c] <= w.all.sleeping[c] + (if step.WaitUntil? && c == w.running then 1 else 0)
    && Places(w', c) == Places(w, c)
         + (if c == w.all.next && (step.Start? || step.Launch?) then 1 else 0)
         + (if step == Expire(c) then 1 else 0)
         - (if step.End? && c == w.running then 1 else 0)
  }

  lemma AliveEffect(w: World, step: Step)
    requires Enabled(w, step) && Do(w, step).fault.NoFault?
    ensures Do(w, step).all.next == w.all.next + if step.Start? || step.Launch? then 1 else 0
    ensures step.End? ==> Do(w, step).all.alive == w.all.alive - {w.running}
    ensures step.Start? || step.Launch? ==> Do(w, step).all.alive == w.all.alive + {w.all.next}
    ensures !step.End? && !step.Start? && !step.Launch? ==> Do(w, step).all.alive == w.all.alive
  {
    if Takes(step) {
      assert Do(w, step).all.alive == if step.End? then w.all.alive - {w.running} else w.all.alive;
    }
  }

  lemma WaitingEffect(w: World, step: Step)
    requires Enabled(w, step) && Do(w, step).fault.NoFault?
    ensures Do(w, step).all.waiting == if step.Block? then w.all.waiting + multiset{w.running}
            else if step.Awaken? then w.all.waiting - multiset{step.c} else w.all.waiting
  {
  }

  lemma SleepingEffect(w: World, step: Step)
    requires Enabled(w, step) && Do(w, step).fault.NoFault?
    ensures Do(w, step).all.sleeping == if step.WaitUntil? then w.all.sleeping + multiset{w.running}
            else if step.Expire? then w.all.sleeping - multiset{step.c} else w.all.sleeping
  {
  }

  lemma StepEffect(w: World, step: Step, c: Id)
    requires Enabled(w, step) && Do(w, step).fault.NoFault?
    ensures Effect(w, step, c, Do(w, step))
  {
    AliveEffect(w, step);
    WaitingEffect(w, step);
    SleepingEffect(w, step);
    PlacesStep(w, step, c);
    EffectOf(w, step, c, Do(w, step));
  }

  lemma EffectOf(w: World, step: Step, c: Id, w': World)
    requires w'.all.next == w.all.next + if step.Start? || step.Launch? then 1 else 0
    requires w'.all.alive == if step.End? then w.all.alive - {w.running}
             else if step.Start? || step.Launch? then w.all.alive + {w.all.next} else w.all.alive
    requires w'.all.waiting == if step.Block? then w.all.waiting + multiset{w.running}
             else if step.Awaken? then w.all.waiting - multiset{step.c} else w.all.waiting
    requires w'.all.sleeping == if step.WaitUntil? then w.all.sleeping + multiset{w.running}
             else if step.Expire? then w.all.sleeping - multiset{step.c} else w.all.sleeping
    requires Places(w', c) == Places(w, c)
              + (if c == w.all.next && (step.Start? || step.Launch?) then 1 else 0)
              + (if step == Expire(c) then 1 else 0)
              - (if step.End? && c == w.running then 1 else 0)
    ensures Effect(w, step, c, w')
  {
  }

  lemma PlacedAfter(w: World, step: Step, c: Id, w': World)
    requires Known(w) && Placed(w, c) && Effect(w, step, c, w') && step != Expire(c)
    ensures Placed(w', c)
  {
  }

  /** Every step but the expiry of its own deadline keeps a context placed. */
  lemma PlacedStep(w: World, step: Step, c: Id)
    requires Known(w) && Placed(w, c) && Enabled(w, step) && step != Expire(c)
    ensures Placed(Do(w, step), c)
  {
    if Do(w, step).fault.NoFault? {
      StepEffect(w, step, c);
      PlacedAfter(w, step, c, Do(w, step));
    } else {
      Faulting(w, step);
    }
  }

  lemma KnownAfter(w: World, step: Step, w': World)
    requires Known(w) && forall c: Id :: Effect(w, step, c, w')
    requires w.running == DISPATCHER ==> !step.Block? && !step.End? && !step.WaitUntil?
    requires step.Expire? ==> w.all.sleeping[step.c] > 0
    ensures Known(w')
  {
    assert Effect(w, step, DISPATCHER, w');
    forall c: Id | c >= w'.all.next ensures c !in w'.all.alive && Places(w', c) == 0 && w'.all.sleeping[c] == 0 {
      assert Effect(w, step, c, w');
      assert Places(w, c) == 0;
    }
  }

  lemma KnownStep(w: World, step: Step)
    requires Known(w) && Enabled(w, step)
    ensures Known(Do(w, step))
  {
    var w' := Do(w, step);
    if w'.fault.NoFault? {
      forall c: Id ensures Effect(w, step, c, w') {
        StepEffect(w, step, c);
      }
      KnownAfter(w, step, w');
    } else {
      Faulting(w, step);
      assert forall c: Id :: Places(w', c) == Places(w, c);
    }
  }

  /** A placed context runs, is queued or waits, one of the three and once, if and only if it
      lives. */
  lemma PlacedMeans(w: World, c: Id)
    requires Placed(w, c)
    ensures c in w.all.alive <==> w.running == c || c in w.queue || c in w.all.waiting
    ensures w.running == c ==> c !in w.queue && c !in w.all.waiting
    ensures c in w.queue ==> multiset(w.queue)[c] == 1 && c !in w.all.waiting
    ensures w.all.waiting[c] <= 1
  {
    assert c in w.queue <==> multiset(w.queue)[c] > 0;
  }

  lemma {:induction false} DispatcherPlaced(w: World, steps: seq<Step>, w': World)
    requires Known(w) && Placed(w, DISPATCHER) && !w.fault.NullPicked? && Path(w, steps, w')
    ensures Known(w') && Placed(w', DISPATCHER) && !w'.fault.NullPicked?
    decreases |steps|
  {
    if steps != [] {
      KnownStep(w, steps[0]);
      PlacedStep(w, steps[0], DISPATCHER);
      DispatcherPlaced(Do(w, steps[0]), steps[1..], w');
    }
  }

  /** Yield, Suspend and Terminate use what PickNext returns without looking whether it is
      null.  It never is: whenever a context other than the dispatcher runs, the dispatcher
      is queued, once; also in runs in which deadlines expire. */
  lemma PickNextFindsOne(steps: seq<Step>, w: World)
    requires Path(START, steps, w)
    ensures !w.fault.NullPicked?
    ensures w.running != DISPATCHER ==> Picked(w.queue).0.Some? && multiset(w.queue)[DISPATCHER] == 1
  {
    DispatcherPlaced(START, steps, w);
  }

  ghost predicate AllPlacedThroughout(w: World, steps: seq<Step>)
    decreases |steps|
  {
    AllPlaced(w) && (steps != [] && Enabled(w, steps[0]) ==> AllPlacedThroughout(Do(w, steps[0]), steps[1..]))
  }

  predicate Expires(steps: seq<Step>) {
    exists k :: 0 <= k < |steps| && steps[k].Expire?
  }

  /** The step locks the scheduler's mutex: starting a context, which is attached, or ending
      one. */
  predicate TakesLock(step: Step) {
    step.Start? || step.Launch? || step.End?
  }

  /** As long as every context is in its place the only fault is to lock the mutex again. */
  lemma FaultStep(w: World, step: Step)
    requires Known(w) && AllPlaced(w) && Enabled(w, step)
    ensures Do(w, step).fault == if TakesLock(step) && w.all.held then SelfLocked else NoFault
    ensures Do(w, step).fault.NoFault? ==> Do(w, step).all.held == (w.all.held || step.End?)
  {
    assert Placed(w, DISPATCHER);
    if w.queue != [] {
      Rest(w.queue);
      assert Placed(w, w.queue[0]);
    }
  }

  lemma PlacedOrExpired(w: World, step: Step)
    requires Known(w) && AllPlaced(w) && Enabled(w, step)
    ensures AllPlaced(Do(w, step)) <==> !step.Expire?
  {
    var w1 := Do(w, step);
    if step.Expire? {
      StepEffect(w, step, step.c);
      assert Placed(w, step.c) && !Placed(w1, step.c);
    } else {
      forall c: Id ensures Placed(w1, c) {
        PlacedStep(w, step, c);
      }
    }
  }

  lemma ExpiresLater(steps: seq<Step>)
    requires steps != []
    ensures Expires(steps) <==> steps[0].Expire? || Expires(steps[1..])
  {
    assert forall k :: 0 < k < |steps| ==> steps[k] == steps[1..][k - 1];
    assert forall k :: 0 <= k < |steps[1..]| ==> steps[1..][k] == steps[k + 1];
  }

  lemma {:induction false} PlacedUnlessExpired(w: World, steps: seq<Step>, w': World)
    requires Known(w) && AllPlaced(w) && w.fault.NoFault? && Path(w, steps, w')
    ensures AllPlacedThroughout(w, steps) <==> !Expires(steps)
    ensures !Expires(steps) ==> AllPlaced(w') && (w'.fault.NoFault? || w'.fault.SelfLocked?)
    decreases |steps|
  {
    if steps != [] {
      var step, w1 := steps[0], Do(w, steps[0]);
      KnownStep(w, step);
      PlacedOrExpired(w, step);
      FaultStep(w, step);
      ExpiresLater(steps);
      if !step.Expire? && w1.fault.NoFault? {
        PlacedUnlessExpired(w1, steps[1..], w');
      }
    }
  }

  /** Every context is where it belongs, and nothing has gone wrong. */
  ghost predicate Sound(w: World) {
    AllPlaced(w) && w.fault.NoFault?
  }

  ghost predicate SoundThroughout(w: World, steps: seq<Step>)
    decreases |steps|
  {
    Sound(w) && (steps != [] && Enabled(w, steps[0]) ==> SoundThroughout(Do(w, steps[0]), steps[1..]))
  }

  /** In these steps the mutex is locked after a context has ended, in them or before. */
  predicate LocksAgain(ended: bool, steps: seq<Step>)
    decreases |steps|
  {
    steps != [] && ((TakesLock(steps[0]) && ended) || LocksAgain(ended || steps[0].End?, steps[1..]))
  }

  lemma {:induction false} SoundUnless(w: World, steps: seq<Step>, w': World)
    requires Known(w) && Sound(w) && Path(w, steps, w')
    ensures SoundThroughout(w, steps) <==> !Expires(steps) && !LocksAgain(w.all.held, steps)
    decreases |steps|
  {
    if steps != [] {
      var step, w1 := steps[0], Do(w, steps[0]);
      KnownStep(w, step);
      PlacedOrExpired(w, step);
      FaultStep(w, step);
      ExpiresLater(steps);
      if Sound(w1) {
        SoundUnless(w1, steps[1..], w');
      }
    }
  }

  /** In every state of a run each living context is in exactly one place, and each other in
      none, if and only if no deadline of WaitUntil expires in it.  Nothing is resumed that
      runs or has ended either, and no mutex is locked that stays locked, if and only if
      besides no context is started or ended once one has ended. */
  lemma OnePlaceIff(steps: seq<Step>, w: World)
    requires Path(START, steps, w)
    ensures AllPlacedThroughout(START, steps) <==> !Expires(steps)
    ensures SoundThroughout(START, steps) <==> !Expires(steps) && !LocksAgain(false, steps)
    ensures !Expires(steps) ==> AllPlaced(w)
  {
    PlacedUnlessExpired(START, steps, w);
    SoundUnless(START, steps, w);
  }

  lemma PathFirst(w: World, step: Step, rest: seq<Step>, w': World)
    requires Enabled(w, step) && Path(Do(w, step), rest, w')
    ensures Path(w, [step] + rest, w')
  {
    assert ([step] + rest)[1..] == rest;
  }

  lemma {:induction false} PathThen(w: World, steps: seq<Step>, w1: World, step: Step)
    requires Path(w, steps, w1) && Enabled(w1, step)
    ensures Path(w, steps + [step], Do(w1, step))
    decreases |steps|
  {
    if steps == [] {
      PathFirst(w, step, [], Do(w, step));
      assert steps + [step] == [step] + [];
    } else {
      PathThen(Do(w, steps[0]), steps[1..], w1, step);
      PathFirst(w, steps[0], steps[1..] + [step], Do(w1, step));
      assert steps + [step] == [steps[0]] + (steps[1..] + [step]);
    }
  }

  /** The main context has started two fibers and blocks. */
  lemma TwoFibers() returns (w: World)
    ensures Path(START, [Start, Start, Block], w) && w.fault.NoFault? && w.bell.phase.Loop? && !w.all.held
    ensures w.running == DISPATCHER && w.queue == [2, 3] && {2, 3} <= w.all.alive
  {
    var w1 := Do(START, Start);
    PathThen(START, [], START, Start);
    assert w1.queue == [DISPATCHER, 2] && w1.all.alive == {0, 1, 2};
    var w2 := Do(w1, Start);
    PathThen(START, [Start], w1, Start);
    assert w2.queue == [DISPATCHER, 2, 3] && w2.all.alive == {0, 1, 2, 3};
    w := Do(w2, Block);
    PathThen(START, [Start, Start], w2, Block);
    assert [Start, Start, Block] == [Start, Start] + [Block];
  }

  /** Two fibers are enough: the main context starts them and blocks, the first one ends while
      the second is next, and that one locks the mutex in vain when it ends. */
  lemma SecondEndLocks() returns (steps: seq<Step>, w: World)
    ensures steps == [Start, Start, Block, Dispatch, End] && Path(START, steps, w) && w.fault.NoFault?
    ensures w.running == 3 && Enabled(w, End) && Do(w, End).fault.SelfLocked?
  {
    var w3 := TwoFibers();
    steps := [Start, Start, Block];
    var w4 := Do(w3, Dispatch);
    PathThen(START, steps, w3, Dispatch);
    assert w4.running == 2 && w4.queue == [3, DISPATCHER] && w4.all == w3.all;
    w := Do(w4, End);
    PathThen(START, steps + [Dispatch], w4, End);
    steps := steps + [Dispatch] + [End];
  }

  /** WaitUntil puts the running context into the sleep queue and schedules it as well.  If
      its deadline is already past, ProcSleepToReady schedules it once more; it then runs
      while it is queued, and when it blocks it is told to resume itself. */
  lemma MainIsQueuedTwice() returns (steps: seq<Step>, w: World)
    ensures steps == [WaitUntil, Expire(MAIN)] && Path(START, steps, w)
    ensures w.queue == [MAIN, MAIN]
    ensures Enabled(w, Dispatch) && Enabled(Do(w, Dispatch), Block) && Do(Do(w, Dispatch), Block).fault.NotResumable?
  {
    steps := [WaitUntil, Expire(MAIN)];
    var w1 := Do(START, WaitUntil);
    w := Do(w1, Expire(MAIN));
    assert Path(w1, steps[1..], w) by { assert steps[1..][1..] == []; }
  }

  /** Each context is in its one place in every state of every run. */
  ghost predicate AlwaysPlaced(maySleep: bool) {
    forall steps: seq<Step>, w: World ::
      Path(START, steps, w) && (WaitUntil in steps ==> maySleep) ==> AllPlaced(w)
  }

  lemma {:induction false} NobodySleeps(w: World, steps: seq<Step>, w': World)
    requires Path(w, steps, w') && WaitUntil !in steps && w.all.sleeping == multiset{}
    ensures !Expires(steps)
    decreases |steps|
  {
    if steps != [] {
      NobodySleeps(Do(w, steps[0]), steps[1..], w');
      assert steps == [steps[0]] + steps[1..];
    }
  }

  /** A program keeps each of its contexts in one place if and only if it does not call
      WaitUntil. */
  lemma SleepingMisplaces(maySleep: bool)
    ensures AlwaysPlaced(maySleep) <==> !maySleep
  {
    if maySleep {
      var steps, w := MainIsQueuedTwice();
      assert !Placed(w, MAIN);
    } else {
      forall steps: seq<Step>, w: World | Path(START, steps, w) && WaitUntil !in steps ensures AllPlaced(w) {
        NobodySleeps(START, steps, w);
        OnePlaceIff(steps, w);
      }
    }
  }

  // ---------- Turns ----------

  function Picks(steps: seq<Step>): nat {
    if steps == [] then 0 else (if Takes(steps[0]) then 1 else 0) + Picks(steps[1..])
  }

  lemma UpStep(w: World, step: Step, k: nat)
    requires Enabled(w, step) && Do(w, step).fault.NoFault? && k < |w.queue| && (Takes(step) ==> k > 0)
    ensures var k' := if Takes(step) then k - 1 else k;
            k' < |Do(w, step).queue| && Do(w, step).queue[k'] == w.queue[k]
  {
  }

  /** An entry moves up by one at every pick and at no other step. */
  lemma {:induction false} MovesUp(w: World, steps: seq<Step>, w': World, k: nat)
    requires Path(w, steps, w') && w'.fault.NoFault? && k < |w.queue| && Picks(steps) <= k
    ensures k - Picks(steps) < |w'.queue| && w'.queue[k - Picks(steps)] == w.queue[k]
    decreases |steps|
  {
    if steps != [] {
      assert steps[1..] == [] || Enabled(Do(w, steps[0]), steps[1..][0]);
      UpStep(w, steps[0], k);
      MovesUp(Do(w, steps[0]), steps[1..], w', if Takes(steps[0]) then k - 1 else k);
    }
  }

  /** A context with k others ahead of it is what the (k+1)-th pick from then on resumes,
      whoever is scheduled meanwhile; so nobody waits for more picks than there are entries. */
  lemma TurnComes(w: World, steps: seq<Step>, w': World, k: nat, step: Step)
    requires Path(w, steps, w') && k < |w.queue| && Picks(steps) == k
    requires Enabled(w', step) && Takes(step)
    ensures Picked(w'.queue).0 == Some(w.queue[k])
    ensures Do(w', step).fault.NoFault? ==> Do(w', step).running == w.queue[k]
  {
    MovesUp(w, steps, w', k);
  }

  // ---------- The flag ----------

  /** While the dispatcher believes the queue empty the queue holds what has arrived since;
      while it waits the flag tells whether Notify was called since, and then it is about to
      hear of it. */
  predicate Flagged(w: World) {
    && (!w.bell.phase.Loop? ==>
          && w.fault.NoFault? && w.running == DISPATCHER && w.queue == w.bell.arrived
          && (w.bell.notified ==> w.bell.flag))
    && (w.bell.phase.Parked? || w.bell.phase.Woken? ==> (w.bell.flag <==> w.bell.notified))
    && (w.bell.phase.Parked? && w.bell.flag ==> w.bell.due > 0)
  }

  lemma {:induction false} FlaggedPath(w: World, steps: seq<Step>, w': World)
    requires Flagged(w) && Path(w, steps, w')
    ensures Flagged(w')
    decreases |steps|
  {
    if steps != [] {
      FlaggedPath(Do(w, steps[0]), steps[1..], w');
    }
  }

  /** While no wait begins, the flag is up if it was or Notify was called. */
  lemma {:induction false} FlagSince(w: World, steps: seq<Step>, w': World)
    requires Path(w, steps, w') && (w.bell.phase.Loop? || w.bell.phase.FoundNone?)
    requires Sleep(true) !in steps && Sleep(false) !in steps
    ensures w'.bell.flag <==> w.bell.flag || Notify in steps
    decreases |steps|
  {
    if steps != [] {
      FlagSince(Do(w, steps[0]), steps[1..], w');
      assert steps == [steps[0]] + steps[1..];
    }
  }

  /** Every wait that ends lowers the flag: after it, up to the next wait, the dispatcher
      parks there if and only if Notify was not called in between. */
  lemma ParksUnlessNotified(w: World, wait: Step, steps: seq<Step>, w': World)
    requires Enabled(w, wait) && (wait.Sleep? || wait.Recheck?) && Do(w, wait).bell.phase.Loop?
    requires Path(Do(w, wait), steps, w') && Sleep(true) !in steps && Sleep(false) !in steps
    requires Enabled(w', Sleep(false))
    ensures !Do(w, wait).bell.flag
    ensures Do(w', Sleep(false)).bell.phase == if Notify in steps then Loop else Parked
    ensures !Do(w', Sleep(false)).bell.flag
  {
    FlagSince(Do(w, wait), steps, w');
  }

  /** A parked dispatcher is going to look at the queue again: it is about to be notified, or
      it waits with a deadline. */
  predicate WillLook(w: World) {
    (w.bell.flag && w.bell.due > 0) || HasDeadline(w)
  }

  /** The dispatcher can get back to its loop without another call of Notify. */
  ghost predicate LooksUnasked(w: World) {
    exists more: seq<Step>, w': World :: Path(w, more, w') && Notify !in more && w'.bell.phase.Loop?
  }

  /** A parked dispatcher looks again without being asked exactly if Notify was called since
      it found the queue empty or somebody sleeps.  So it overlooks a ready context exactly if
      one was scheduled since then, nobody called Notify and nobody sleeps. */
  lemma OverlooksIff(steps: seq<Step>, w: World)
    requires Path(START, steps, w) && w.bell.phase.Parked?
    ensures WillLook(w) <==> w.bell.notified || HasDeadline(w)
    ensures w.queue != [] && !WillLook(w) <==> w.bell.arrived != [] && !w.bell.notified && !HasDeadline(w)
    ensures WillLook(w) <==> LooksUnasked(w)
  {
    FlaggedPath(START, steps, w);
    if WillLook(w) {
      LooksAgain(w);
    } else {
      forall more: seq<Step>, w': World | Path(w, more, w') && Notify !in more ensures !w'.bell.phase.Loop? {
        OverlookedStays(w, more, w');
      }
    }
  }

  lemma LooksAgain(w: World)
    requires w.bell.phase.Parked? && w.fault.NoFault? && WillLook(w)
    ensures LooksUnasked(w)
  {
    var first := if HasDeadline(w) then Stir else NotifyAll;
    var w1 := Do(w, first);
    PathThen(w, [], w, first);
    var w2 := Do(w1, Recheck(HasDeadline(w)));
    PathThen(w, [first], w1, Recheck(HasDeadline(w)));
    assert Path(w, [first] + [Recheck(HasDeadline(w))], w2);
  }

  /** Without Notify and with nobody asleep an overlooked context never runs. */
  lemma {:induction false} OverlookedStays(w: World, steps: seq<Step>, w': World)
    requires w.running == DISPATCHER && (w.bell.phase.Parked? || w.bell.phase.Woken?) && !w.bell.flag && !HasDeadline(w)
    requires Path(w, steps, w') && Notify !in steps
    ensures w'.running == DISPATCHER && (w'.bell.phase.Parked? || w'.bell.phase.Woken?) && w.queue <= w'.queue
    decreases |steps|
  {
    if steps != [] {
      OverlookedStays(Do(w, steps[0]), steps[1..], w');
    }
  }

  /** A wakeup of the parked dispatcher that no Notify caused changes nothing. */
  lemma SpuriousWakeup(w: World)
    requires w.bell.phase.Parked? && !w.bell.flag && w.fault.NoFault?
    ensures Path(w, [Stir, Recheck(false)], w)
  {
    var w1 := Do(w, Stir);
    assert Do(w1, Recheck(false)) == w;
    PathFirst(w1, Recheck(false), [], w);
    PathFirst(w, Stir, [Recheck(false)], w);
  }

  /** With a notification it runs: a parked dispatcher resumes what is awakened. */
  lemma NotifiedRuns(w: World, c: Id) returns (w': World)
    requires w.bell.phase.Parked? && w.running == DISPATCHER && w.queue == [] && w.fault.NoFault?
    requires w.all.waiting[c] > 0 && c in w.all.alive && c != DISPATCHER
    ensures Path(w, [Awaken(c), Notify, NotifyAll, Recheck(false), Dispatch], w')
    ensures w'.running == c && w'.fault.NoFault?
  {
    var w2 := NotifiedWakes(w, c);
    var w3 := Do(w2, NotifyAll);
    assert w3.bell.phase.Woken? && w3.bell.flag && w3.queue == [c] && w3.all == w2.all;
    var w4 := Do(w3, Recheck(false));
    assert w4.bell.phase.Loop? && w4.queue == [c] && w4.all == w2.all;
    w' := Do(w4, Dispatch);
    PathFirst(w4, Dispatch, [], w');
    PathFirst(w3, Recheck(false), [Dispatch], w');
    PathFirst(w2, NotifyAll, [Recheck(false), Dispatch], w');
    var w1 := Do(w, Awaken(c));
    PathFirst(w1, Notify, [NotifyAll, Recheck(false), Dispatch], w');
    PathFirst(w, Awaken(c), [Notify, NotifyAll, Recheck(false), Dispatch], w');
  }

  lemma NotifiedWakes(w: World, c: Id) returns (w2: World)
    requires w.bell.phase.Parked? && w.running == DISPATCHER && w.queue == [] && w.fault.NoFault?
    requires w.all.waiting[c] > 0 && c in w.all.alive
    ensures Enabled(w, Awaken(c)) && Enabled(Do(w, Awaken(c)), Notify) && w2 == Do(Do(w, Awaken(c)), Notify)
    ensures w2.bell.phase.Parked? && w2.bell.flag && w2.bell.due > 0 && w2.fault.NoFault?
    ensures w2.queue == [c] && w2.running == DISPATCHER && c in w2.all.alive
  {
    w2 := Do(Do(w, Awaken(c)), Notify);
  }

  /** The main context blocks and the dispatcher parks. */
  lemma DispatcherParks() returns (w: World)
    ensures Path(START, [Block, FindNone, Sleep(false)], w) && w.fault.NoFault? && w.bell.phase.Parked? && !w.bell.flag
    ensures w.queue == [] && w.running == DISPATCHER && w.all.waiting == multiset{MAIN} && !HasDeadline(w)
  {
    var w1 := Do(START, Block);
    PathThen(START, [], START, Block);
    assert w1.queue == [] && w1.running == DISPATCHER && w1.all.waiting == multiset{MAIN};
    var w2 := Do(w1, FindNone);
    PathThen(START, [Block], w1, FindNone);
    w := Do(w2, Sleep(false));
    PathThen(START, [Block, FindNone], w2, Sleep(false));
    assert [Block, FindNone, Sleep(false)] == [Block, FindNone] + [Sleep(false)];
  }

  /** Scheduler::Schedule awakens without calling Notify, so it happens: the main context
      blocks, the dispatcher parks, another thread wakes the main context. */
  lemma MainIsOverlooked() returns (steps: seq<Step>, w: World)
    ensures Path(START, steps, w) && w.bell.phase.Parked? && w.queue == [MAIN] && !WillLook(w)
    ensures Notify !in steps
  {
    var w3 := DispatcherParks();
    w := Do(w3, Awaken(MAIN));
    PathThen(START, [Block, FindNone, Sleep(false)], w3, Awaken(MAIN));
    steps := [Block, FindNone, Sleep(false)] + [Awaken(MAIN)];
  }
}
