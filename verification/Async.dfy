/** Async: a packaged task handed to a fiber that any thread may pick, and the futures that
    wait for it. */
module Async {
  import opened Wrappers
  import SW = SharedWork
  import F = Future

  type Id = SW.Id
  type Result = F.Outcome<int, int>

  /** How far the fiber of a task has come: it was never resumed, it is inside the function,
      or the function has ended.  A context that is resumed goes on where it was. */
  datatype Body = Fresh | Inside | Done

  /** The task of one Async call.  Agent 0 of `cell` is its fiber in TaskObject::Run, the
      others call Get.  `executions` counts how often the function was entered, `results`
      lists what it ended with, and `requeued` counts how often the fiber was scheduled
      again after its start. */
  datatype Task = Task(body: Body, cell: F.State<int, int>, executions: nat, results: seq<Result>, requeued: nat)

  datatype System = System(w: SW.World, tasks: map<Id, Task>)

  datatype Step =
    | Async(i: nat, getters: nat)          // thread i calls Async; so many threads will call Get
    | Sched(step: SW.Step)
    | Finish(c: Id, result: Result)        // the function ends; TaskObject::Run is about to store
    | Store(c: Id)
    | Notify(c: Id)
    | Get(c: Id, g: nat)                   // takes the mutex and looks; waits if it is not ready
    | Wake(c: Id, g: nat)                  // also without any notification

  function NewTask(getters: nat): Task {
    Task(Fresh, F.Start(1 + getters), 0, [], 0)
  }

  /** The fiber c executes code of its own, not of the library. */
  predicate Executes(w: SW.World, c: Id) {
    exists i :: 0 <= i < |w.threads| && w.threads[i] == SW.Thread(c, SW.Code)
  }

  /** A call into the scheduler by the context that thread step.i runs. */
  predicate IsCall(step: SW.Step) {
    step.New? || step.Awaken? || step.Look? || step.YieldOrigin? || step.WaitUntil?
  }

  /** The function of a task may call the scheduler in any way but to end its context; that
      is what Run_ does after TaskObject::Run has returned. */
  predicate MayCall(s: System, step: SW.Step) {
    IsCall(step) && step.i < |s.w.threads| && s.w.threads[step.i].active in s.tasks ==>
      var t := s.tasks[s.w.threads[step.i].active];
      if step.Look? && step.next.Ends? then |t.cell.agents| > 0 && t.cell.agents[0].Returned? else t.body.Inside?
  }

  predicate HasAgent(s: System, c: Id, g: nat) {
    c in s.tasks && g < |s.tasks[c].cell.agents| && s.tasks[c].cell.cell.Valid()
  }

  predicate Enabled(s: System, step: Step) {
    match step
    case Async(i, _) => SW.Enabled(s.w, SW.New(i, SW.Async)) && MayCall(s, SW.New(i, SW.Async))
    case Sched(st) => SW.Enabled(s.w, st) && MayCall(s, st)
    case Finish(c, result) => HasAgent(s, c, 0) && s.tasks[c].body.Inside? && Executes(s.w, c)
        && F.Enabled(s.tasks[c].cell, F.Call(0, result))
    case Store(c) => HasAgent(s, c, 0) && Executes(s.w, c) && F.Enabled(s.tasks[c].cell, F.Store(0))
    case Notify(c) => HasAgent(s, c, 0) && Executes(s.w, c) && F.Enabled(s.tasks[c].cell, F.Notify(0))
    case Get(c, g) => g > 0 && HasAgent(s, c, g) && F.Enabled(s.tasks[c].cell, F.Get(g))
    case Wake(c, g) => g > 0 && HasAgent(s, c, g) && F.Enabled(s.tasks[c].cell, F.Wake(g))
  }

  /** Whether the step schedules c, which was started before. */
  predicate Requeues(w: SW.World, st: SW.Step, c: Id)
    requires SW.Enabled(w, st)
  {
    var t := w.threads[st.i];
    || ((st.Awaken? || st.Expire?) && st.c == c)
    || (st.YieldOrigin? && SW.Misplaces(w, st) && t.active == c)
    || (st.Resume? && t.act.next.Yields? && t.active == c)
  }

  predicate Resumes(w: SW.World, st: SW.Step, c: Id)
    requires SW.Enabled(w, st)
  {
    st.Resume? && w.threads[st.i].act.c == c
  }

  function Moved(w: SW.World, st: SW.Step, c: Id, t: Task): Task
    requires SW.Enabled(w, st)
  {
    if SW.Do(w, st).fault != SW.NoFault then t
    else
      var t1 := if Requeues(w, st, c) then t.(requeued := t.requeued + 1) else t;
      if Resumes(w, st, c) && t.body.Fresh? then t1.(body := Inside, executions := t.executions + 1) else t1
  }

  function Do(s: System, step: Step): System
    requires Enabled(s, step)
  {
    match step
    case Async(i, getters) => System(SW.Do(s.w, SW.New(i, SW.Async)), s.tasks[|s.w.ctx| := NewTask(getters)])
    case Sched(st) => System(SW.Do(s.w, st), map c | c in s.tasks :: Moved(s.w, st, c, s.tasks[c]))
    case Finish(c, result) =>
      var t := s.tasks[c];
      var t' := t.(body := Done, results := t.results + [result], cell := F.Do(t.cell, F.Call(0, result)));
      s.(tasks := s.tasks[c := t'])
    case Store(c) => WithCell(s, c, F.Do(s.tasks[c].cell, F.Store(0)))
    case Notify(c) => WithCell(s, c, F.Do(s.tasks[c].cell, F.Notify(0)))
    case Get(c, g) => WithCell(s, c, F.Do(s.tasks[c].cell, F.Get(g)))
    case Wake(c, g) => WithCell(s, c, F.Do(s.tasks[c].cell, F.Wake(g)))
  }

  function WithCell(s: System, c: Id, cell: F.State<int, int>): System
    requires c in s.tasks
  {
    s.(tasks := s.tasks[c := s.tasks[c].(cell := cell)])
  }

  ghost predicate Path(s: System, steps: seq<Step>, s': System)
    decreases |steps|
  {
    if steps == [] then s == s'
    else Enabled(s, steps[0]) && Path(Do(s, steps[0]), steps[1..], s')
  }

  function Start(n: nat): System {
    System(SW.Start(n), map[])
  }

  // ---------- The cell of a task ----------

  predicate IsGetter(a: F.Agent<int, int>) {
    a.Idle? || a.Asleep? || a.Awake? || a.Got?
  }

  /** The fiber's part in the cell agrees with how far it has come; only what the one
      execution ended with is ever stored. */
  ghost predicate CellOk(t: Task) {
    && F.WriteOnce(t.cell) && |t.cell.agents| > 0
    && (forall g :: 0 < g < |t.cell.agents| ==> IsGetter(t.cell.agents[g]))
    && t.executions == (if t.body.Fresh? then 0 else 1)
    && |t.results| == (if t.body.Done? then 1 else 0)
    && var a := t.cell.agents[0];
       && (t.body.Done? <==> a.Applied? || a.Notifying? || a.Returned?)
       && (if t.body.Done? then t.results == [a.result] else a.Idle?)
       && t.cell.stores == (if a.Notifying? || a.Returned? then t.results else [])
  }

  lemma NewCell(getters: nat)
    ensures CellOk(NewTask(getters))
  {
  }

  lemma FiberStep(t: Task, st: F.Step<int, int>)
    requires CellOk(t) && (st == F.Store(0) || st == F.Notify(0)) && F.Enabled(t.cell, st)
    ensures CellOk(t.(cell := F.Do(t.cell, st)))
  {
    F.WriteOnceStep(t.cell, st);
  }

  lemma GetterStep(t: Task, st: F.Step<int, int>)
    requires CellOk(t) && (st.Get? || st.Wake?) && st.t > 0 && F.Enabled(t.cell, st)
    ensures CellOk(t.(cell := F.Do(t.cell, st)))
  {
    F.WriteOnceStep(t.cell, st);
  }

  lemma FinishStep(t: Task, result: Result)
    requires CellOk(t) && t.body.Inside? && F.Enabled(t.cell, F.Call(0, result))
    ensures CellOk(t.(body := Done, results := t.results + [result], cell := F.Do(t.cell, F.Call(0, result))))
  {
    F.WriteOnceStep(t.cell, F.Call(0, result));
  }

  // ---------- The fiber of a task ----------

  function Pushers(w: SW.World, c: Id): nat {
    SW.ThreadPlaces(w.threads, SW.Pushes(c))
  }

  predicate InHand(t: SW.Thread, c: Id) {
    t.active == c || ((t.act.Attaching? || t.act.Resuming?) && t.act.c == c)
  }

  predicate Knows(w: SW.World, t: SW.Thread) {
    t.active < |w.ctx| && (t.act.Pushing? || t.act.Attaching? || t.act.Resuming? ==> t.act.c < |w.ctx|)
  }

  /** Every context in a queue or at a thread exists, and what left the shared queue had
      entered it. */
  ghost predicate WorldOk(w: SW.World) {
    && SW.Kinds(w) && w.ready.pushed == w.ready.popped + w.ready.queue
    && (forall k :: 0 <= k < |w.ready.pushed| ==> w.ready.pushed[k] < |w.ctx|)
    && (forall i :: 0 <= i < |w.threads| ==> Knows(w, w.threads[i]))
  }

  /** The fiber has been pushed, or is about to be, once for its start and once for each time
      it was scheduled again; no thread has it that did not take it from the shared queue. */
  ghost predicate FiberOk(w: SW.World, c: Id, t: Task) {
    && c < |w.ctx| && w.ctx[c].kind == SW.Worker && w.ctx[c].launch == SW.Async
    && multiset(w.ready.pushed)[c] <= 1 + t.requeued
    && (w.fault.NoFault? ==> multiset(w.ready.pushed)[c] + Pushers(w, c) == 1 + t.requeued)
    && (w.fault.NoFault? ==>
          forall i :: 0 <= i < |w.threads| && InHand(w.threads[i], c) ==> multiset(w.ready.popped)[c] > 0)
    && (t.executions > 0 ==> multiset(w.ready.popped)[c] > 0)
    && (w.fault.NoFault? && SW.Runs(w, c) ==> !t.body.Fresh?)
  }

  ghost predicate AllOk(s: System) {
    && (s.w.fault.NoFault? ==> WorldOk(s.w))
    && s.w.ready.pushed == s.w.ready.popped + s.w.ready.queue
    && forall c :: c in s.tasks ==> CellOk(s.tasks[c]) && FiberOk(s.w, c, s.tasks[c])
  }

  lemma NoPushers(w: SW.World, c: Id)
    ensures (forall i :: 0 <= i < |w.threads| ==> w.threads[i].act != SW.Pushing(c)) ==> Pushers(w, c) == 0
  {
    if forall i :: 0 <= i < |w.threads| ==> w.threads[i].act != SW.Pushing(c) {
      SW.ThreadNone(w.threads, SW.Pushes(c));
    }
  }

  lemma OneThread(w: SW.World, st: SW.Step)
    requires SW.Enabled(w, st)
    ensures |SW.Do(w, st).threads| == |w.threads|
    ensures SW.Do(w, st).threads == w.threads[st.i := SW.Do(w, st).threads[st.i]]
  {
  }

  lemma KnowsLooked(w: SW.World, i: nat, next: SW.Then)
    requires i < |w.threads| && Knows(w, w.threads[i])
    requires w.ready.queue != [] ==> w.ready.queue[0] < |w.ctx|
    ensures var w' := SW.Looked(w, i, next); i < |w'.threads| && Knows(w', w'.threads[i]) && |w'.ctx| == |w.ctx|
  {
  }

  /** The steps that look into the shared queue. */
  lemma KnowsLooking(w: SW.World, st: SW.Step)
    requires SW.Enabled(w, st) && SW.Do(w, st).fault.NoFault? && (st.Look? || st.YieldOrigin? || st.WaitUntil?)
    requires Knows(w, w.threads[st.i]) && (w.ready.queue != [] ==> w.ready.queue[0] < |w.ctx|)
    ensures var w' := SW.Do(w, st); st.i < |w'.threads| && Knows(w', w'.threads[st.i]) && |w'.ctx| >= |w.ctx|
  {
    var i, r := st.i, w.threads[st.i].active;
    var k := SW.SchedulerOf(w, r).value;
    match st
    case Look(_, next) =>
      if next.Ends? {
        KnowsLooked(w.(scheds := w.scheds[k := w.scheds[k].(held := true)]), i, next);
      } else {
        KnowsLooked(w, i, next);
      }
    case YieldOrigin(_) => KnowsLooked(w, i, SW.Yields);
    case WaitUntil(_) =>
      KnowsLooked(SW.WithSleeping(w, k, w.scheds[k].sleeping + multiset{r}), i, SW.Yields);
  }

  lemma KnowsStep(w: SW.World, st: SW.Step)
    requires WorldOk(w) && SW.Enabled(w, st) && SW.Do(w, st).fault.NoFault?
    ensures var w' := SW.Do(w, st); st.i < |w'.threads| && Knows(w', w'.threads[st.i]) && |w'.ctx| >= |w.ctx|
  {
    assert Knows(w, w.threads[st.i]);
    assert w.ready.queue != [] ==> w.ready.queue[0] == w.ready.pushed[|w.ready.popped|];
    match st
    case LookLocally(_) => SW.LocalHand(w, st.i, w.threads[st.i].act.next);
    case New(_, _) => KnowsNew(w, st);
    case Look(_, _) => KnowsLooking(w, st);
    case YieldOrigin(_) => KnowsLooking(w, st);
    case WaitUntil(_) => KnowsLooking(w, st);
    case _ => KnowsOther(w, st);
  }

  lemma KnowsOther(w: SW.World, st: SW.Step)
    requires SW.Enabled(w, st) && SW.Do(w, st).fault.NoFault? && Knows(w, w.threads[st.i])
    requires st.Awaken? || st.Expire? || st.Push? || st.Attach? || st.Resume?
    ensures var w' := SW.Do(w, st); st.i < |w'.threads| && Knows(w', w'.threads[st.i]) && |w'.ctx| >= |w.ctx|
  {
  }

  lemma KnowsNew(w: SW.World, st: SW.Step)
    requires SW.Enabled(w, st) && st.New? && SW.Do(w, st).fault.NoFault? && w.threads[st.i].active < |w.ctx|
    ensures var w' := SW.Do(w, st); st.i < |w'.threads| && Knows(w', w'.threads[st.i]) && |w'.ctx| > |w.ctx|
  {
  }

  lemma PushedStep(w: SW.World, st: SW.Step, k: nat)
    requires WorldOk(w) && SW.Enabled(w, st) && k < |SW.Do(w, st).ready.pushed|
    ensures SW.Do(w, st).ready.pushed[k] < |SW.Do(w, st).ctx|
  {
    assert Knows(w, w.threads[st.i]);
    SW.KindStep(w, st, 0);
    assert k < |w.ready.pushed| ==> SW.Do(w, st).ready.pushed[k] == w.ready.pushed[k];
  }

  lemma WorldStep(w: SW.World, st: SW.Step)
    requires WorldOk(w) && SW.Enabled(w, st) && SW.Do(w, st).fault.NoFault?
    ensures WorldOk(SW.Do(w, st))
  {
    var w' := SW.Do(w, st);
    SW.KindsStep(w, st);
    SW.FifoStep(w, st);
    KnowsStep(w, st);
    OneThread(w, st);
    forall k | 0 <= k < |w'.ready.pushed| ensures w'.ready.pushed[k] < |w'.ctx| {
      PushedStep(w, st, k);
    }
    forall i | 0 <= i < |w'.threads| ensures Knows(w', w'.threads[i]) {
      assert i != st.i ==> Knows(w, w.threads[i]);
    }
  }

  /** c is a worker launched Async. */
  predicate IsFiber(w: SW.World, c: Id) {
    c < |w.ctx| && w.ctx[c].kind == SW.Worker && w.ctx[c].launch == SW.Async
  }

  lemma ScheduledPush(w: SW.World, i: nat, k: SW.Sched, d: Id, c: Id)
    requires i < |w.threads| && k < |w.scheds| && w.threads[i].act.Code? && SW.Scheduled(w, i, k, d).fault.NoFault?
    requires c < |w.ctx| && w.ctx[c].kind == SW.Worker
    ensures var w' := SW.Scheduled(w, i, k, d);
            && w'.ready.pushed == w.ready.pushed && i < |w'.threads|
            && SW.Plays(w'.threads[i], SW.Pushes(c)) == if c == d then 1 else 0
  {
  }

  lemma LookedPush(w: SW.World, i: nat, next: SW.Then, c: Id)
    requires i < |w.threads| && w.threads[i].act.Code?
    ensures var w' := SW.Looked(w, i, next);
            w'.ready.pushed == w.ready.pushed && i < |w'.threads| && SW.Plays(w'.threads[i], SW.Pushes(c)) == 0
  {
  }

  lemma ResumedPush(w: SW.World, i: nat, d: Id, next: SW.Then, c: Id)
    requires i < |w.threads| && w.threads[i].act == SW.Resuming(d, next) && SW.Resumed(w, i, d, next).fault.NoFault?
    requires c < |w.ctx| && w.ctx[c].kind == SW.Worker
    ensures var w' := SW.Resumed(w, i, d, next);
            w'.ready.pushed == w.ready.pushed && i < |w'.threads|
            && SW.Plays(w'.threads[i], SW.Pushes(c)) == if next.Yields? && w.threads[i].active == c then 1 else 0
  {
    if next.Yields? {
      ScheduledPush(w.(threads := w.threads[i := SW.Thread(d, SW.Code)]), i, SW.SchedulerOf(w, d).value,
                    w.threads[i].active, c);
    }
  }

  lemma PushDelta(w: SW.World, st: SW.Step, c: Id)
    requires SW.Kinds(w) && SW.Enabled(w, st) && SW.Do(w, st).fault.NoFault? && IsFiber(w, c)
             && st.i < |SW.Do(w, st).threads|
    ensures var w' := SW.Do(w, st);
            multiset(w'.ready.pushed)[c] + SW.Plays(w'.threads[st.i], SW.Pushes(c))
              == multiset(w.ready.pushed)[c] + SW.Plays(w.threads[st.i], SW.Pushes(c))
                 + if Requeues(w, st, c) then 1 else 0
  {
    var i, act := st.i, w.threads[st.i].act;
    match st
    case Awaken(_, d) =>
        ScheduledPush(SW.With(w, d, SW.Of(w, d).(mode := SW.Live)), i, SW.SchedulerOf(w, d).value, d, c);
    case Look(_, next) => LookedPush(w, i, next, c);
    case Resume(_) => ResumedPush(w, i, act.c, act.next, c);
    case YieldOrigin(_) => LookedPush(w, i, SW.Yields, c);
    case WaitUntil(_) => SleptPush(w, i, c);
    case Expire(_, d) => ExpiredPush(w, i, d, c);
    case _ => OtherPush(w, st, c);
  }

  lemma OtherPush(w: SW.World, st: SW.Step, c: Id)
    requires SW.Enabled(w, st) && SW.Do(w, st).fault.NoFault? && c < |w.ctx| && st.i < |SW.Do(w, st).threads|
    requires st.New? || st.Push? || st.LookLocally? || st.Attach?
    ensures var w' := SW.Do(w, st);
            multiset(w'.ready.pushed)[c] + SW.Plays(w'.threads[st.i], SW.Pushes(c)) ==
                multiset(w.ready.pushed)[c] + SW.Plays(w.threads[st.i], SW.Pushes(c))
  {
  }

  lemma SleptPush(w: SW.World, i: nat, c: Id)
    requires i < |w.threads| && w.threads[i].act.Code? && SW.Slept(w, i).fault.NoFault?
    ensures var w' := SW.Slept(w, i);
            w'.ready.pushed == w.ready.pushed && i < |w'.threads| && SW.Plays(w'.threads[i], SW.Pushes(c)) == 0
  {
    var r := SW.ActiveOf(w, i);
    var k := SW.SchedulerOf(w, r).value;
    LookedPush(SW.WithSleeping(w, k, w.scheds[k].sleeping + multiset{r}), i, SW.Yields, c);
  }

  lemma ExpiredPush(w: SW.World, i: nat, d: Id, c: Id)
    requires i < |w.threads| && w.threads[i].act.Code? && SW.Expired(w, i, d).fault.NoFault?
    requires c < |w.ctx| && w.ctx[c].kind == SW.Worker
    ensures var w' := SW.Expired(w, i, d);
            && w'.ready.pushed == w.ready.pushed && i < |w'.threads|
            && SW.Plays(w'.threads[i], SW.Pushes(c)) == if c == d then 1 else 0
  {
    var k := SW.SchedulerOf(w, SW.ActiveOf(w, i)).value;
    ScheduledPush(SW.WithSleeping(w, k, w.scheds[k].sleeping - multiset{d}), i, k, d, c);
  }

  lemma PushersStep(w: SW.World, st: SW.Step, c: Id)
    requires SW.Kinds(w) && SW.Enabled(w, st) && SW.Do(w, st).fault.NoFault? && IsFiber(w, c)
    ensures var w' := SW.Do(w, st);
            multiset(w'.ready.pushed)[c] + Pushers(w', c) ==
                multiset(w.ready.pushed)[c] + Pushers(w, c) + if Requeues(w, st, c) then 1 else 0
  {
    OneThread(w, st);
    SW.ThreadUpdate(w.threads, st.i, SW.Do(w, st).threads[st.i], SW.Pushes(c));
    PushDelta(w, st, c);
  }

  lemma PoppedOne(w: SW.World, st: SW.Step)
    requires SW.Enabled(w, st)
    ensures var popped := SW.Do(w, st).ready.popped;
            popped == w.ready.popped || (w.ready.queue != [] && popped == w.ready.popped + [w.ready.queue[0]])
  {
  }

  lemma PoppedGrows(w: SW.World, st: SW.Step, c: Id)
    requires SW.Enabled(w, st)
    ensures multiset(SW.Do(w, st).ready.popped)[c] >= multiset(w.ready.popped)[c]
  {
    PoppedOne(w, st);
  }

  lemma FaultPushesNothing(w: SW.World, st: SW.Step)
    requires SW.Enabled(w, st) && !SW.Do(w, st).fault.NoFault?
    ensures SW.Do(w, st).ready.pushed == w.ready.pushed
  {
  }

  lemma LookedHand(w: SW.World, i: nat, next: SW.Then, c: Id)
    requires i < |w.threads| && w.threads[i].act.Code?
    ensures var w' := SW.Looked(w, i, next);
            InHand(w'.threads[i], c) && !InHand(w.threads[i], c) ==> multiset(w'.ready.popped)[c] > 0
  {
  }

  lemma OtherHand(w: SW.World, st: SW.Step, c: Id)
    requires SW.Enabled(w, st) && SW.Do(w, st).fault.NoFault? && c < |w.ctx| && st.i < |SW.Do(w, st).threads|
    requires !st.Look? && !st.LookLocally? && !st.YieldOrigin? && !st.WaitUntil?
    ensures InHand(SW.Do(w, st).threads[st.i], c) ==> InHand(w.threads[st.i], c)
  {
  }

  lemma InHandHere(w: SW.World, st: SW.Step, c: Id)
    requires WorldOk(w) && SW.Enabled(w, st) && SW.Do(w, st).fault.NoFault? && IsFiber(w, c)
             && st.i < |SW.Do(w, st).threads|
    ensures InHand(SW.Do(w, st).threads[st.i], c) && !InHand(w.threads[st.i], c) ==>
            multiset(SW.Do(w, st).ready.popped)[c] > 0
  {
    var i := st.i;
    match st
    case Look(_, next) => LookedHand(w, i, next, c);
    case LookLocally(_) => SW.LocalHand(w, i, w.threads[i].act.next);
    case YieldOrigin(_) => LookedHand(w, i, SW.Yields, c);
    case WaitUntil(_) =>
      var r := SW.ActiveOf(w, i);
      var k := SW.SchedulerOf(w, r).value;
      LookedHand(SW.WithSleeping(w, k, w.scheds[k].sleeping + multiset{r}), i, SW.Yields, c);
    case _ => OtherHand(w, st, c);
  }

  lemma InHandStep(w: SW.World, st: SW.Step, c: Id)
    requires WorldOk(w) && SW.Enabled(w, st) && SW.Do(w, st).fault.NoFault? && IsFiber(w, c)
    requires forall i :: 0 <= i < |w.threads| && InHand(w.threads[i], c) ==> multiset(w.ready.popped)[c] > 0
    ensures var w' := SW.Do(w, st);
            forall i :: 0 <= i < |w'.threads| && InHand(w'.threads[i], c) ==> multiset(w'.ready.popped)[c] > 0
  {
    var w' := SW.Do(w, st);
    OneThread(w, st);
    PoppedGrows(w, st, c);
    forall i | 0 <= i < |w'.threads| && InHand(w'.threads[i], c) ensures multiset(w'.ready.popped)[c] > 0 {
      if i != st.i {
        assert InHand(w.threads[i], c);
      } else if !InHand(w.threads[i], c) {
        InHandHere(w, st, c);
      }
    }
  }

  /** A fiber that runs after a step ran before it or was resumed by it. */
  lemma RunsStep(w: SW.World, st: SW.Step, c: Id)
    requires SW.Enabled(w, st) && SW.Do(w, st).fault.NoFault? && SW.Runs(SW.Do(w, st), c)
    ensures SW.Runs(w, c) || Resumes(w, st, c)
  {
    var w' := SW.Do(w, st);
    OneThread(w, st);
    var i :| 0 <= i < |w'.threads| && w'.threads[i].active == c;
    if i == st.i {
      ActiveStep(w, st);
    }
    assert i != st.i ==> w.threads[i].active == c;
  }

  lemma ActiveStep(w: SW.World, st: SW.Step)
    requires SW.Enabled(w, st) && SW.Do(w, st).fault.NoFault? && st.i < |SW.Do(w, st).threads|
    ensures SW.Do(w, st).threads[st.i].active ==
              if st.Resume? then w.threads[st.i].act.c else w.threads[st.i].active
  {
  }

  lemma TaskStep(w: SW.World, st: SW.Step, c: Id, t: Task)
    requires WorldOk(w) && SW.Enabled(w, st) && CellOk(t) && FiberOk(w, c, t)
    ensures CellOk(Moved(w, st, c, t)) && FiberOk(SW.Do(w, st), c, Moved(w, st, c, t))
  {
    SW.KindStep(w, st, c);
    PoppedGrows(w, st, c);
    if SW.Do(w, st).fault.NoFault? {
      PushersStep(w, st, c);
      InHandStep(w, st, c);
      if SW.Runs(SW.Do(w, st), c) {
        RunsStep(w, st, c);
      }
      if Resumes(w, st, c) {
        assert InHand(w.threads[st.i], c);
      }
    } else {
      FaultPushesNothing(w, st);
    }
  }

  lemma NewFiber(w: SW.World, i: nat, getters: nat)
    requires WorldOk(w) && SW.Enabled(w, SW.New(i, SW.Async))
    ensures FiberOk(SW.Do(w, SW.New(i, SW.Async)), |w.ctx|, NewTask(getters))
  {
    var c, st := |w.ctx|, SW.New(i, SW.Async);
    var w' := SW.Do(w, st);
    assert c !in w.ready.pushed;
    forall j | 0 <= j < |w.threads| ensures SW.Plays(w.threads[j], SW.Pushes(c)) == 0 {
      assert Knows(w, w.threads[j]);
    }
    SW.ThreadNone(w.threads, SW.Pushes(c));
    SW.ThreadUpdate(w.threads, i, w'.threads[i], SW.Pushes(c));
    OneThread(w, st);
    forall j | 0 <= j < |w'.threads| ensures !InHand(w'.threads[j], c) {
      assert Knows(w, w.threads[j]);
    }
  }

  lemma SchedStep(s: System, st: SW.Step)
    requires AllOk(s) && Enabled(s, Sched(st))
    ensures AllOk(Do(s, Sched(st)))
  {
    SW.FifoStep(s.w, st);
    if SW.Do(s.w, st).fault.NoFault? { WorldStep(s.w, st); }
    forall c | c in s.tasks
        ensures CellOk(Moved(s.w, st, c, s.tasks[c])) && FiberOk(SW.Do(s.w, st), c, Moved(s.w, st, c, s.tasks[c])) {
      TaskStep(s.w, st, c, s.tasks[c]);
    }
  }

  lemma OldFiber(w: SW.World, i: nat, c: Id, t: Task)
    requires WorldOk(w) && SW.Enabled(w, SW.New(i, SW.Async)) && CellOk(t) && FiberOk(w, c, t)
    ensures c < |w.ctx| && FiberOk(SW.Do(w, SW.New(i, SW.Async)), c, t)
  {
    TaskStep(w, SW.New(i, SW.Async), c, t);
  }

  lemma AsyncStep(s: System, i: nat, getters: nat)
    requires AllOk(s) && Enabled(s, Async(i, getters))
    ensures AllOk(Do(s, Async(i, getters)))
  {
    var st := SW.New(i, SW.Async);
    SW.FifoStep(s.w, st);
    WorldStep(s.w, st);
    NewCell(getters);
    NewFiber(s.w, i, getters);
    forall c | c in s.tasks ensures c != |s.w.ctx| && FiberOk(SW.Do(s.w, st), c, s.tasks[c]) {
      OldFiber(s.w, i, c, s.tasks[c]);
    }
  }

  lemma OnlyCell(s: System, c: Id, t: Task)
    requires AllOk(s) && c in s.tasks && CellOk(t)
    requires t.executions == s.tasks[c].executions && t.requeued == s.tasks[c].requeued
    ensures AllOk(s.(tasks := s.tasks[c := t]))
  {
    assert FiberOk(s.w, c, s.tasks[c]);
  }

  lemma CellStep(s: System, step: Step)
    requires AllOk(s) && Enabled(s, step) && !step.Async? && !step.Sched?
    ensures AllOk(Do(s, step))
  {
    var c := step.c;
    var t := s.tasks[c];
    match step
    case Finish(_, result) =>
      FinishStep(t, result);
      OnlyCell(s, c, t.(body := Done, results := t.results + [result], cell := F.Do(t.cell, F.Call(0, result))));
    case Store(_) =>
      FiberStep(t, F.Store(0));
      OnlyCell(s, c, t.(cell := F.Do(t.cell, F.Store(0))));
    case Notify(_) =>
      FiberStep(t, F.Notify(0));
      OnlyCell(s, c, t.(cell := F.Do(t.cell, F.Notify(0))));
    case Get(_, g) =>
      GetterStep(t, F.Get(g));
      OnlyCell(s, c, t.(cell := F.Do(t.cell, F.Get(g))));
    case Wake(_, g) =>
      GetterStep(t, F.Wake(g));
      OnlyCell(s, c, t.(cell := F.Do(t.cell, F.Wake(g))));
  }

  lemma AllOkStep(s: System, step: Step)
    requires AllOk(s) && Enabled(s, step)
    ensures AllOk(Do(s, step))
  {
    if step.Async? {
      AsyncStep(s, step.i, step.getters);
    } else if step.Sched? {
      SchedStep(s, step.step);
    } else {
      CellStep(s, step);
    }
  }

  lemma {:induction false} AllOkPath(s: System, steps: seq<Step>, s': System)
    requires AllOk(s) && Path(s, steps, s')
    ensures AllOk(s')
    decreases |steps|
  {
    if steps != [] {
      AllOkStep(s, steps[0]);
      AllOkPath(Do(s, steps[0]), steps[1..], s');
    }
  }

  lemma StartOk(n: nat)
    ensures AllOk(Start(n))
  {
    SW.TidyStart(n);
  }

  // ---------- From the call to the result ----------

  /** Every Get of the task that has returned reports what its one execution ended with, and
      no Get sleeps on a ready cell without a notification to come. */
  ghost predicate Delivers(t: Task) {
    && |t.results| <= t.executions <= 1
    && (t.cell.cell.ready ==> |t.results| == 1)
    && forall g :: 0 < g < |t.cell.agents| ==>
         && (t.cell.agents[g].Got? ==> t.results == [t.cell.agents[g].result])
         && (t.cell.agents[g].Asleep? && t.cell.cell.ready ==> F.NotifyDue(t.cell))
  }

  lemma CellDelivers(t: Task)
    requires CellOk(t)
    ensures Delivers(t)
  {
    forall g | 0 < g < |t.cell.agents| && t.cell.agents[g].Got? ensures t.results == [t.cell.agents[g].result] {
      assert F.Informed(t.cell.cell, t.cell.agents[g]);
    }
  }

  /** For every schedule of any number of threads and getters, also one in which fibers call
      YieldOrigin: the function of a task is executed at most once, only after its fiber was
      taken from the shared queue, and its result is what every Get delivers. */
  lemma AsyncDelivers(n: nat, steps: seq<Step>, s: System, c: Id)
    requires Path(Start(n), steps, s) && c in s.tasks
    ensures Delivers(s.tasks[c])
    ensures s.tasks[c].executions > 0 ==> multiset(s.w.ready.popped)[c] > 0
  {
    StartOk(n);
    AllOkPath(Start(n), steps, s);
    CellDelivers(s.tasks[c]);
    assert FiberOk(s.w, c, s.tasks[c]);
  }

  /** The fiber of a task that runs is in its function or past it: whenever it is resumed for
      the first time it enters the function, and only then. */
  lemma RunningFiberHasEntered(n: nat, steps: seq<Step>, s: System, c: Id)
    requires Path(Start(n), steps, s) && c in s.tasks && s.w.fault.NoFault?
    ensures SW.Runs(s.w, c) ==> s.tasks[c].executions == 1 && !s.tasks[c].body.Fresh?
    ensures s.tasks[c].executions == 0 <==> s.tasks[c].body.Fresh?
  {
    StartOk(n);
    AllOkPath(Start(n), steps, s);
    assert FiberOk(s.w, c, s.tasks[c]) && CellOk(s.tasks[c]);
  }

  /** The fiber of a task is queued once for its start and once for each time it is scheduled
      again, as soon as the thread that schedules it has pushed it; it is picked no more often
      than it was queued. */
  lemma QueuedOncePerCall(n: nat, steps: seq<Step>, s: System, c: Id)
    requires Path(Start(n), steps, s) && c in s.tasks
    ensures multiset(s.w.ready.popped)[c] <= multiset(s.w.ready.pushed)[c] <= 1 + s.tasks[c].requeued
    ensures s.w.fault.NoFault? && (forall i :: 0 <= i < |s.w.threads| ==> s.w.threads[i].act != SW.Pushing(c)) ==>
              multiset(s.w.ready.pushed)[c] == 1 + s.tasks[c].requeued
  {
    StartOk(n);
    AllOkPath(Start(n), steps, s);
    assert FiberOk(s.w, c, s.tasks[c]);
    assert multiset(s.w.ready.pushed) == multiset(s.w.ready.popped) + multiset(s.w.ready.queue);
    if s.w.fault.NoFault? {
      NoPushers(s.w, c);
    }
  }

  lemma ReturnedIsReady(t: Task)
    requires CellOk(t) && t.cell.agents[0].Returned?
    ensures |t.results| == 1 && t.cell.cell.Outcome() == Some(t.results[0])
    ensures forall g :: 0 < g < |t.cell.agents| ==> !(t.cell.agents[g].Asleep?)
  {
    assert F.Informed(t.cell.cell, t.cell.agents[0]);
    forall g | 0 < g < |t.cell.agents| ensures !t.cell.agents[g].Asleep? {
    }
  }

  /** No future is abandoned: when the fiber of a task ends its context, the result of its one
      execution is in the cell and nobody sleeps for it any more. */
  lemma EndedFiberHasDelivered(n: nat, steps: seq<Step>, s: System, c: Id, i: nat)
    requires Path(Start(n), steps, s) && c in s.tasks
    requires i < |s.w.threads| && s.w.threads[i].active == c && MayCall(s, SW.Look(i, SW.Ends))
    ensures var t := s.tasks[c];
            && t.executions == |t.results| == 1 && t.cell.cell.Valid() && t.cell.cell.Outcome() == Some(t.results[0])
            && forall g :: 0 < g < |t.cell.agents| ==> !t.cell.agents[g].Asleep?
  {
    StartOk(n);
    AllOkPath(Start(n), steps, s);
    ReturnedIsReady(s.tasks[c]);
  }

  lemma KeptStep(s: System, step: Step, c: Id)
    requires AllOk(s) && Enabled(s, step) && c in s.tasks
    ensures c in Do(s, step).tasks && s.tasks[c].results <= Do(s, step).tasks[c].results
    ensures s.tasks[c].cell.cell.ready ==> Do(s, step).tasks[c].cell.cell == s.tasks[c].cell.cell
  {
    assert FiberOk(s.w, c, s.tasks[c]);
    if step.Sched? {
      SchedKeeps(s, step.step, c);
    } else if !step.Async? && step.c == c {
      CellKept(s, step);
    }
  }

  lemma SchedKeeps(s: System, st: SW.Step, c: Id)
    requires Enabled(s, Sched(st)) && c in s.tasks
    ensures var s' := Do(s, Sched(st));
            c in s'.tasks && s'.tasks[c].results == s.tasks[c].results && s'.tasks[c].cell == s.tasks[c].cell
  {
  }

  lemma CellKept(s: System, step: Step)
    requires AllOk(s) && Enabled(s, step) && !step.Sched? && !step.Async?
    ensures step.c in Do(s, step).tasks && s.tasks[step.c].results <= Do(s, step).tasks[step.c].results
    ensures s.tasks[step.c].cell.cell.ready ==> Do(s, step).tasks[step.c].cell.cell == s.tasks[step.c].cell.cell
  {
    var cell := s.tasks[step.c].cell;
    match step
    case Finish(_, result) => F.WriteOnceStep(cell, F.Call(0, result));
    case Store(_) => F.WriteOnceStep(cell, F.Store(0));
    case Notify(_) => F.WriteOnceStep(cell, F.Notify(0));
    case Get(_, g) => F.WriteOnceStep(cell, F.Get(g));
    case Wake(_, g) => F.WriteOnceStep(cell, F.Wake(g));
  }

  /** What the execution ended with and what the cell holds stays, whatever happens later. */
  lemma {:induction false} ResultStays(s: System, steps: seq<Step>, s': System, c: Id)
    requires AllOk(s) && Path(s, steps, s') && c in s.tasks
    ensures c in s'.tasks && s.tasks[c].results <= s'.tasks[c].results
    ensures s.tasks[c].cell.cell.ready ==> s'.tasks[c].cell.cell == s.tasks[c].cell.cell
    decreases |steps|
  {
    if steps != [] {
      AllOkStep(s, steps[0]);
      KeptStep(s, steps[0], c);
      ResultStays(Do(s, steps[0]), steps[1..], s', c);
    }
  }

  // ---------- A run that delivers ----------

  lemma PathFirst(s: System, step: Step, rest: seq<Step>, s': System)
    requires Enabled(s, step) && Path(Do(s, step), rest, s')
    ensures Path(s, [step] + rest, s')
  {
    assert ([step] + rest)[1..] == rest;
  }

  lemma {:induction false} PathThen(s: System, steps: seq<Step>, s1: System, step: Step)
      returns (steps': seq<Step>, s2: System)
    requires Path(s, steps, s1) && Enabled(s1, step)
    ensures steps' == steps + [step] && s2 == Do(s1, step) && Path(s, steps', s2)
    decreases |steps|
  {
    s2 := Do(s1, step);
    if steps == [] {
      PathFirst(s, step, [], s2);
      steps' := [step];
    } else {
      var rest;
      rest, s2 := PathThen(Do(s, steps[0]), steps[1..], s1, step);
      PathFirst(s, steps[0], rest, s2);
      steps' := [steps[0]] + rest;
    }
    assert steps' == steps + [step];
  }

  /** What the four steps from the end of the function to a Get do to the cell. */
  lemma CellServes(t: Task, g: nat, result: Result)
      returns (c1: F.State<int, int>, c2: F.State<int, int>, c3: F.State<int, int>, c4: F.State<int, int>)
    requires CellOk(t) && t.body.Inside? && 0 < g < |t.cell.agents| && t.cell.agents[g].Idle?
    ensures F.Enabled(t.cell, F.Call(0, result)) && c1 == F.Do(t.cell, F.Call(0, result)) && c1.cell.Valid()
    ensures F.Enabled(c1, F.Store(0)) && c2 == F.Do(c1, F.Store(0)) && c2.cell.Valid()
    ensures F.Enabled(c2, F.Notify(0)) && c3 == F.Do(c2, F.Notify(0)) && c3.cell.Valid()
    ensures F.Enabled(c3, F.Get(g)) && c4 == F.Do(c3, F.Get(g))
    ensures |c1.agents| == |c2.agents| == |c3.agents| == |c4.agents| == |t.cell.agents|
    ensures c4.agents[g] == F.Got(result) && c4.agents[0] == F.Returned(result)
  {
    F.WriteOnceStep(t.cell, F.Call(0, result));
    c1 := F.Do(t.cell, F.Call(0, result));
    F.WriteOnceStep(c1, F.Store(0));
    c2 := F.Do(c1, F.Store(0));
    assert c2.agents[0] == F.Notifying(result) && c2.cell.Outcome() == Some(result);
    F.WriteOnceStep(c2, F.Notify(0));
    c3 := F.Do(c2, F.Notify(0));
    assert c3.agents[g].Idle? && c3.cell == c2.cell;
    F.GetStep(c3, g);
    c4 := F.Do(c3, F.Get(g));
  }

  /** A step of the fiber or of a getter on the cell of c. */
  lemma CellThen(s0: System, before: seq<Step>, s: System, step: Step, st: F.Step<int, int>)
      returns (steps: seq<Step>, s': System)
    requires Path(s0, before, s) && (step.Store? || step.Notify? || step.Get?)
    requires st == match step case Store(_) => F.Store(0) case Notify(_) => F.Notify(0) case _ => F.Get(step.g)
    requires step.c in s.tasks && s.tasks[step.c].cell.cell.Valid() && F.Enabled(s.tasks[step.c].cell, st)
    requires if step.Get? then step.g > 0 else Executes(s.w, step.c)
    ensures steps == before + [step] && Path(s0, steps, s')
    ensures s' == WithCell(s, step.c, F.Do(s.tasks[step.c].cell, st))
  {
    steps, s' := PathThen(s0, before, s, step);
  }

  lemma FinishEffect(s: System, c: Id, result: Result)
    requires Enabled(s, Finish(c, result))
    ensures var s', t := Do(s, Finish(c, result)), s.tasks[c];
            && s'.w == s.w && c in s'.tasks
            && s'.tasks[c] == t.(body := Done, results := t.results + [result], cell := F.Do(t.cell, F.Call(0, result)))
  {
  }

  lemma ServesOn(s0: System, before: seq<Step>, s: System, c: Id, g: nat, c2: F.State<int, int>, c3: F.State<int, int>)
      returns (steps: seq<Step>, s': System)
    requires Path(s0, before, s) && c in s.tasks && Executes(s.w, c) && g > 0 && s.tasks[c].cell.cell.Valid()
    requires F.Enabled(s.tasks[c].cell, F.Store(0)) && c2 == F.Do(s.tasks[c].cell, F.Store(0)) && c2.cell.Valid()
    requires F.Enabled(c2, F.Notify(0)) && c3 == F.Do(c2, F.Notify(0)) && c3.cell.Valid() && F.Enabled(c3, F.Get(g))
    ensures steps == before + [Store(c), Notify(c), Get(c, g)] && Path(s0, steps, s')
    ensures s' == WithCell(s, c, F.Do(c3, F.Get(g)))
  {
    var s2, s3;
    steps, s2 := CellThen(s0, before, s, Store(c), F.Store(0));
    steps, s3 := CellThen(s0, steps, s2, Notify(c), F.Notify(0));
    steps, s' := CellThen(s0, steps, s3, Get(c, g), F.Get(g));
    assert [Store(c), Notify(c), Get(c, g)] == [Store(c)] + [Notify(c)] + [Get(c, g)];
  }

  /** When the function of a running fiber ends with a result, a Get that begins after it gets
      that result. */
  lemma FinishDelivers(s0: System, before: seq<Step>, s: System, c: Id, g: nat, result: Result)
      returns (steps: seq<Step>, s': System)
    requires Path(s0, before, s) && c in s.tasks && CellOk(s.tasks[c]) && s.tasks[c].body.Inside? && Executes(s.w, c)
    requires 0 < g < |s.tasks[c].cell.agents| && s.tasks[c].cell.agents[g].Idle?
    ensures steps == before + [Finish(c, result), Store(c), Notify(c), Get(c, g)] && Path(s0, steps, s')
    ensures c in s'.tasks && |s'.tasks[c].cell.agents| == |s.tasks[c].cell.agents|
    ensures s'.tasks[c].cell.agents[g] == F.Got(result) && s'.tasks[c].results == s.tasks[c].results + [result]
    ensures s'.tasks[c].cell.agents[0] == F.Returned(result) && s'.w == s.w
  {
    var s1;
    FinishEffect(s, c, result);
    var c1, c2, c3, c4 := CellServes(s.tasks[c], g, result);
    steps, s1 := PathThen(s0, before, s, Finish(c, result));
    steps, s' := ServesOn(s0, steps, s1, c, g, c2, c3);
    assert [Finish(c, result), Store(c), Notify(c), Get(c, g)] ==
           [Finish(c, result)] + [Store(c), Notify(c), Get(c, g)];
  }

  /** One thread whose main context has called Async; its fiber is in the shared queue. */
  lemma FiberIsQueued() returns (steps: seq<Step>, s: System)
    ensures steps == [Async(0, 1), Sched(SW.Push(0))] && Path(Start(1), steps, s) && s.w.fault.NoFault?
    ensures s.w.threads == [SW.Thread(0, SW.Code)] && s.w.ready.queue == [2] && s.w.scheds == SW.Start(1).scheds
    ensures s.w.ctx == SW.Start(1).ctx + [SW.Ctx(SW.Worker, SW.Async, None, true, SW.Live)]
    ensures s.tasks == map[2 := NewTask(1)]
  {
    var s0 := Start(1);
    var s1;
    assert s0.w.threads == [SW.Thread(0, SW.Code)] && s0.w.ctx[0].scheduler == Some(0);
    steps, s1 := PathThen(s0, [], s0, Async(0, 1));
    assert s1.w.threads == [SW.Thread(0, SW.Pushing(2))] && s1.tasks == map[2 := NewTask(1)];
    steps, s := PathThen(s0, steps, s1, Sched(SW.Push(0)));
    assert Moved(s1.w, SW.Push(0), 2, NewTask(1)) == NewTask(1);
  }

  /** The main context suspends and finds the fiber. */
  lemma FiberIsPicked(s0: System, before: seq<Step>, s: System) returns (steps: seq<Step>, s': System)
    requires Path(s0, before, s)
    requires s.w.fault.NoFault? && s.w.threads == [SW.Thread(0, SW.Code)] && s.w.ready.queue == [2]
    requires s.w.scheds == SW.Start(1).scheds && s.tasks == map[2 := NewTask(1)]
    requires s.w.ctx == SW.Start(1).ctx + [SW.Ctx(SW.Worker, SW.Async, None, true, SW.Live)]
    ensures steps == before + [Sched(SW.Look(0, SW.Suspends))] && Path(s0, steps, s') && s'.w.fault.NoFault?
    ensures s'.w.threads == [SW.Thread(0, SW.Attaching(2, SW.Suspends))] && s'.tasks == s.tasks
    ensures s'.w.ctx == s.w.ctx && s'.w.scheds == s.w.scheds
  {
    assert s.w.ctx[0].scheduler == Some(0) && s.w.ctx[0].kind == SW.Main && SW.SchedulerOf(s.w, 0) == Some(0);
    steps, s' := PathThen(s0, before, s, Sched(SW.Look(0, SW.Suspends)));
  }

  /** The fiber is about to be resumed. */
  lemma FiberIsAttached(s0: System, before: seq<Step>, s: System) returns (steps: seq<Step>, s': System)
    requires Path(s0, before, s)
    requires s.w.fault.NoFault? && s.w.threads == [SW.Thread(0, SW.Attaching(2, SW.Suspends))]
    requires s.w.scheds == SW.Start(1).scheds && s.tasks == map[2 := NewTask(1)]
    requires s.w.ctx == SW.Start(1).ctx + [SW.Ctx(SW.Worker, SW.Async, None, true, SW.Live)]
    ensures steps == before + [Sched(SW.Attach(0))] && Path(s0, steps, s') && s'.w.fault.NoFault?
    ensures s'.w.threads == [SW.Thread(0, SW.Resuming(2, SW.Suspends))] && s'.tasks == s.tasks
    ensures |s'.w.ctx| == 3 && s'.w.ctx[2].mode.Live? && s'.w.ctx[2].kind == SW.Worker
  {
    assert s.w.ctx[0].scheduler == Some(0) && SW.SchedulerOf(s.w, 0) == Some(0);
    steps, s' := PathThen(s0, before, s, Sched(SW.Attach(0)));
  }

  /** The fiber is resumed for the first time and enters the function. */
  lemma FiberEnters(s: System)
    requires s.w.fault.NoFault? && s.w.threads == [SW.Thread(0, SW.Resuming(2, SW.Suspends))]
    requires s.tasks == map[2 := NewTask(1)] && |s.w.ctx| == 3
    requires s.w.ctx[2].mode.Live? && s.w.ctx[2].kind == SW.Worker
    ensures Enabled(s, Sched(SW.Resume(0)))
    ensures var s' := Do(s, Sched(SW.Resume(0)));
            && s'.w.fault.NoFault? && s'.w.threads == [SW.Thread(2, SW.Code)] && 2 in s'.tasks
            && s'.tasks[2] == NewTask(1).(body := Inside, executions := 1) && SW.Of(s'.w, 2).kind == SW.Worker
  {
    assert !SW.Runs(s.w, 2);
  }

  /** One thread has called Async and suspended, and the fiber is inside the function. */
  lemma FiberRuns() returns (steps: seq<Step>, s: System)
    ensures |steps| == 5 && Path(Start(1), steps, s) && s.w.fault.NoFault?
    ensures s.w.threads == [SW.Thread(2, SW.Code)] && SW.Of(s.w, 2).kind == SW.Worker
    ensures 2 in s.tasks && s.tasks[2] == NewTask(1).(body := Inside, executions := 1)
  {
    var s1, s2, s3;
    steps, s1 := FiberIsQueued();
    steps, s2 := FiberIsPicked(Start(1), steps, s1);
    steps, s3 := FiberIsAttached(Start(1), steps, s2);
    FiberEnters(s3);
    steps, s := PathThen(Start(1), steps, s3, Sched(SW.Resume(0)));
  }

  lemma MayEnd(s: System)
    requires s.w.fault.NoFault? && s.w.threads == [SW.Thread(2, SW.Code)] && SW.Of(s.w, 2).kind == SW.Worker
    requires 2 in s.tasks && |s.tasks[2].cell.agents| == 2 && s.tasks[2].cell.agents[0].Returned?
    ensures Enabled(s, Sched(SW.Look(0, SW.Ends)))
  {
  }

  /** From the call of Async to the result of Get: one thread suspends, its fiber is picked,
      enters the function, ends it with any result, and a getter gets that; the fiber may then
      end. */
  lemma GetReturns(result: Result) returns (steps: seq<Step>, s: System)
    ensures Path(Start(1), steps, s) && 2 in s.tasks && |s.tasks[2].cell.agents| == 2
    ensures s.tasks[2].cell.agents[1] == F.Got(result) && s.tasks[2].results == [result]
    ensures |steps| == 9 && steps[5] == Finish(2, result) && Enabled(s, Sched(SW.Look(0, SW.Ends)))
  {
    var s4;
    steps, s4 := FiberRuns();
    EnteredCell();
    assert s4.w.threads[0] == SW.Thread(2, SW.Code);
    steps, s := FinishDelivers(Start(1), steps, s4, 2, 1, result);
    MayEnd(s);
  }

  lemma EnteredCell()
    ensures CellOk(NewTask(1).(body := Inside, executions := 1))
    ensures |NewTask(1).cell.agents| == 2 && NewTask(1).cell.agents[1].Idle?
  {
    NewCell(1);
  }
}
