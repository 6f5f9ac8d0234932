/** SharedWorkPolicy: one ready queue shared by all schedulers, and one local queue per
    scheduler for the contexts that may not leave it. */
module SharedWork {
  import opened Wrappers

  // EType values are bits; PinnedContext is the union of two of them.
  const MAIN: bv8 := 2
  const DISPATCHER: bv8 := 4
  const WORKER: bv8 := 8
  const PINNED: bv8 := MAIN | DISPATCHER

  datatype Kind = Main | Dispatcher | Worker
  {
    function Bits(): bv8 {
      match this
      case Main => MAIN
      case Dispatcher => DISPATCHER
      case Worker => WORKER
    }

    predicate IsContext(mask: bv8) {
      Bits() & mask != 0
    }
  }

  lemma PinnedMeansNotWorker(k: Kind)
    ensures k.IsContext(PINNED) <==> k != Worker
  {
    match k
    case Main => assert MAIN & PINNED == 2;
    case Dispatcher => assert DISPATCHER & PINNED == 4;
    case Worker => assert WORKER & PINNED == 0;
  }

  datatype Launch = Dispatch | Post | Async

  type Sched = nat

  /** Context::Detach: a context launched Async keeps its scheduler. */
  function Detached(launch: Launch, scheduler: Option<Sched>): Option<Sched> {
    if launch == Async then scheduler else None
  }

  datatype Queues<T> = Queues(shared: seq<T>, local: seq<T>)

  function Pushed<T>(q: Queues<T>, t: T, pinned: bool): Queues<T> {
    if pinned then q.(local := q.local + [t]) else q.(shared := q.shared + [t])
  }

  /** The shared queue goes before the local one. */
  function Picked<T>(q: Queues<T>): (Option<T>, Queues<T>) {
    if q.shared != [] then (Some(q.shared[0]), q.(shared := q.shared[1..]))
    else if q.local != [] then (Some(q.local[0]), q.(local := q.local[1..]))
    else (None, q)
  }

  class Context {
    const kind: Kind
    const launch: Launch
    var scheduler: Option<Sched>

    constructor (kind: Kind, launch: Launch)
      ensures this.kind == kind && this.launch == launch && scheduler == None
    {
      this.kind, this.launch, scheduler := kind, launch, None;
    }

    /** Reports whether the scheduler that it calls exists; a null one is dereferenced. */
    method Detach() returns (found: bool)
      modifies this
      ensures found <==> launch == Async || old(scheduler).Some?
      ensures scheduler == if launch == Async then old(scheduler) else None
      ensures scheduler == Detached(launch, old(scheduler))
    {
      if launch == Async {
        return true;
      }
      found := scheduler.Some?;
      scheduler := None;
    }

    /** Scheduler::AttachWorkerContext, which locks the scheduler's mutex; if the caller's
        thread holds that already, it blocks and nothing happens. */
    method AttachTo(s: Sched, mtx: Mutex) returns (r: Attachment)
      modifies this
      ensures mtx.held ==> r == Blocked && scheduler == old(scheduler)
      ensures !mtx.held ==> r == Attached(old(scheduler).None?) && scheduler == Some(s)
    {
      if mtx.held {
        return Blocked;
      }
      r := Attached(scheduler.None?);
      scheduler := Some(s);
    }
  }

  /** How an attachment ends: on the scheduler's mutex, or with its assertion true or not. */
  datatype Attachment = Blocked | Attached(asserted: bool)

  /** Scheduler::mtx_ */
  class Mutex {
    var held: bool

    constructor ()
      ensures !held
    {
      held := false;
    }
  }

  /** The static members of SharedWorkPolicy. */
  class ReadyQueue {
    var queue: seq<Context>

    constructor ()
      ensures queue == []
    {
      queue := [];
    }
  }

  class SharedWorkPolicy {
    const self: Sched
    const mtx: Mutex               // of that scheduler
    const ready: ReadyQueue
    var localQueue: seq<Context>

    constructor (self: Sched, mtx: Mutex, ready: ReadyQueue)
      ensures this.self == self && this.mtx == mtx && this.ready == ready && localQueue == []
    {
      this.self, this.mtx, this.ready, localQueue := self, mtx, ready, [];
    }

    function View(): Queues<Context>
      reads this, ready
    {
      Queues(ready.queue, localQueue)
    }

    /** Reports whether the scheduler of a context to be detached was found; if not, nothing
        is queued. */
    method Awakened(ctx: Context) returns (found: bool)
      modifies this, ready, ctx
      ensures found <==> ctx.kind != Worker || ctx.launch == Async || old(ctx.scheduler).Some?
      ensures localQueue == if ctx.kind != Worker then old(localQueue) + [ctx] else old(localQueue)
      ensures ready.queue == if ctx.kind == Worker && found then old(ready.queue) + [ctx] else old(ready.queue)
      ensures View() == if found then Pushed(old(View()), ctx, ctx.kind != Worker) else old(View())
      ensures ctx.scheduler ==
                if ctx.kind != Worker then old(ctx.scheduler) else Detached(ctx.launch, old(ctx.scheduler))
    {
      found := true;
      PinnedMeansNotWorker(ctx.kind);
      if ctx.kind.IsContext(PINNED) {
        localQueue := localQueue + [ctx];
      } else {
        found := ctx.Detach();
        if found {
          ready.queue := ready.queue + [ctx];
        }
      }
    }

    /** A context taken from the shared queue is attached to this scheduler. */
    method PickNext() returns (ctx: Option<Context>, r: Option<Attachment>)
      modifies this, ready, set c | c in ready.queue
      ensures old(ready.queue) != [] ==>
                && ctx == Some(old(ready.queue)[0]) && ready.queue == old(ready.queue)[1..]
                && localQueue == old(localQueue)
      ensures old(ready.queue) == [] && old(localQueue) != [] ==>
                ctx == Some(old(localQueue)[0]) && localQueue == old(localQueue)[1..] && ready.queue == []
      ensures old(ready.queue) == old(localQueue) == [] ==> ctx == None && ready.queue == localQueue == []
      ensures (ctx, View()) == Picked(old(View()))
      ensures r.Some? <==> old(ready.queue) != []
      ensures r == Some(Blocked) <==> old(ready.queue) != [] && mtx.held
      ensures r == Some(Blocked) ==> ctx.value.scheduler == old(ready.queue[0].scheduler)
      ensures old(ready.queue) != [] && !mtx.held ==>
                ctx.value.scheduler == Some(self) && r == Some(Attached(old(ready.queue[0].scheduler).None?))
      ensures forall c :: c in old(ready.queue) && ctx != Some(c) ==> c.scheduler == old(c.scheduler)
    {
      ctx, r := None, None;
      if |ready.queue| != 0 {
        var c := ready.queue[0];
        ready.queue := ready.queue[1..];
        ctx := Some(c);
        var attachment := c.AttachTo(self, mtx);
        r := Some(attachment);
      } else if |localQueue| != 0 {
        ctx := Some(localQueue[0]);
        localQueue := localQueue[1..];
      }
    }

    method HasReadyFibers() returns (r: bool)
      ensures r <==> ready.queue != [] || localQueue != []
    {
      r := |ready.queue| != 0 || |localQueue| != 0;
    }

    static method AwakenedAsync(ready: ReadyQueue, ctx: Context) returns (found: bool)
      modifies ready, ctx
      ensures found <==> ctx.launch == Async || old(ctx.scheduler).Some?
      ensures ready.queue == if found then old(ready.queue) + [ctx] else old(ready.queue)
      ensures ctx.scheduler == Detached(ctx.launch, old(ctx.scheduler))
    {
      found := ctx.Detach();
      if found {
        ready.queue := ready.queue + [ctx];
      }
    }
  }

  // ---------- Many threads ----------

  type Id = nat

  /** An idle context is suspended until somebody awakens it; a live one has been awakened
      or runs. */
  datatype Mode = Idle | Live | Ended

  /** `origin` says that originScheduler_ is set. */
  datatype Ctx = Ctx(kind: Kind, launch: Launch, scheduler: Option<Sched>, origin: bool, mode: Mode)

  /** What becomes of the context that gives way. */
  datatype Then = Suspends | Yields | Ends

  /** How far a thread is in library code; `Code` when it runs its active context's own. */
  datatype Act =
    | Code
    | Pushing(c: Id)                // in Awakened, before the mutex
    | Locally(next: Then)           // in PickNext, the shared queue was empty
    | Attaching(c: Id, next: Then)  // in PickNext, has taken c from the shared queue
    | Resuming(c: Id, next: Then)   // has c from PickNext or has just made it

  datatype Thread = Thread(active: Id, act: Act)

  /** Scheduler and policy of one thread.  `held`: mtx_ is held by the frame of a context
      that has ended in Scheduler::Terminate, which never returns to unlock it. */
  datatype Scheduler = Scheduler(local: seq<Id>, sleeping: multiset<Id>, held: bool)

  /** Why a run cannot go on: a null scheduler or a null result of PickNext was dereferenced,
      a context was resumed that runs already or has ended, or a scheduler's mutex was locked
      that is held for ever. */
  datatype Fault = NoFault | NoScheduler | NullPicked | NotResumable | SelfLocked

  /** The shared queue; `pushed` and `popped` list what went into it and came out. */
  datatype Ready = Ready(queue: seq<Id>, pushed: seq<Id>, popped: seq<Id>)

  function PushedTo(q: Ready, c: Id): Ready {
    q.(queue := Pushed(Queues(q.queue, []), c, false).shared, pushed := q.pushed + [c])
  }

  function Popped(q: Ready): Ready
    requires q.queue != []
  {
    var (c, rest) := Picked(Queues(q.queue, []));
    q.(queue := rest.shared, popped := q.popped + [c.value])
  }

  datatype World = World(ready: Ready, scheds: seq<Scheduler>, threads: seq<Thread>, ctx: seq<Ctx>, fault: Fault)

  /** What thread i does next. */
  datatype Step =
    | New(i: nat, launch: Launch)   // MakeWorkerContext and Fiber::_Start
    | Awaken(i: nat, c: Id)         // Context::Wake
    | Push(i: nat)                  // the section of Awakened under the mutex
    | Look(i: nat, next: Then)      // PickNext's section under the mutex
    | LookLocally(i: nat)
    | Attach(i: nat)
    | Resume(i: nat)
    | YieldOrigin(i: nat)
    | WaitUntil(i: nat)
    | Expire(i: nat, c: Id)         // ProcSleepToReady finds that the time of c has come

  const NOBODY := Ctx(Worker, Post, None, false, Ended)

  function Of(w: World, c: Id): Ctx {
    if c < |w.ctx| then w.ctx[c] else NOBODY
  }

  function With(w: World, c: Id, x: Ctx): World {
    if c < |w.ctx| then w.(ctx := w.ctx[c := x]) else w
  }

  function SchedulerOf(w: World, c: Id): (r: Option<Sched>)
    ensures r.Some? ==> r.value < |w.scheds|
  {
    var s := Of(w, c).scheduler;
    if s.Some? && s.value < |w.scheds| then s else None
  }

  function ActiveOf(w: World, i: nat): Id
    requires i < |w.threads|
  {
    w.threads[i].active
  }

  function Turned(w: World, i: nat, act: Act): World
    requires i < |w.threads|
  {
    w.(threads := w.threads[i := w.threads[i].(act := act)])
  }

  predicate Runs(w: World, c: Id) {
    exists i :: 0 <= i < |w.threads| && w.threads[i].active == c
  }

  predicate Enabled(w: World, step: Step) {
    && w.fault.NoFault? && step.i < |w.threads|
    && var t := w.threads[step.i]; var kind := Of(w, t.active).kind;
    match step
    case New(_, _) => t.act.Code?
    case Awaken(_, c) => t.act.Code? && c < |w.ctx| && w.ctx[c].mode.Idle?
    case Push(_) => t.act.Pushing?
    case Look(_, next) => t.act.Code? && (kind == Dispatcher ==> next.Yields?) && (kind == Main ==> !next.Ends?)
    case LookLocally(_) => t.act.Locally?
    case Attach(_) => t.act.Attaching?
    case Resume(_) => t.act.Resuming?
    case YieldOrigin(_) => t.act.Code? && kind != Dispatcher
    case WaitUntil(_) => t.act.Code? && kind != Dispatcher
    case Expire(_, c) =>
      var s := SchedulerOf(w, t.active);
      t.act.Code? && kind == Dispatcher && s.Some? && w.scheds[s.value].sleeping[c] > 0
  }

  /** Awakened(c) of the policy of scheduler s, called by thread i. */
  function Scheduled(w: World, i: nat, s: Sched, c: Id): World
    requires i < |w.threads| && s < |w.scheds|
  {
    var x := Of(w, c);
    if x.kind != Worker then
      var local := Pushed(Queues(w.ready.queue, w.scheds[s].local), c, true).local;
      w.(scheds := w.scheds[s := w.scheds[s].(local := local)])
    else if x.launch != Async && SchedulerOf(w, c).None? then w.(fault := NoScheduler)
    else Turned(With(w, c, x.(scheduler := Detached(x.launch, x.scheduler))), i, Pushing(c))
  }

  function Looked(w: World, i: nat, next: Then): World
    requires i < |w.threads|
  {
    if SchedulerOf(w, ActiveOf(w, i)).None? then w.(fault := NoScheduler)
    else if w.ready.queue == [] then Turned(w, i, Locally(next))
    else Turned(w.(ready := Popped(w.ready)), i, Attaching(w.ready.queue[0], next))
  }

  /** Scheduler::Terminate up to the result of the shared queue; it keeps mtx_ locked. */
  function Terminated(w: World, i: nat): World
    requires i < |w.threads|
  {
    var s := SchedulerOf(w, ActiveOf(w, i));
    if s.None? then w.(fault := NoScheduler)
    else if w.scheds[s.value].held then w.(fault := SelfLocked)
    else Looked(w.(scheds := w.scheds[s.value := w.scheds[s.value].(held := true)]), i, Ends)
  }

  function LookedLocally(w: World, i: nat, next: Then): World
    requires i < |w.threads|
  {
    var s := SchedulerOf(w, ActiveOf(w, i));
    if s.None? then w.(fault := NoScheduler)
    else
      var (c, q) := Picked(Queues([], w.scheds[s.value].local));
      if c.Some? then
        Turned(w.(scheds := w.scheds[s.value := w.scheds[s.value].(local := q.local)]), i, Resuming(c.value, next))
      else if Of(w, ActiveOf(w, i)).kind == Dispatcher then Turned(w, i, Code)
      else w.(fault := NullPicked)
  }

  function Attached(w: World, i: nat, c: Id, next: Then): World
    requires i < |w.threads|
  {
    var s := SchedulerOf(w, ActiveOf(w, i));
    if s.None? then w.(fault := NoScheduler)
    else if w.scheds[s.value].held then w.(fault := SelfLocked)
    else Turned(With(w, c, Of(w, c).(scheduler := s)), i, Resuming(c, next))
  }

  /** Context::Resume: c becomes active; then the context that gave way is scheduled if it
      yields. */
  function Resumed(w: World, i: nat, c: Id, next: Then): World
    requires i < |w.threads|
  {
    var r := ActiveOf(w, i);
    var s := SchedulerOf(w, c);
    if Runs(w, c) || Of(w, c).mode.Ended? then w.(fault := NotResumable)
    else if next.Yields? then
      if s.None? then w.(fault := NoScheduler)
      else Scheduled(w.(threads := w.threads[i := Thread(c, Code)]), i, s.value, r)
    else With(w.(threads := w.threads[i := Thread(c, Code)]), r, Of(w, r).(mode := if next.Ends? then Ended else Idle))
  }

  /** A context made by thread i is scheduled or resumed at once. */
  function Started(w: World, i: nat, launch: Launch): World
    requires i < |w.threads|
  {
    var c, s := |w.ctx|, SchedulerOf(w, ActiveOf(w, i));
    if launch == Async then
      Turned(w.(ctx := w.ctx + [Ctx(Worker, Async, None, s.Some?, Live)]), i, Pushing(c))
    else if s.None? then w.(fault := NoScheduler)
    else if w.scheds[s.value].held then w.(fault := SelfLocked)
    else if launch == Post then
      Turned(w.(ctx := w.ctx + [Ctx(Worker, Post, Detached(Post, s), false, Live)]), i, Pushing(c))
    else Turned(w.(ctx := w.ctx + [Ctx(Worker, launch, s, false, Live)]), i, Resuming(c, Yields))
  }

  /** Scheduler::YieldOrigin: a context that has an origin is pushed by its origin's policy
      and runs on; another one yields. */
  function YieldedOrigin(w: World, i: nat): World
    requires i < |w.threads|
  {
    var r := ActiveOf(w, i);
    if SchedulerOf(w, r).None? then w.(fault := NoScheduler)
    else if !Of(w, r).origin then Looked(w, i, Yields)
    else With(w, r, Of(w, r).(scheduler := None)).(ready := PushedTo(w.ready, r))
  }

  function WithSleeping(w: World, s: Sched, sleeping: multiset<Id>): World
    requires s < |w.scheds|
  {
    w.(scheds := w.scheds[s := w.scheds[s].(sleeping := sleeping)])
  }

  function Slept(w: World, i: nat): World
    requires i < |w.threads|
  {
    var r := ActiveOf(w, i);
    var s := SchedulerOf(w, r);
    if s.None? then w.(fault := NoScheduler)
    else Looked(WithSleeping(w, s.value, w.scheds[s.value].sleeping + multiset{r}), i, Yields)
  }

  function Awakened(w: World, i: nat, c: Id): World
    requires i < |w.threads|
  {
    var s := SchedulerOf(w, c);
    if s.None? then w.(fault := NoScheduler) else Scheduled(With(w, c, Of(w, c).(mode := Live)), i, s.value, c)
  }

  function Expired(w: World, i: nat, c: Id): World
    requires i < |w.threads|
  {
    var s := SchedulerOf(w, ActiveOf(w, i));
    if s.None? then w.(fault := NoScheduler)
    else Scheduled(WithSleeping(w, s.value, w.scheds[s.value].sleeping - multiset{c}), i, s.value, c)
  }

  function Do(w: World, step: Step): World
    requires Enabled(w, step)
  {
    var i, act := step.i, w.threads[step.i].act;
    match step
    case New(_, launch) => Started(w, i, launch)
    case Awaken(_, c) => Awakened(w, i, c)
    case Push(_) =>
      Turned(w, i, Code).(ready := PushedTo(w.ready, act.c))
    case Look(_, next) => if next.Ends? then Terminated(w, i) else Looked(w, i, next)
    case LookLocally(_) => LookedLocally(w, i, act.next)
    case Attach(_) => Attached(w, i, act.c, act.next)
    case Resume(_) => Resumed(w, i, act.c, act.next)
    case YieldOrigin(_) => YieldedOrigin(w, i)
    case WaitUntil(_) => Slept(w, i)
    case Expire(_, c) => Expired(w, i, c)
  }

  ghost predicate Path(w: World, steps: seq<Step>, w': World)
    decreases |steps|
  {
    if steps == [] then w == w'
    else Enabled(w, steps[0]) && Path(Do(w, steps[0]), steps[1..], w')
  }

  /** n threads, each of which runs its main context and has scheduled its dispatcher. */
  function Start(n: nat): World {
    World(Ready([], [], []), seq(n, i requires 0 <= i < n => Scheduler([2 * i + 1], multiset{}, false)),
          seq(n, i requires 0 <= i < n => Thread(2 * i, Code)),
          seq(2 * n, k requires 0 <= k < 2 * n =>
              Ctx(if k % 2 == 0 then Main else Dispatcher, Post, Some(k / 2), false, Live)),
          NoFault)
  }

  // ---------- Counting places ----------

  function Count(q: seq<Id>, c: Id): nat {
    multiset(q)[c]
  }

  function LocalPlaces(scheds: seq<Scheduler>, c: Id): nat {
    if scheds == [] then 0 else Count(scheds[0].local, c) + LocalPlaces(scheds[1..], c)
  }

  /** Has(c): the thread runs c or has it in hand.  Pushes(c): it is about to push c. */
  datatype Role = Has(c: Id) | Pushes(c: Id)

  function Plays(t: Thread, r: Role): nat {
    match r
    case Has(c) => (if t.active == c then 1 else 0) + if !t.act.Code? && !t.act.Locally? && t.act.c == c then 1 else 0
    case Pushes(c) => if t.act == Pushing(c) then 1 else 0
  }

  function ThreadPlaces(threads: seq<Thread>, r: Role): nat {
    if threads == [] then 0 else Plays(threads[0], r) + ThreadPlaces(threads[1..], r)
  }

  lemma {:induction false} ThreadUpdate(ts: seq<Thread>, i: nat, t: Thread, r: Role)
    requires i < |ts|
    ensures ThreadPlaces(ts[i := t], r) + Plays(ts[i], r) == ThreadPlaces(ts, r) + Plays(t, r)
    decreases |ts|
  {
    if i > 0 {
      ThreadUpdate(ts[1..], i - 1, t, r);
      assert ts[i := t][1..] == ts[1..][i - 1 := t];
    } else {
      assert ts[i := t][1..] == ts[1..];
    }
  }

  lemma {:induction false} LocalUpdate(ss: seq<Scheduler>, k: nat, x: Scheduler, c: Id)
    requires k < |ss|
    ensures LocalPlaces(ss[k := x], c) + Count(ss[k].local, c) == LocalPlaces(ss, c) + Count(x.local, c)
    decreases |ss|
  {
    if k > 0 {
      LocalUpdate(ss[1..], k - 1, x, c);
      assert ss[k := x][1..] == ss[1..][k - 1 := x];
    } else {
      assert ss[k := x][1..] == ss[1..];
    }
  }

  lemma {:induction false} ThreadAtLeast(ts: seq<Thread>, i: nat, r: Role)
    requires i < |ts|
    ensures ThreadPlaces(ts, r) >= Plays(ts[i], r)
    decreases |ts|
  {
    if i > 0 {
      ThreadAtLeast(ts[1..], i - 1, r);
    }
  }

  lemma CountRest(q: seq<Id>, c: Id)
    requires q != []
    ensures Count(q, c) == Count(q[1..], c) + if q[0] == c then 1 else 0
  {
    assert q == [q[0]] + q[1..];
  }

  /** In how many places context c is: in a queue, in the hands of a thread, or running. */
  function Places(w: World, c: Id): nat {
    Count(w.ready.queue, c) + LocalPlaces(w.scheds, c) + ThreadPlaces(w.threads, Has(c))
  }

  /** A live context is in one place, any other in none. */
  predicate Placed(w: World, c: Id) {
    Places(w, c) == if Of(w, c).mode.Live? then 1 else 0
  }

  lemma TurnedPlaces(w: World, i: nat, act: Act, c: Id)
    requires i < |w.threads|
    ensures var a := w.threads[i];
            Places(Turned(w, i, act), c) + Plays(a, Has(c)) == Places(w, c) + Plays(a.(act := act), Has(c))
  {
    ThreadUpdate(w.threads, i, w.threads[i].(act := act), Has(c));
  }

  lemma ScheduledPlaces(w: World, i: nat, s: Sched, d: Id, c: Id)
    requires i < |w.threads| && s < |w.scheds| && w.threads[i].act.Code?
    requires Scheduled(w, i, s, d).fault.NoFault?
    ensures Places(Scheduled(w, i, s, d), c) == Places(w, c) + if c == d then 1 else 0
  {
    var x := Of(w, d);
    if x.kind != Worker {
      LocalUpdate(w.scheds, s, w.scheds[s].(local := w.scheds[s].local + [d]), c);
    } else {
      TurnedPlaces(With(w, d, x.(scheduler := Detached(x.launch, x.scheduler))), i, Pushing(d), c);
    }
  }

  lemma LookedPlaces(w: World, i: nat, next: Then, c: Id)
    requires i < |w.threads| && w.threads[i].act.Code?
    ensures Places(Looked(w, i, next), c) == Places(w, c)
  {
    if SchedulerOf(w, ActiveOf(w, i)).Some? {
      if w.ready.queue == [] {
        TurnedPlaces(w, i, Locally(next), c);
      } else {
        CountRest(w.ready.queue, c);
        TurnedPlaces(w.(ready := Popped(w.ready)), i, Attaching(w.ready.queue[0], next), c);
      }
    }
  }

  lemma LookedLocallyPlaces(w: World, i: nat, next: Then, c: Id)
    requires i < |w.threads| && w.threads[i].act == Locally(next)
    ensures Places(LookedLocally(w, i, next), c) == Places(w, c)
  {
    var s := SchedulerOf(w, ActiveOf(w, i));
    if s.Some? {
      var x := w.scheds[s.value];
      if x.local != [] {
        CountRest(x.local, c);
        LocalUpdate(w.scheds, s.value, x.(local := x.local[1..]), c);
        TurnedPlaces(w.(scheds := w.scheds[s.value := x.(local := x.local[1..])]), i, Resuming(x.local[0], next), c);
      } else {
        TurnedPlaces(w, i, Code, c);
      }
    }
  }

  lemma ResumedPlaces(w: World, i: nat, d: Id, next: Then, c: Id)
    requires i < |w.threads| && w.threads[i].act == Resuming(d, next) && Resumed(w, i, d, next).fault.NoFault?
    ensures Places(Resumed(w, i, d, next), c) == Places(w, c) - if !next.Yields? && c == ActiveOf(w, i) then 1 else 0
  {
    var r := ActiveOf(w, i);
    var w1 := w.(threads := w.threads[i := Thread(d, Code)]);
    ThreadUpdate(w.threads, i, Thread(d, Code), Has(c));
    ThreadAtLeast(w.threads, i, Has(c));
    if next.Yields? {
      ScheduledPlaces(w1, i, SchedulerOf(w, d).value, r, c);
    }
  }

  lemma TerminatedPlaces(w: World, i: nat, c: Id)
    requires i < |w.threads| && w.threads[i].act.Code?
    ensures Places(Terminated(w, i), c) == Places(w, c)
  {
    var s := SchedulerOf(w, ActiveOf(w, i));
    if s.Some? && !w.scheds[s.value].held {
      var x := w.scheds[s.value].(held := true);
      LocalUpdate(w.scheds, s.value, x, c);
      LookedPlaces(w.(scheds := w.scheds[s.value := x]), i, Ends, c);
    }
  }

  lemma SleepingPlaces(w: World, s: Sched, sleeping: multiset<Id>, c: Id)
    requires s < |w.scheds|
    ensures Places(WithSleeping(w, s, sleeping), c) == Places(w, c)
  {
    LocalUpdate(w.scheds, s, w.scheds[s].(sleeping := sleeping), c);
  }

  lemma PushPlaces(w: World, i: nat, c: Id)
    requires Enabled(w, Push(i))
    ensures Places(Do(w, Push(i)), c) == Places(w, c)
  {
    TurnedPlaces(w, i, Code, c);
  }

  /** Steps that give a context a place although it may have one. */
  predicate Misplaces(w: World, step: Step)
    requires Enabled(w, step)
  {
    step.Expire? || (step.YieldOrigin? && Of(w, ActiveOf(w, step.i)).origin)
  }

  /** What a step does to the number of places of a context. */
  lemma PlacesStep(w: World, step: Step, c: Id)
    requires Enabled(w, step) && Do(w, step).fault.NoFault?
    ensures Places(Do(w, step), c) == Places(w, c)
              + (if step.New? && c == |w.ctx| then 1 else 0)
              + (if step.Awaken? && c == step.c then 1 else 0)
              + (if step.Expire? && c == step.c then 1 else 0)
              + (if step.YieldOrigin? && Misplaces(w, step) && c == ActiveOf(w, step.i) then 1 else 0)
              - (if step.Resume? && !w.threads[step.i].act.next.Yields? && c == ActiveOf(w, step.i) then 1 else 0)
  {
    var i, act := step.i, w.threads[step.i].act;
    match step
    case New(_, launch) => StartedPlaces(w, i, launch, c);
    case Awaken(_, d) =>
      ScheduledPlaces(With(w, d, Of(w, d).(mode := Live)), i, SchedulerOf(w, d).value, d, c);
    case Push(_) => PushPlaces(w, i, c);
    case Look(_, next) => if next.Ends? { TerminatedPlaces(w, i, c); } else { LookedPlaces(w, i, next, c); }
    case LookLocally(_) => LookedLocallyPlaces(w, i, act.next, c);
    case Attach(_) => AttachedPlaces(w, i, act.c, act.next, c);
    case Resume(_) => ResumedPlaces(w, i, act.c, act.next, c);
    case YieldOrigin(_) => if !Of(w, ActiveOf(w, i)).origin { LookedPlaces(w, i, Yields, c); }
    case WaitUntil(_) => SleptPlaces(w, i, c);
    case Expire(_, d) => ExpiredPlaces(w, i, d, c);
  }

  lemma StartedPlaces(w: World, i: nat, launch: Launch, c: Id)
    requires i < |w.threads| && w.threads[i].act.Code? && Started(w, i, launch).fault.NoFault?
    ensures Places(Started(w, i, launch), c) == Places(w, c) + if c == |w.ctx| then 1 else 0
  {
    TurnedPlaces(w, i, if launch == Dispatch then Resuming(|w.ctx|, Yields) else Pushing(|w.ctx|), c);
  }

  lemma AttachedPlaces(w: World, i: nat, d: Id, next: Then, c: Id)
    requires i < |w.threads| && w.threads[i].act == Attaching(d, next)
    ensures Places(Attached(w, i, d, next), c) == Places(w, c)
  {
    TurnedPlaces(w, i, Resuming(d, next), c);
  }

  lemma SleptPlaces(w: World, i: nat, c: Id)
    requires i < |w.threads| && w.threads[i].act.Code?
    ensures Places(Slept(w, i), c) == Places(w, c)
  {
    var r := ActiveOf(w, i);
    var s := SchedulerOf(w, r);
    if s.Some? {
      var sleeping := w.scheds[s.value].sleeping + multiset{r};
      SleepingPlaces(w, s.value, sleeping, c);
      LookedPlaces(WithSleeping(w, s.value, sleeping), i, Yields, c);
    }
  }

  lemma ExpiredPlaces(w: World, i: nat, d: Id, c: Id)
    requires i < |w.threads| && w.threads[i].act.Code? && Expired(w, i, d).fault.NoFault?
    ensures Places(Expired(w, i, d), c) == Places(w, c) + if c == d then 1 else 0
  {
    var s := SchedulerOf(w, ActiveOf(w, i)).value;
    var sleeping := w.scheds[s].sleeping - multiset{d};
    SleepingPlaces(w, s, sleeping, c);
    ScheduledPlaces(WithSleeping(w, s, sleeping), i, s, d, c);
  }

  /** Whether a step changes the mode of c, and to what. */
  function ModeAfter(w: World, step: Step, c: Id): Mode
    requires Enabled(w, step)
  {
    var t := w.threads[step.i];
    if (step.New? && c == |w.ctx|) || (step.Awaken? && c == step.c) then Live
    else if step.Resume? && c == t.active && c < |w.ctx| && !t.act.next.Yields? then
      if t.act.next.Ends? then Ended else Idle
    else Of(w, c).mode
  }

  lemma ModeStep(w: World, step: Step, c: Id)
    requires Enabled(w, step) && Do(w, step).fault.NoFault?
    ensures Of(Do(w, step), c).mode == ModeAfter(w, step, c)
  {
  }

  /** A context stays placed through every step that does not misplace it. */
  lemma PlacedStep(w: World, step: Step, c: Id)
    requires Enabled(w, step) && Do(w, step).fault.NoFault? && Placed(w, c)
    requires Misplaces(w, step) ==> c != if step.Expire? then step.c else ActiveOf(w, step.i)
    ensures Placed(Do(w, step), c)
  {
    PlacesStep(w, step, c);
    ModeStep(w, step, c);
    if step.Resume? && c == ActiveOf(w, step.i) {
      ThreadAtLeast(w.threads, step.i, Has(c));
    }
  }

  // ---------- Kinds and schedulers ----------

  /** Only workers use the shared queue, only pinned contexts the local ones, and only
      workers launched Async have an origin. */
  ghost predicate Kinds(w: World) {
    && (forall k :: 0 <= k < |w.ready.queue| ==> Of(w, w.ready.queue[k]).kind == Worker)
    && (forall i :: 0 <= i < |w.threads| ==> KindOk(w, w.threads[i].act))
    && (forall s, k :: 0 <= s < |w.scheds| && 0 <= k < |w.scheds[s].local| ==> Pinned(w, w.scheds[s].local[k]))
    && (forall c :: 0 <= c < |w.ctx| && w.ctx[c].origin ==> w.ctx[c].kind == Worker && w.ctx[c].launch == Async)
  }

  predicate KindOk(w: World, a: Act) {
    a.Pushing? || a.Attaching? ==> Of(w, a.c).kind == Worker
  }

  predicate Pinned(w: World, c: Id) {
    c < |w.ctx| && w.ctx[c].kind != Worker
  }

  lemma KindStep(w: World, step: Step, c: Id)
    requires Enabled(w, step)
    ensures var x, y := Of(w, c), Of(Do(w, step), c);
            && |w.ctx| <= |Do(w, step).ctx|
            && (c < |w.ctx| ==> y.kind == x.kind && y.launch == x.launch && y.origin == x.origin)
            && (c >= |w.ctx| ==> y.kind == Worker && (y.origin ==> y.launch == Async))
  {
  }

  lemma SharedKinds(w: World, step: Step)
    requires Kinds(w) && Enabled(w, step)
    ensures var w' := Do(w, step); forall k :: 0 <= k < |w'.ready.queue| ==> Of(w', w'.ready.queue[k]).kind == Worker
  {
    var w' := Do(w, step);
    forall k | 0 <= k < |w'.ready.queue| ensures Of(w', w'.ready.queue[k]).kind == Worker {
      KindStep(w, step, w'.ready.queue[k]);
      assert KindOk(w, w.threads[step.i].act);
      assert w'.ready.queue[k] in w.ready.queue || Of(w, w'.ready.queue[k]).kind == Worker;
    }
  }

  /** What a thread is about to push or attach is a worker, or new. */
  lemma ActComes(w: World, step: Step, j: nat)
    requires Kinds(w) && Enabled(w, step) && j < |w.threads|
    ensures |Do(w, step).threads| == |w.threads| && KindOk(w, Do(w, step).threads[j].act)
  {
    assert KindOk(w, w.threads[j].act);
    if j == step.i {
      ActHere(w, step);
    } else {
      OthersStay(w, step, j);
      ActHere(w, step);
    }
  }

  lemma ActHere(w: World, step: Step)
    requires Kinds(w) && Enabled(w, step)
    ensures |Do(w, step).threads| == |w.threads| && KindOk(w, Do(w, step).threads[step.i].act)
  {
    assert KindOk(w, w.threads[step.i].act);
  }

  lemma ActKinds(w: World, step: Step, j: nat)
    requires Kinds(w) && Enabled(w, step) && j < |w.threads|
    ensures |Do(w, step).threads| == |w.threads| && KindOk(Do(w, step), Do(w, step).threads[j].act)
  {
    ActComes(w, step, j);
    var act := Do(w, step).threads[j].act;
    if act.Pushing? || act.Attaching? {
      KindStep(w, step, act.c);
    }
  }

  /** The contexts that a step schedules with the policy of scheduler s and that are pinned:
      awakened, expired, or yielding to a context of s. */
  function PutLocally(w: World, step: Step, s: Sched): seq<Id>
    requires Enabled(w, step)
  {
    var t := w.threads[step.i];
    if step.Awaken? && Pinned(w, step.c) && SchedulerOf(w, step.c) == Some(s) then [step.c]
    else if step.Expire? && Pinned(w, step.c) && SchedulerOf(w, t.active) == Some(s) then [step.c]
    else if step.Resume? && t.act.next.Yields? && Pinned(w, t.active) && SchedulerOf(w, t.act.c) == Some(s)
    then [t.active]
    else []
  }

  /** What a thread has in hand after it has looked into the local queue of scheduler s. */
  function TakenLocally(w: World, step: Step, s: Sched): seq<Id>
    requires Enabled(w, step)
  {
    if step.LookLocally? && SchedulerOf(w, w.threads[step.i].active) == Some(s)
       && step.i < |Do(w, step).threads| && Do(w, step).threads[step.i].act.Resuming?
    then [Do(w, step).threads[step.i].act.c]
    else []
  }

  lemma SchedsStay(w: World, step: Step)
    requires Enabled(w, step)
    ensures |Do(w, step).scheds| == |w.scheds|
  {
  }

  lemma LocalStep(w: World, step: Step, s: Sched)
    requires Enabled(w, step) && Do(w, step).fault.NoFault? && s < |w.scheds|
    ensures |Do(w, step).scheds| == |w.scheds|
    ensures w.scheds[s].local + PutLocally(w, step, s) == TakenLocally(w, step, s) + Do(w, step).scheds[s].local
  {
    var i, act := step.i, w.threads[step.i].act;
    match step
    case Awaken(_, c) => AwakenedLocally(w, i, c, s);
    case Expire(_, c) => ExpiredLocally(w, i, c, s);
    case Resume(_) => ResumedLocally(w, i, act.c, act.next, s);
    case _ => OtherLocally(w, step, s);
  }

  lemma ScheduledLocally(w: World, i: nat, k: Sched, c: Id, s: Sched)
    requires i < |w.threads| && k < |w.scheds| && s < |w.scheds|
    ensures |Scheduled(w, i, k, c).scheds| == |w.scheds|
    ensures Scheduled(w, i, k, c).scheds[s].local == w.scheds[s].local + if Pinned(w, c) && k == s then [c] else []
  {
  }

  lemma AwakenedLocally(w: World, i: nat, c: Id, s: Sched)
    requires Enabled(w, Awaken(i, c)) && Do(w, Awaken(i, c)).fault.NoFault? && s < |w.scheds|
    ensures var w' := Awakened(w, i, c);
            |w'.scheds| == |w.scheds| && w'.scheds[s].local == w.scheds[s].local + PutLocally(w, Awaken(i, c), s)
  {
    ScheduledLocally(With(w, c, Of(w, c).(mode := Live)), i, SchedulerOf(w, c).value, c, s);
  }

  lemma ExpiredLocally(w: World, i: nat, c: Id, s: Sched)
    requires Enabled(w, Expire(i, c)) && Do(w, Expire(i, c)).fault.NoFault? && s < |w.scheds|
    ensures var w' := Expired(w, i, c);
            |w'.scheds| == |w.scheds| && w'.scheds[s].local == w.scheds[s].local + PutLocally(w, Expire(i, c), s)
  {
    var k := SchedulerOf(w, ActiveOf(w, i)).value;
    ScheduledLocally(WithSleeping(w, k, w.scheds[k].sleeping - multiset{c}), i, k, c, s);
  }

  lemma ResumedLocally(w: World, i: nat, c: Id, next: Then, s: Sched)
    requires Enabled(w, Resume(i)) && w.threads[i].act == Resuming(c, next)
    requires Do(w, Resume(i)).fault.NoFault? && s < |w.scheds|
    ensures var w' := Resumed(w, i, c, next);
            |w'.scheds| == |w.scheds| && w'.scheds[s].local == w.scheds[s].local + PutLocally(w, Resume(i), s)
  {
    if next.Yields? {
      ScheduledLocally(w.(threads := w.threads[i := Thread(c, Code)]), i, SchedulerOf(w, c).value, ActiveOf(w, i), s);
    }
  }

  lemma OtherLocally(w: World, step: Step, s: Sched)
    requires Enabled(w, step) && Do(w, step).fault.NoFault? && s < |w.scheds|
    requires !step.Awaken? && !step.Expire? && !step.Resume?
    ensures |Do(w, step).scheds| == |w.scheds|
    ensures w.scheds[s].local == TakenLocally(w, step, s) + Do(w, step).scheds[s].local
  {
  }

  /** An entry of a local queue was there before or has just been put there. */
  lemma LocalComes(w: World, step: Step, s: Sched, k: nat)
    requires Enabled(w, step) && Do(w, step).fault.NoFault? && s < |w.scheds|
    requires |Do(w, step).scheds| == |w.scheds| && k < |Do(w, step).scheds[s].local|
    ensures var c := Do(w, step).scheds[s].local[k]; c in w.scheds[s].local || c in PutLocally(w, step, s)
  {
    LocalStep(w, step, s);
    var before, taken := w.scheds[s].local + PutLocally(w, step, s), TakenLocally(w, step, s);
    var now := Do(w, step).scheds[s].local;
    assert now[k] == (taken + now)[|taken| + k] == before[|taken| + k];
  }

  lemma LocalKinds(w: World, step: Step, s: Sched, k: nat)
    requires Kinds(w) && Enabled(w, step) && Do(w, step).fault.NoFault?
    requires s < |w.scheds| == |Do(w, step).scheds| && k < |Do(w, step).scheds[s].local|
    ensures Pinned(Do(w, step), Do(w, step).scheds[s].local[k])
  {
    var c := Do(w, step).scheds[s].local[k];
    KindStep(w, step, c);
    LocalComes(w, step, s, k);
  }

  lemma KindsStep(w: World, step: Step)
    requires Kinds(w) && Enabled(w, step) && Do(w, step).fault.NoFault?
    ensures Kinds(Do(w, step))
  {
    var w' := Do(w, step);
    SchedsStay(w, step);
    SharedKinds(w, step);
    forall i | 0 <= i < |w'.threads| ensures KindOk(w', w'.threads[i].act) {
      ActKinds(w, step, 0);
      ActKinds(w, step, i);
    }
    forall s, k | 0 <= s < |w'.scheds| && 0 <= k < |w'.scheds[s].local| ensures Pinned(w', w'.scheds[s].local[k]) {
      LocalKinds(w, step, s, k);
    }
    forall c | 0 <= c < |w'.ctx| && w'.ctx[c].origin ensures w'.ctx[c].kind == Worker && w'.ctx[c].launch == Async {
      KindStep(w, step, c);
    }
  }

  /** What a thread takes from a local queue is pinned. */
  lemma LocalHand(w: World, i: nat, next: Then)
    requires Kinds(w) && i < |w.threads| && w.threads[i].act == Locally(next)
    ensures var t := LookedLocally(w, i, next).threads[i];
            t.active == w.threads[i].active && !t.act.Attaching? && (t.act.Resuming? ==> Pinned(w, t.act.c))
  {
    var k := SchedulerOf(w, ActiveOf(w, i));
    if k.Some? && w.scheds[k.value].local != [] {
      assert Pinned(w, w.scheds[k.value].local[0]);
    }
  }

  /** Steps that may change the scheduler of c. */
  predicate Reassigns(w: World, step: Step, c: Id)
    requires Enabled(w, step)
  {
    var t := w.threads[step.i];
    || (step.New? && c == |w.ctx|)
    || ((step.Awaken? || step.Expire?) && c == step.c)
    || (step.Attach? && c == t.act.c)
    || (step.Resume? && t.act.next.Yields? && c == t.active)
    || (step.YieldOrigin? && Misplaces(w, step) && c == t.active)
  }

  lemma SchedulerStep(w: World, step: Step, c: Id)
    requires Kinds(w) && Enabled(w, step) && (Pinned(w, c) || !Reassigns(w, step, c))
    ensures Of(Do(w, step), c).scheduler == Of(w, c).scheduler
    ensures |Do(w, step).scheds| == |w.scheds|
  {
    assert KindOk(w, w.threads[step.i].act);
  }

  /** Thread j runs and resumes only contexts of its own scheduler, and its dispatcher only
      ever yields. */
  predicate ThreadOwn(w: World, j: nat)
    requires j < |w.threads|
  {
    var t := w.threads[j];
    && SchedulerOf(w, t.active) == Some(j)
    && (t.act.Resuming? ==> SchedulerOf(w, t.act.c) == Some(j))
    && (Of(w, t.active).kind == Dispatcher && !t.act.Code? && !t.act.Pushing? ==> t.act.next.Yields?)
  }

  /** The dispatcher of thread j. */
  predicate HasDispatcher(w: World, j: nat) {
    var d := 2 * j + 1;
    d < |w.ctx| && w.ctx[d].kind == Dispatcher && w.ctx[d].scheduler == Some(j) && w.ctx[d].mode.Live?
  }

  ghost predicate AllPlaced(w: World) {
    forall c: Id :: Placed(w, c)
  }

  /** What holds as long as no context has been misplaced. */
  ghost predicate Tidy(w: World) {
    && AllPlaced(w) && Kinds(w)
    && |w.threads| == |w.scheds|
    && (forall j :: 0 <= j < |w.threads| ==> ThreadOwn(w, j) && HasDispatcher(w, j))
    && (forall s, k :: 0 <= s < |w.scheds| && 0 <= k < |w.scheds[s].local| ==>
        Of(w, w.scheds[s].local[k]).scheduler == Some(s))
    && (forall c :: 0 <= c < |w.ctx| && w.ctx[c].mode.Idle? ==> SchedulerOf(w, c).Some?)
  }

  lemma {:induction false} TwoThreads(ts: seq<Thread>, i: nat, j: nat, r: Role)
    requires i < j < |ts|
    ensures ThreadPlaces(ts, r) >= Plays(ts[i], r) + Plays(ts[j], r)
    decreases |ts|
  {
    if i > 0 {
      TwoThreads(ts[1..], i - 1, j - 1, r);
    } else {
      ThreadAtLeast(ts[1..], j - 1, r);
    }
  }

  /** A placed context that thread i has is live and in no other thread. */
  lemma OnlyHere(w: World, i: nat, c: Id)
    requires i < |w.threads| && Placed(w, c) && Plays(w.threads[i], Has(c)) > 0
    ensures Plays(w.threads[i], Has(c)) == 1 && c < |w.ctx| && w.ctx[c].mode.Live?
    ensures forall j :: 0 <= j < |w.threads| && j != i ==> Plays(w.threads[j], Has(c)) == 0
  {
    ThreadAtLeast(w.threads, i, Has(c));
    forall j | 0 <= j < |w.threads| && j != i ensures Plays(w.threads[j], Has(c)) == 0 {
      if i < j { TwoThreads(w.threads, i, j, Has(c)); } else { TwoThreads(w.threads, j, i, Has(c)); }
    }
  }

  /** The scheduler of a context that thread j runs or is about to resume stays, unless j
      itself lets go of it. */
  lemma KeepsScheduler(w: World, step: Step, j: nat, c: Id)
    requires Tidy(w) && Enabled(w, step) && !Misplaces(w, step)
    requires j < |w.threads| && (c == w.threads[j].active || (w.threads[j].act.Resuming? && c == w.threads[j].act.c))
    requires step.Resume? && step.i == j ==> c != w.threads[j].active
    ensures Of(Do(w, step), c).scheduler == Of(w, c).scheduler
    ensures SchedulerOf(Do(w, step), c) == SchedulerOf(w, c) && |Do(w, step).scheds| == |w.scheds|
  {
    assert Plays(w.threads[j], Has(c)) > 0;
    OnlyHere(w, j, c);
    var t := w.threads[step.i];
    assert step.i != j ==> Plays(t, Has(c)) == 0;
    assert step.Attach? ==> c != t.act.c;
    assert step.Resume? ==> c != t.active;
    assert !Reassigns(w, step, c);
    SchedulerStep(w, step, c);
  }

  lemma OthersStay(w: World, step: Step, j: nat)
    requires Enabled(w, step) && j < |w.threads| && j != step.i
    ensures j < |Do(w, step).threads| && Do(w, step).threads[j] == w.threads[j]
  {
  }

  lemma OtherOwn(w: World, step: Step, j: nat)
    requires Tidy(w) && Enabled(w, step) && !Misplaces(w, step) && j < |w.threads| && j != step.i
    ensures j < |Do(w, step).threads| && ThreadOwn(Do(w, step), j)
  {
    OthersStay(w, step, j);
    assert ThreadOwn(w, j);
    KeepsScheduler(w, step, j, w.threads[j].active);
    KindStep(w, step, w.threads[j].active);
    if w.threads[j].act.Resuming? {
      KeepsScheduler(w, step, j, w.threads[j].act.c);
    }
  }

  /** What thread step.i does to itself by a step other than Resume: it goes on with the same
      context, and what it is going to resume comes from its own policy. */
  lemma SelfStays(w: World, step: Step)
    requires Tidy(w) && Enabled(w, step) && Do(w, step).fault.NoFault? && !Misplaces(w, step) && !step.Resume?
    ensures var t, t' := w.threads[step.i], Do(w, step).threads[step.i];
            && t'.active == t.active
            && (t'.act.Resuming? ==> SchedulerOf(Do(w, step), t'.act.c) == Some(step.i))
            && (Of(w, t.active).kind == Dispatcher && !t'.act.Code? && !t'.act.Pushing? ==>
                  t'.act.next.Yields? || (step.New? && t'.act.Resuming?))
  {
    assert ThreadOwn(w, step.i);
    SelfGoesOn(w, step);
    SelfHasOwn(w, step);
  }

  lemma SelfGoesOn(w: World, step: Step)
    requires Enabled(w, step) && Do(w, step).fault.NoFault? && !step.Resume? && ThreadOwn(w, step.i)
    ensures |Do(w, step).threads| == |w.threads|
    ensures var t, t' := w.threads[step.i], Do(w, step).threads[step.i];
            && t'.active == t.active
            && (Of(w, t.active).kind == Dispatcher && !t'.act.Code? && !t'.act.Pushing? ==>
                  t'.act.next.Yields? || (step.New? && t'.act.Resuming?))
  {
  }

  lemma SelfHasOwn(w: World, step: Step)
    requires Tidy(w) && Enabled(w, step) && Do(w, step).fault.NoFault? && !step.Resume? && ThreadOwn(w, step.i)
    requires |Do(w, step).threads| == |w.threads|
    ensures var t' := Do(w, step).threads[step.i];
            t'.act.Resuming? ==> SchedulerOf(Do(w, step), t'.act.c) == Some(step.i)
  {
    var i, t := step.i, w.threads[step.i];
    if step.Attach? {
      assert Plays(t, Has(t.act.c)) > 0;
      OnlyHere(w, i, t.act.c);
    } else if step.LookLocally? && w.scheds[i].local != [] {
      assert Pinned(w, w.scheds[i].local[0]);
    }
  }

  lemma SelfOwn(w: World, step: Step)
    requires Tidy(w) && Enabled(w, step) && Do(w, step).fault.NoFault? && !Misplaces(w, step)
    ensures step.i < |Do(w, step).threads| && ThreadOwn(Do(w, step), step.i)
  {
    var i, t := step.i, w.threads[step.i];
    assert ThreadOwn(w, i);
    ActKinds(w, step, i);
    if step.Resume? {
      assert Plays(t, Has(t.act.c)) > 0;
      OnlyHere(w, i, t.act.c);
      KeepsScheduler(w, step, i, t.act.c);
    } else {
      SelfStays(w, step);
      KeepsScheduler(w, step, i, t.active);
      KindStep(w, step, t.active);
    }
  }

  lemma DispatcherStays(w: World, step: Step, j: nat)
    requires Tidy(w) && Enabled(w, step) && Do(w, step).fault.NoFault? && j < |w.threads|
    ensures HasDispatcher(Do(w, step), j)
  {
    var d := 2 * j + 1;
    assert HasDispatcher(w, j) && ThreadOwn(w, step.i);
    KindStep(w, step, d);
    ModeStep(w, step, d);
    SchedulerStep(w, step, d);
  }

  lemma IdleHasScheduler(w: World, step: Step, c: Id)
    requires Tidy(w) && Enabled(w, step) && Do(w, step).fault.NoFault? && !Misplaces(w, step)
    requires c < |Do(w, step).ctx| && Do(w, step).ctx[c].mode.Idle?
    ensures SchedulerOf(Do(w, step), c).Some?
  {
    ModeStep(w, step, c);
    assert ThreadOwn(w, step.i);
    if step.Attach? {
      assert Plays(w.threads[step.i], Has(w.threads[step.i].act.c)) > 0;
      OnlyHere(w, step.i, w.threads[step.i].act.c);
    } else if step.Resume? {
      assert Plays(w.threads[step.i], Has(w.threads[step.i].active)) > 0;
      OnlyHere(w, step.i, w.threads[step.i].active);
    }
    SchedulerStep(w, step, c);
  }

  lemma LocalOwn(w: World, step: Step, s: Sched, k: nat)
    requires Tidy(w) && Enabled(w, step) && Do(w, step).fault.NoFault? && !Misplaces(w, step)
    requires s < |Do(w, step).scheds| && k < |Do(w, step).scheds[s].local|
    ensures Of(Do(w, step), Do(w, step).scheds[s].local[k]).scheduler == Some(s)
  {
    var c := Do(w, step).scheds[s].local[k];
    assert ThreadOwn(w, step.i);
    SchedsStay(w, step);
    LocalComes(w, step, s, k);
    if c in w.scheds[s].local {
      assert Pinned(w, c);
    } else {
      PutIsOwn(w, step, s);
    }
    SchedulerStep(w, step, c);
  }

  lemma PutIsOwn(w: World, step: Step, s: Sched)
    requires Tidy(w) && Enabled(w, step) && !Misplaces(w, step) && ThreadOwn(w, step.i)
    ensures forall c :: c in PutLocally(w, step, s) ==> Pinned(w, c) && Of(w, c).scheduler == Some(s)
  {
  }

  lemma TidyStep(w: World, step: Step)
    requires Tidy(w) && Enabled(w, step) && Do(w, step).fault.NoFault? && !Misplaces(w, step)
    ensures Tidy(Do(w, step))
  {
    var w' := Do(w, step);
    KindsStep(w, step);
    assert HasDispatcher(w, step.i);
    SchedulerStep(w, step, 2 * step.i + 1);
    ActKinds(w, step, step.i);
    forall c: Id ensures Placed(w', c) {
      PlacedStep(w, step, c);
    }
    forall j | 0 <= j < |w'.threads| ensures ThreadOwn(w', j) && HasDispatcher(w', j) {
      DispatcherStays(w, step, j);
      if j == step.i { SelfOwn(w, step); } else { OtherOwn(w, step, j); }
    }
    forall s, k | 0 <= s < |w'.scheds| && 0 <= k < |w'.scheds[s].local|
        ensures Of(w', w'.scheds[s].local[k]).scheduler == Some(s) {
      LocalOwn(w, step, s, k);
    }
    forall c | 0 <= c < |w'.ctx| && w'.ctx[c].mode.Idle? ensures SchedulerOf(w', c).Some? {
      IdleHasScheduler(w, step, c);
    }
  }

  // ---------- Nothing goes wrong in a tidy world ----------

  lemma {:induction false} LocalNone(ss: seq<Scheduler>, c: Id)
    requires forall s, k :: 0 <= s < |ss| && 0 <= k < |ss[s].local| ==> ss[s].local[k] != c
    ensures LocalPlaces(ss, c) == 0
    decreases |ss|
  {
    if ss != [] {
      forall k | 0 <= k < |ss[0].local| ensures ss[0].local[k] != c {
      }
      assert c !in ss[0].local;
      LocalNone(ss[1..], c);
    }
  }

  lemma {:induction false} ThreadNone(ts: seq<Thread>, r: Role)
    requires forall j :: 0 <= j < |ts| ==> Plays(ts[j], r) == 0
    ensures ThreadPlaces(ts, r) == 0
    decreases |ts|
  {
    if ts != [] {
      assert Plays(ts[0], r) == 0;
      forall j | 0 <= j < |ts[1..]| ensures Plays(ts[1..][j], r) == 0 {
        assert Plays(ts[j + 1], r) == 0;
      }
      ThreadNone(ts[1..], r);
    }
  }

  /** While thread i looks at its local queue for anybody but its dispatcher, that is in it. */
  lemma DispatcherIsQueued(w: World, i: nat)
    requires Tidy(w) && i < |w.threads| && w.threads[i].act.Locally? && Of(w, w.threads[i].active).kind != Dispatcher
    ensures w.scheds[i].local != []
  {
    var d := 2 * i + 1;
    assert HasDispatcher(w, i) && Placed(w, d);
    if w.scheds[i].local == [] {
      assert d !in w.ready.queue;
      forall s, k | 0 <= s < |w.scheds| && 0 <= k < |w.scheds[s].local| ensures w.scheds[s].local[k] != d {
        assert Of(w, w.scheds[s].local[k]).scheduler == Some(s);
      }
      LocalNone(w.scheds, d);
      forall j | 0 <= j < |w.threads| ensures Plays(w.threads[j], Has(d)) == 0 {
        assert ThreadOwn(w, j) && KindOk(w, w.threads[j].act);
      }
      ThreadNone(w.threads, Has(d));
    }
  }

  lemma ResumableInHand(w: World, i: nat)
    requires Tidy(w) && i < |w.threads| && w.threads[i].act.Resuming?
    ensures var c := w.threads[i].act.c; !Runs(w, c) && c < |w.ctx| && w.ctx[c].mode.Live?
  {
    var c := w.threads[i].act.c;
    assert Plays(w.threads[i], Has(c)) > 0;
    OnlyHere(w, i, c);
    forall j | 0 <= j < |w.threads| ensures w.threads[j].active != c {
      assert Plays(w.threads[j], Has(c)) == if j == i then 1 else 0;
    }
  }

  /** The step locks the mutex of the thread's scheduler: attaching, starting a context that
      is attached at once, ending one. */
  predicate TakesLock(step: Step) {
    step.Attach? || (step.New? && step.launch != Async) || EndsOne(step)
  }

  predicate EndsOne(step: Step) {
    step.Look? && step.next.Ends?
  }

  predicate Held(w: World, i: nat) {
    i < |w.scheds| && w.scheds[i].held
  }

  /** In a tidy world the only fault is to lock a mutex that an ended context holds. */
  lemma FaultStep(w: World, step: Step)
    requires Tidy(w) && Enabled(w, step) && !Misplaces(w, step)
    ensures Do(w, step).fault == if TakesLock(step) && Held(w, step.i) then SelfLocked else NoFault
    ensures Do(w, step).fault.SelfLocked? ==> Do(w, step) == w.(fault := SelfLocked)
  {
    var i := step.i;
    assert ThreadOwn(w, i);
    if step.Resume? {
      ResumableInHand(w, i);
    } else if step.LookLocally? && Of(w, w.threads[i].active).kind != Dispatcher {
      DispatcherIsQueued(w, i);
    }
  }

  lemma HeldStep(w: World, step: Step, j: nat)
    requires Tidy(w) && Enabled(w, step) && Do(w, step).fault.NoFault? && j < |w.threads|
    ensures Held(Do(w, step), j) <==> Held(w, j) || (EndsOne(step) && j == step.i)
  {
    assert ThreadOwn(w, step.i);
  }

  /** Every context is where it belongs, and nothing has gone wrong. */
  ghost predicate Sound(w: World) {
    AllPlaced(w) && w.fault.NoFault?
  }

  ghost predicate SoundThroughout(w: World, steps: seq<Step>)
    decreases |steps|
  {
    Sound(w) && (steps != [] && Enabled(w, steps[0]) ==> SoundThroughout(Do(w, steps[0]), steps[1..]))
  }

  /** In these steps a deadline of WaitUntil expires, or a context that has an origin calls
      YieldOrigin. */
  predicate MisplacesIn(w: World, steps: seq<Step>)
    decreases |steps|
  {
    steps != [] && Enabled(w, steps[0]) && (Misplaces(w, steps[0]) || MisplacesIn(Do(w, steps[0]), steps[1..]))
  }

  /** In these steps a thread of `ended`, or one that ends a worker before in them, locks the
      mutex of its scheduler. */
  predicate LocksAgain(ended: set<nat>, steps: seq<Step>)
    decreases |steps|
  {
    && steps != []
    && ((TakesLock(steps[0]) && steps[0].i in ended)
        || LocksAgain(if EndsOne(steps[0]) then ended + {steps[0].i} else ended, steps[1..]))
  }

  ghost predicate HeldBy(w: World, ended: set<nat>) {
    forall j :: 0 <= j < |w.threads| ==> (Held(w, j) <==> j in ended)
  }

  lemma MisplacingIsUnsound(w: World, step: Step)
    requires Tidy(w) && Enabled(w, step) && Misplaces(w, step)
    ensures !Sound(Do(w, step))
  {
    if Do(w, step).fault.NoFault? {
      var c := if step.Expire? then step.c else ActiveOf(w, step.i);
      PlacesStep(w, step, c);
      ModeStep(w, step, c);
      assert Placed(w, c);
      assert !Placed(Do(w, step), c);
    }
  }

  lemma FaultyIsTidy(w: World, fault: Fault)
    requires Tidy(w)
    ensures Tidy(w.(fault := fault))
  {
    var w' := w.(fault := fault);
    forall c: Id ensures Placed(w', c) {
      assert Placed(w, c);
    }
    forall j | 0 <= j < |w'.threads| ensures ThreadOwn(w', j) && HasDispatcher(w', j) && KindOk(w', w'.threads[j].act) {
      assert ThreadOwn(w, j) && HasDispatcher(w, j) && KindOk(w, w.threads[j].act);
    }
    forall s, k | 0 <= s < |w.scheds| && 0 <= k < |w.scheds[s].local| ensures Pinned(w', w'.scheds[s].local[k]) {
      assert Pinned(w, w.scheds[s].local[k]);
    }
    forall c | 0 <= c < |w.ctx| && w.ctx[c].mode.Idle? ensures SchedulerOf(w', c).Some? {
      assert SchedulerOf(w, c).Some?;
    }
  }

  lemma {:induction false} SoundUnless(w: World, steps: seq<Step>, w': World, ended: set<nat>)
    requires Tidy(w) && w.fault.NoFault? && Path(w, steps, w') && HeldBy(w, ended)
    ensures SoundThroughout(w, steps) <==> !MisplacesIn(w, steps) && !LocksAgain(ended, steps)
    ensures !MisplacesIn(w, steps) ==> Tidy(w') && (w'.fault.NoFault? || w'.fault.SelfLocked?)
    decreases |steps|
  {
    if steps != [] {
      var step, w1 := steps[0], Do(w, steps[0]);
      if Misplaces(w, step) {
        MisplacingIsUnsound(w, step);
      } else {
        FaultStep(w, step);
        assert ThreadOwn(w, step.i);
        if w1.fault.NoFault? {
          TidyStep(w, step);
          var ended1 := if EndsOne(step) then ended + {step.i} else ended;
          forall j | 0 <= j < |w1.threads| ensures Held(w1, j) <==> j in ended1 {
            ActKinds(w, step, step.i);
            HeldStep(w, step, j);
          }
          SoundUnless(w1, steps[1..], w', ended1);
        } else {
          FaultyIsTidy(w, SelfLocked);
        }
      }
    }
  }

  // ---------- The start ----------

  lemma {:induction false} StartLocal(n: nat, k: nat, c: Id)
    requires k <= n
    ensures LocalPlaces(Start(n).scheds[k..], c) == if c % 2 == 1 && k <= c / 2 < n then 1 else 0
    decreases n - k
  {
    var ss := Start(n).scheds;
    if k < n {
      StartLocal(n, k + 1, c);
      assert ss[k..][1..] == ss[k + 1..];
      assert ss[k].local == [2 * k + 1];
    }
  }

  lemma {:induction false} StartThreads(n: nat, k: nat, c: Id)
    requires k <= n
    ensures ThreadPlaces(Start(n).threads[k..], Has(c)) == if c % 2 == 0 && k <= c / 2 < n then 1 else 0
    decreases n - k
  {
    var ts := Start(n).threads;
    if k < n {
      StartThreads(n, k + 1, c);
      assert ts[k..][1..] == ts[k + 1..];
    }
  }

  lemma StartPlaced(n: nat, c: Id)
    ensures Placed(Start(n), c)
  {
    StartLocal(n, 0, c);
    StartThreads(n, 0, c);
    assert Start(n).scheds[0..] == Start(n).scheds && Start(n).threads[0..] == Start(n).threads;
  }

  lemma StartKinds(n: nat)
    ensures Kinds(Start(n))
  {
  }

  lemma StartOwn(n: nat, j: nat)
    requires j < n
    ensures ThreadOwn(Start(n), j) && HasDispatcher(Start(n), j)
  {
  }

  lemma TidyStart(n: nat)
    ensures Tidy(Start(n)) && Start(n).fault.NoFault?
  {
    StartKinds(n);
    forall j | 0 <= j < n ensures ThreadOwn(Start(n), j) && HasDispatcher(Start(n), j) {
      StartOwn(n, j);
    }
    forall c: Id ensures Placed(Start(n), c) {
      StartPlaced(n, c);
    }
  }

  // ---------- Conservation ----------

  /** In every state of a run of any number of threads each live context is in exactly one
      place and each other in none, no null pointer is used, nothing is resumed that runs or
      has ended, and no thread locks a mutex that stays locked: if and only if no context that
      has an origin calls YieldOrigin, no deadline of WaitUntil expires, and no thread that has
      ended a worker attaches, starts (but Async) or ends one again. */
  lemma EachContextInOnePlaceIff(n: nat, steps: seq<Step>, w: World)
    requires Path(Start(n), steps, w)
    ensures SoundThroughout(Start(n), steps) <==> !MisplacesIn(Start(n), steps) && !LocksAgain({}, steps)
    ensures !MisplacesIn(Start(n), steps) ==> Tidy(w)
  {
    TidyStart(n);
    SoundUnless(Start(n), steps, w, {});
  }

  lemma {:induction false} ContextsStay(w: World, steps: seq<Step>, w': World)
    requires Path(w, steps, w')
    ensures |w.ctx| <= |w'.ctx|
    ensures forall c :: 0 <= c < |w.ctx| ==> w'.ctx[c].kind == w.ctx[c].kind && w'.ctx[c].launch == w.ctx[c].launch
    decreases |steps|
  {
    if steps != [] {
      var w1 := Do(w, steps[0]);
      ContextsStay(w1, steps[1..], w');
      forall c | 0 <= c < |w.ctx| ensures w1.ctx[c].kind == w.ctx[c].kind && w1.ctx[c].launch == w.ctx[c].launch {
        KindStep(w, steps[0], c);
      }
      KindStep(w, steps[0], 0);
    }
  }

  lemma FifoStep(w: World, step: Step)
    requires Enabled(w, step) && w.ready.pushed == w.ready.popped + w.ready.queue
    ensures var w' := Do(w, step); w'.ready.pushed == w'.ready.popped + w'.ready.queue
  {
  }

  lemma {:induction false} FifoPath(w: World, steps: seq<Step>, w': World)
    requires Path(w, steps, w') && w.ready.pushed == w.ready.popped + w.ready.queue
    ensures w'.ready.pushed == w'.ready.popped + w'.ready.queue
    decreases |steps|
  {
    if steps != [] {
      FifoStep(w, steps[0]);
      FifoPath(Do(w, steps[0]), steps[1..], w');
    }
  }

  /** Workers leave the shared queue in the order in which they entered it, whichever threads
      push and pick, in every run: the k-th to leave is the k-th that entered. */
  lemma SharedQueueIsFifo(n: nat, steps: seq<Step>, w: World)
    requires Path(Start(n), steps, w)
    ensures w.ready.popped <= w.ready.pushed && w.ready.queue == w.ready.pushed[|w.ready.popped|..]
  {
    FifoPath(Start(n), steps, w);
  }

  function PutOn(w: World, steps: seq<Step>, s: Sched): seq<Id>
    decreases |steps|
  {
    if steps == [] || !Enabled(w, steps[0]) then []
    else PutLocally(w, steps[0], s) + PutOn(Do(w, steps[0]), steps[1..], s)
  }

  function TakenOn(w: World, steps: seq<Step>, s: Sched): seq<Id>
    decreases |steps|
  {
    if steps == [] || !Enabled(w, steps[0]) then []
    else TakenLocally(w, steps[0], s) + TakenOn(Do(w, steps[0]), steps[1..], s)
  }

  lemma {:induction false} LocalPath(w: World, steps: seq<Step>, w': World, s: Sched)
    requires Path(w, steps, w') && w.fault.NoFault? && w'.fault.NoFault? && s < |w.scheds|
    ensures |w'.scheds| == |w.scheds|
    ensures w.scheds[s].local + PutOn(w, steps, s) == TakenOn(w, steps, s) + w'.scheds[s].local
    decreases |steps|
  {
    if steps != [] {
      var step, w1 := steps[0], Do(w, steps[0]);
      assert steps[1..] == [] || Enabled(w1, steps[1..][0]);
      LocalStep(w, step, s);
      LocalPath(w1, steps[1..], w', s);
      Regroup(w.scheds[s].local, PutLocally(w, step, s), PutOn(w1, steps[1..], s),
              TakenLocally(w, step, s), TakenOn(w1, steps[1..], s), w1.scheds[s].local, w'.scheds[s].local);
    }
  }

  lemma Regroup(q: seq<Id>, p1: seq<Id>, p2: seq<Id>, t1: seq<Id>, t2: seq<Id>, q1: seq<Id>, q2: seq<Id>)
    requires q + p1 == t1 + q1 && q1 + p2 == t2 + q2
    ensures q + (p1 + p2) == (t1 + t2) + q2
  {
    assert q + (p1 + p2) == (q + p1) + p2 == t1 + (q1 + p2) == t1 + (t2 + q2);
  }

  /** Pinned contexts are resumed from a local queue in the order in which they were scheduled
      with its policy, whichever threads schedule them, in every run: the dispatcher first,
      which is there from the start. */
  lemma LocalQueueIsFifo(n: nat, w0: World, steps: seq<Step>, w: World, s: Sched)
    requires w0 == Start(n) && Path(w0, steps, w) && w.fault.NoFault? && s < n
    ensures s < |w.scheds|
    ensures [2 * s + 1] + PutOn(w0, steps, s) == TakenOn(w0, steps, s) + w.scheds[s].local
  {
    StartQueue(n, s);
    LocalPath(w0, steps, w, s);
  }

  lemma StartQueue(n: nat, s: Sched)
    requires s < n
    ensures |Start(n).scheds| == n && Start(n).scheds[s].local == [2 * s + 1] && Start(n).fault.NoFault?
  {
  }

  /** A context in its one place: a live one runs on one thread, is in one queue, once, or in
      one thread's hands; any other one is nowhere. */
  lemma OnePlaceMeans(w: World, c: Id, i: nat)
    requires Placed(w, c) && i < |w.threads|
    ensures c in w.ready.queue ==>
              && Of(w, c).mode.Live? && multiset(w.ready.queue)[c] == 1
              && w.threads[i].active != c
    ensures w.threads[i].active == c ==>
              && Of(w, c).mode.Live?
              && (forall j :: 0 <= j < |w.threads| && j != i ==> w.threads[j].active != c)
              && (forall s :: 0 <= s < |w.scheds| ==> c !in w.scheds[s].local)
  {
    ThreadAtLeast(w.threads, i, Has(c));
    assert c in w.ready.queue <==> Count(w.ready.queue, c) > 0;
    if w.threads[i].active == c {
      OnlyHere(w, i, c);
      forall j | 0 <= j < |w.threads| && j != i ensures w.threads[j].active != c {
        assert Plays(w.threads[j], Has(c)) == 0;
      }
      forall s | 0 <= s < |w.scheds| ensures c !in w.scheds[s].local {
        LocalAtLeast(w.scheds, s, c);
        assert c in w.scheds[s].local <==> Count(w.scheds[s].local, c) > 0;
      }
    }
  }

  lemma {:induction false} LocalAtLeast(ss: seq<Scheduler>, s: Sched, c: Id)
    requires s < |ss|
    ensures LocalPlaces(ss, c) >= Count(ss[s].local, c)
    decreases |ss|
  {
    if s > 0 {
      LocalAtLeast(ss[1..], s - 1, c);
    }
  }

  /** A pinned context is picked only by the policy that queued it, which is its own, on its
      own thread. */
  lemma PinnedStayHome(n: nat, steps: seq<Step>, w: World, i: nat)
    requires Path(Start(n), steps, w) && !MisplacesIn(Start(n), steps)
    requires i < |w.threads| && w.threads[i].act.Resuming? && Of(w, w.threads[i].act.c).kind != Worker
    ensures Of(w, w.threads[i].act.c).scheduler == Some(i)
  {
    EachContextInOnePlaceIff(n, steps, w);
    assert ThreadOwn(w, i);
  }

  // ---------- The assertion in AttachWorkerContext ----------

  /** `assert(nullptr == ctx->GetScheduler())` when a picked context is attached. */
  predicate AssertionHolds(w: World, step: Step)
    requires Enabled(w, step)
  {
    step.Attach? ==> Of(w, w.threads[step.i].act.c).scheduler.None?
  }

  /** A worker between Awakened and Attach. */
  ghost predicate InTransit(w: World, c: Id) {
    && c < |w.ctx| && w.ctx[c].kind == Worker && w.ctx[c].mode.Live?
    && (w.ctx[c].launch != Async ==> w.ctx[c].scheduler.None?)
    && forall j :: 0 <= j < |w.threads| ==>
         w.threads[j].active != c && !(w.threads[j].act.Resuming? && w.threads[j].act.c == c)
  }

  lemma TransitStep(w: World, step: Step, c: Id)
    requires Kinds(w) && InTransit(w, c) && Enabled(w, step) && Do(w, step).fault.NoFault?
    requires !(step.Attach? && w.threads[step.i].act.c == c)
    ensures InTransit(Do(w, step), c) && Do(w, step).ctx[c].scheduler == w.ctx[c].scheduler
  {
    KindStep(w, step, c);
    ModeStep(w, step, c);
    TransitScheduler(w, step, c);
    var w' := Do(w, step);
    forall j | 0 <= j < |w'.threads|
        ensures w'.threads[j].active != c && !(w'.threads[j].act.Resuming? && w'.threads[j].act.c == c) {
      TransitThread(w, step, c, j);
    }
  }

  lemma TransitScheduler(w: World, step: Step, c: Id)
    requires Kinds(w) && InTransit(w, c) && Enabled(w, step) && Do(w, step).fault.NoFault?
    requires !(step.Attach? && w.threads[step.i].act.c == c)
    ensures Of(Do(w, step), c).scheduler == w.ctx[c].scheduler
  {
  }

  lemma TransitThread(w: World, step: Step, c: Id, j: nat)
    requires Kinds(w) && InTransit(w, c) && Enabled(w, step) && Do(w, step).fault.NoFault?
    requires !(step.Attach? && w.threads[step.i].act.c == c)
    requires j < |Do(w, step).threads|
    ensures Do(w, step).threads[j].active != c
            && !(Do(w, step).threads[j].act.Resuming? && Do(w, step).threads[j].act.c == c)
  {
    if j != step.i && j < |w.threads| {
      OthersStay(w, step, j);
    } else if step.LookLocally? {
      LocalHand(w, step.i, w.threads[step.i].act.next);
    } else {
      TransitHere(w, step, c);
    }
  }

  lemma TransitHere(w: World, step: Step, c: Id)
    requires InTransit(w, c) && Enabled(w, step) && Do(w, step).fault.NoFault? && !step.LookLocally?
    requires !(step.Attach? && w.threads[step.i].act.c == c)
    ensures |Do(w, step).threads| == |w.threads|
    ensures var t := Do(w, step).threads[step.i]; t.active != c && !(t.act.Resuming? && t.act.c == c)
  {
  }

  /** No step of the path attaches c. */
  predicate NotAttached(w: World, steps: seq<Step>, c: Id)
    decreases |steps|
  {
    steps != [] && Enabled(w, steps[0]) ==>
      !(steps[0].Attach? && w.threads[steps[0].i].act.c == c) && NotAttached(Do(w, steps[0]), steps[1..], c)
  }

  /** The scheduler of a context does not change between Awakened and Attach, in any run. */
  lemma {:induction false} TransitKeepsScheduler(w: World, steps: seq<Step>, w': World, c: Id)
    requires Kinds(w) && w.fault.NoFault? && InTransit(w, c) && Path(w, steps, w') && w'.fault.NoFault?
             && NotAttached(w, steps, c)
    ensures InTransit(w', c) && w'.ctx[c].scheduler == w.ctx[c].scheduler
    decreases |steps|
  {
    if steps != [] {
      assert steps[1..] == [] || Enabled(Do(w, steps[0]), steps[1..][0]);
      KindsStep(w, steps[0]);
      TransitStep(w, steps[0], c);
      TransitKeepsScheduler(Do(w, steps[0]), steps[1..], w', c);
    }
  }

  /** When a worker is awakened, the assertion at its next pick will hold exactly if it was
      not launched Async or has no scheduler at the call; whatever the others do. */
  lemma AttachAssertionIff(w: World, i: nat, c: Id, steps: seq<Step>, w': World, j: nat)
    requires Kinds(w) && Placed(w, c) && Enabled(w, Awaken(i, c)) && w.ctx[c].kind == Worker
    requires Path(Do(w, Awaken(i, c)), steps, w') && NotAttached(Do(w, Awaken(i, c)), steps, c)
    requires Enabled(w', Attach(j)) && w'.threads[j].act.c == c
    ensures AssertionHolds(w', Attach(j)) <==> Of(w', c).scheduler.None?
    ensures AssertionHolds(w', Attach(j)) <==> w.ctx[c].launch != Async || w.ctx[c].scheduler.None?
  {
    var w1 := Do(w, Awaken(i, c));
    assert steps == [] || Enabled(w1, steps[0]);
    KindsStep(w, Awaken(i, c));
    AwakenedIsInTransit(w, i, c);
    TransitKeepsScheduler(w1, steps, w', c);
  }

  lemma AwakenedIsInTransit(w: World, i: nat, c: Id)
    requires Kinds(w) && Placed(w, c) && Enabled(w, Awaken(i, c)) && w.ctx[c].kind == Worker
             && Do(w, Awaken(i, c)).fault.NoFault?
    ensures InTransit(Do(w, Awaken(i, c)), c)
    ensures Do(w, Awaken(i, c)).ctx[c].scheduler == Detached(w.ctx[c].launch, w.ctx[c].scheduler)
  {
    forall j | 0 <= j < |w.threads|
        ensures w.threads[j].active != c && !(w.threads[j].act.Resuming? && w.threads[j].act.c == c) {
      ThreadAtLeast(w.threads, j, Has(c));
    }
  }

  // ---------- Runs that go wrong ----------

  lemma PathFirst(w: World, step: Step, rest: seq<Step>, w': World)
    requires Enabled(w, step) && Path(Do(w, step), rest, w')
    ensures Path(w, [step] + rest, w')
  {
    assert ([step] + rest)[1..] == rest;
  }

  lemma {:induction false} PathAppend(w: World, steps: seq<Step>, w1: World, step: Step)
    requires Path(w, steps, w1) && Enabled(w1, step)
    ensures Path(w, steps + [step], Do(w1, step))
    decreases |steps|
  {
    if steps == [] {
      PathFirst(w, step, [], Do(w, step));
      assert steps + [step] == [step] + [];
    } else {
      PathAppend(Do(w, steps[0]), steps[1..], w1, step);
      PathFirst(w, steps[0], steps[1..] + [step], Do(w1, step));
      assert steps + [step] == [steps[0]] + (steps[1..] + [step]);
    }
  }

  lemma PathThen(w: World, steps: seq<Step>, w1: World, step: Step) returns (steps': seq<Step>, w2: World)
    requires Path(w, steps, w1) && Enabled(w1, step)
    ensures w2 == Do(w1, step) && Path(w, steps', w2) && steps' == steps + [step]
  {
    PathAppend(w, steps, w1, step);
    w2, steps' := Do(w1, step), steps + [step];
  }

  /** Thread i runs the main context, finds context c in the shared queue and attaches it. */
  lemma MainPicks(w0: World, before: seq<Step>, w: World, i: nat, c: Id) returns (steps: seq<Step>, w': World)
    requires Path(w0, before, w) && w.fault.NoFault? && i < |w.threads| && c < |w.ctx|
    requires w.threads[i].act.Code? && Of(w, w.threads[i].active).kind == Main
             && SchedulerOf(w, w.threads[i].active) == Some(i)
    requires w.ready.queue != [] && w.ready.queue[0] == c && w.threads[i].active != c && !Held(w, i)
    ensures steps == before + [Look(i, Suspends), Attach(i)] && Path(w0, steps, w')
    ensures var w1 := With(w, c, w.ctx[c].(scheduler := Some(i)));
            w' == Turned(w1.(ready := Popped(w.ready)), i, Resuming(c, Suspends))
  {
    var w1;
    steps, w1 := PathThen(w0, before, w, Look(i, Suspends));
    steps, w' := PathThen(w0, steps, w1, Attach(i));
  }

  /** On thread 0 of two the main context starts an Async fiber and suspends; the fiber runs. */
  lemma AsyncRuns() returns (steps: seq<Step>, w: World)
    ensures Path(Start(2), steps, w) && !MisplacesIn(Start(2), steps)
    ensures w.threads == [Thread(4, Code), Thread(2, Code)] && w.ready.queue == [] && w.fault.NoFault?
    ensures w.scheds == Start(2).scheds
    ensures |w.ctx| == 5 && w.ctx[4] == Ctx(Worker, Async, Some(0), true, Live)
    ensures w.ctx[1] == Start(2).ctx[1] && w.ctx[2] == Start(2).ctx[2] && w.ctx[3] == Start(2).ctx[3]
  {
    var s := Start(2);
    var w1, w2, w3;
    steps, w1 := PathThen(s, [], s, New(0, Async));
    steps, w2 := PathThen(s, steps, w1, Push(0));
    steps, w3 := MainPicks(s, steps, w2, 0, 4);
    assert w3.threads[1].active == 2;
    steps, w := PathThen(s, steps, w3, Resume(0));
    NeverMisplaces(s, steps);
  }

  lemma {:induction false} NeverMisplaces(w: World, steps: seq<Step>)
    requires forall k :: 0 <= k < |steps| ==> !steps[k].YieldOrigin? && !steps[k].Expire?
    ensures !MisplacesIn(w, steps)
    decreases |steps|
  {
    if steps != [] && Enabled(w, steps[0]) {
      forall k | 0 <= k < |steps[1..]| ensures !steps[1..][k].YieldOrigin? && !steps[1..][k].Expire? {
        assert steps[1..][k] == steps[k + 1];
      }
      NeverMisplaces(Do(w, steps[0]), steps[1..]);
    }
  }

  /** An Async fiber calls YieldOrigin, which queues it while it runs on; another thread
      picks it, the assertion at the attachment holds, and the fiber is resumed although it
      runs. */
  lemma YieldOriginFails() returns (steps: seq<Step>, w: World)
    ensures Path(Start(2), steps, w) && w.fault.NoFault?
    ensures Enabled(w, Resume(1)) && w.threads[1].act.c == 4 == w.threads[0].active && w.threads[0].act.Code?
    ensures Do(w, Resume(1)).fault.NotResumable?
  {
    var s := Start(2);
    var w1, w2;
    steps, w1 := AsyncRuns();
    steps, w2 := PathThen(s, steps, w1, YieldOrigin(0));
    steps, w := MainPicks(s, steps, w2, 1, 4);
    assert w.threads[0].active == 4;
  }

  /** A fiber that has called YieldOrigin has no scheduler until it is picked: if it goes on
      to suspend, yield or end first, the null scheduler is dereferenced. */
  lemma YieldOriginThenStuck(w: World, i: nat, next: Then)
    requires Tidy(w) && Enabled(w, YieldOrigin(i)) && Misplaces(w, YieldOrigin(i))
    ensures var w1 := Do(w, YieldOrigin(i)); Enabled(w1, Look(i, next)) && Do(w1, Look(i, next)).fault.NoScheduler?
  {
    assert ThreadOwn(w, i);
  }

  /** The fiber suspends, and the dispatcher of thread 0 runs. */
  lemma AsyncSuspends() returns (steps: seq<Step>, w: World)
    ensures Path(Start(2), steps, w) && w.fault.NoFault? && w.ready.queue == []
    ensures w.threads == [Thread(1, Code), Thread(2, Code)] && |w.scheds| == 2
    ensures |w.ctx| == 5 && w.ctx[4] == Ctx(Worker, Async, Some(0), true, Idle) && w.ctx[2] == Start(2).ctx[2]
  {
    var s := Start(2);
    var w3;
    steps, w3 := AsyncLooks();
    steps, w := PathThen(s, steps, w3, Resume(0));
  }

  /** The fiber is about to suspend. */
  lemma AsyncLooks() returns (steps: seq<Step>, w: World)
    ensures Path(Start(2), steps, w) && w.fault.NoFault? && w.ready.queue == []
    ensures w.threads == [Thread(4, Resuming(1, Suspends)), Thread(2, Code)] && |w.scheds| == 2
    ensures |w.ctx| == 5 && w.ctx[4] == Ctx(Worker, Async, Some(0), true, Live) && w.ctx[1] == Start(2).ctx[1]
            && w.ctx[2] == Start(2).ctx[2]
  {
    var s := Start(2);
    var w1, w2;
    steps, w1 := AsyncRuns();
    steps, w2 := PathThen(s, steps, w1, Look(0, Suspends));
    assert w2 == Turned(w1, 0, Locally(Suspends));
    steps, w := PathThen(s, steps, w2, LookLocally(0));
  }

  /** A run that fails the assertion: the Async fiber suspends, and is awakened and picked
      once more. */
  lemma RewokenAsyncFails() returns (steps: seq<Step>, w: World)
    ensures Path(Start(2), steps, w) && Enabled(w, Attach(1)) && w.threads[1].act.c == 4
            && !AssertionHolds(w, Attach(1))
  {
    var s := Start(2);
    var w4, w5, w6;
    steps, w4 := AsyncSuspends();
    steps, w5 := PathThen(s, steps, w4, Awaken(1, 4));
    steps, w6 := PathThen(s, steps, w5, Push(1));
    steps, w := PathThen(s, steps, w6, Look(1, Suspends));
  }

  /** One thread whose main context has called WaitUntil and is about to give way. */
  lemma MainSleeps() returns (steps: seq<Step>, w: World)
    ensures steps == [WaitUntil(0), LookLocally(0)] && Path(Start(1), steps, w) && w.fault.NoFault?
    ensures w.threads == [Thread(0, Resuming(1, Yields))] && w.ctx == Start(1).ctx
    ensures |w.scheds| == 1 && w.scheds[0].local == [] && w.scheds[0].sleeping[0] == 1
  {
    var s := Start(1);
    var w1;
    steps, w1 := PathThen(s, [], s, WaitUntil(0));
    assert w1.threads == [Thread(0, Locally(Yields))];
    assert |w1.scheds| == 1 && w1.scheds[0].local == [1] && w1.scheds[0].sleeping[0] == 1;
    steps, w := PathThen(s, steps, w1, LookLocally(0));
  }

  lemma MainYields(w: World)
    requires w.fault.NoFault? && w.threads == [Thread(0, Resuming(1, Yields))] && w.ctx == Start(1).ctx
    requires |w.scheds| == 1 && w.scheds[0].local == [] && w.scheds[0].sleeping[0] == 1
    ensures Enabled(w, Resume(0))
    ensures var w' := Do(w, Resume(0));
            && w'.fault.NoFault? && w'.threads == [Thread(1, Code)] && w'.ctx == w.ctx
            && |w'.scheds| == 1 && w'.scheds[0].local == [0] && w'.scheds[0].sleeping[0] == 1
  {
    assert w.ctx[0].kind == Main && w.ctx[1].kind == Dispatcher && !Runs(w, 1);
  }

  lemma MainExpires(w: World)
    requires w.fault.NoFault? && w.threads == [Thread(1, Code)] && w.ctx == Start(1).ctx
    requires |w.scheds| == 1 && w.scheds[0].local == [0] && w.scheds[0].sleeping[0] == 1
    ensures Enabled(w, Expire(0, 0))
    ensures var w' := Do(w, Expire(0, 0)); w'.fault.NoFault? && |w'.scheds| == 1 && w'.scheds[0].local == [0, 0]
  {
    assert w.ctx[0].kind == Main && w.ctx[1].kind == Dispatcher;
  }

  /** The main context sleeps, which queues it, and its deadline expires: it is queued twice. */
  lemma DeadlineMisplaces() returns (steps: seq<Step>, w: World)
    ensures steps == [WaitUntil(0), LookLocally(0), Resume(0), Expire(0, 0)] && Path(Start(1), steps, w)
    ensures w.fault.NoFault? && |w.scheds| == 1 && w.scheds[0].local == [0, 0]
  {
    var w2, w3;
    steps, w2 := MainSleeps();
    MainYields(w2);
    steps, w3 := PathThen(Start(1), steps, w2, Resume(0));
    MainExpires(w3);
    steps, w := PathThen(Start(1), steps, w3, Expire(0, 0));
  }

  /** The main context starts a Post fiber, which is queued. */
  lemma PostOne(w0: World, before: seq<Step>, w: World) returns (steps: seq<Step>, w': World)
    requires Path(w0, before, w) && w.fault.NoFault? && w.threads == [Thread(0, Code)]
    requires SchedulerOf(w, 0) == Some(0) && !Held(w, 0)
    ensures steps == before + [New(0, Post), Push(0)] && Path(w0, steps, w')
    ensures w' == w.(ctx := w.ctx + [Ctx(Worker, Post, None, false, Live)], ready := PushedTo(w.ready, |w.ctx|))
  {
    var w1;
    steps, w1 := PathThen(w0, before, w, New(0, Post));
    assert w1.threads == [Thread(0, Pushing(|w.ctx|))];
    steps, w' := PathThen(w0, steps, w1, Push(0));
    assert w'.threads == [Thread(0, Code)];
  }

  /** One thread whose main context has started two Post fibers. */
  lemma TwoPosts() returns (steps: seq<Step>, w: World)
    ensures steps == [New(0, Post), Push(0), New(0, Post), Push(0)] && Path(Start(1), steps, w)
    ensures w.fault.NoFault? && w.threads == [Thread(0, Code)] && w.ready.queue == [2, 3] && w.scheds == Start(1).scheds
    ensures |w.ctx| == 4 && w.ctx[0] == Start(1).ctx[0]
    ensures w.ctx[2] == Ctx(Worker, Post, None, false, Live)
  {
    var s := Start(1);
    var w1;
    assert s.threads == [Thread(0, Code)];
    steps, w1 := PostOne(s, [], s);
    steps, w := PostOne(s, steps, w1);
  }

  /** The first fiber runs, the second is queued. */
  lemma FirstOfTwoRuns() returns (steps: seq<Step>, w: World)
    ensures steps == [New(0, Post), Push(0), New(0, Post), Push(0), Look(0, Suspends), Attach(0), Resume(0)]
    ensures Path(Start(1), steps, w) && w.fault.NoFault? && w.threads == [Thread(2, Code)] && w.ready.queue == [3]
    ensures |w.ctx| == 4 && w.ctx[2] == Ctx(Worker, Post, Some(0), false, Live) && |w.scheds| == 1 && !Held(w, 0)
  {
    var s := Start(1);
    var w2, w3;
    steps, w2 := TwoPosts();
    steps, w3 := MainPicks(s, steps, w2, 0, 2);
    assert w3.threads == [Thread(0, Resuming(2, Suspends))];
    steps, w := PathThen(s, steps, w3, Resume(0));
  }

  /** Scheduler::Terminate holds mtx_ while it picks: when a fiber ends and another one is in
      the shared queue, its thread locks the mutex again to attach that one, and blocks. */
  lemma EndingLocksItself() returns (steps: seq<Step>, w: World)
    ensures Path(Start(1), steps, w) && !MisplacesIn(Start(1), steps) && w.fault.NoFault?
    ensures w.threads == [Thread(2, Attaching(3, Ends))]
    ensures Enabled(w, Attach(0)) && Do(w, Attach(0)).fault.SelfLocked?
  {
    var w1;
    steps, w1 := FirstOfTwoRuns();
    steps, w := PathThen(Start(1), steps, w1, Look(0, Ends));
    NeverMisplaces(Start(1), steps);
  }

  lemma HeldOn(w: World, step: Step, j: nat)
    requires Enabled(w, step) && Held(w, j)
    ensures Held(Do(w, step), j)
  {
  }

  /** After a worker has ended on a thread, the mutex of its scheduler is never unlocked. */
  lemma {:induction false} HeldStays(w: World, steps: seq<Step>, w': World, j: nat)
    requires Path(w, steps, w') && Held(w, j)
    ensures Held(w', j)
    decreases |steps|
  {
    if steps != [] {
      HeldOn(w, steps[0], j);
      HeldStays(Do(w, steps[0]), steps[1..], w', j);
    }
  }
}
