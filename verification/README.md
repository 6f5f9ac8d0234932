# Verification of lutask

lutask is a fiber library.  This project models its hardest parts and proves, for all
inputs and all runs, what they are for:

- **The context switch** (`Memory`, `Frame`, `Kernel`, `SysV64`, `MsX64`, `I386`, `S390x`).
  `Frame` says what one switch does, for any frame layout, down to the bytes it may write.
  `Kernel` runs any number of contexts on disjoint stacks over any such switch, makes new
  ones and ends suspended ones; between two switches the running code may do anything that
  leaves the frames of suspended contexts alone.  The four processor modules follow the assembly instruction by instruction and
  prove that it meets the contract of `Frame`; so the theorems about whole runs hold of it.
- **The thread barrier** (`Barrier`), which tells generations apart by one bit, as
  interleaved threads with spurious wakeups and with the gap between unlocking and notifying.
- **Scheduling and waking** (`CondVar`, `SharedWork`, `RoundRobin`): the condition variable
  for fibers, the policy with one ready queue for all threads, and the policy with one queue
  per thread whose dispatcher sleeps on a flag.  Threads run contexts; what a context is
  running, what a thread has in hand and what is queued are separate parts of the state, so
  a context can be in two places, and a run ends in a fault where the code would use a null
  pointer, resume a context that runs already or has ended, or lock a mutex that is held for
  ever.
- **Futures** (`Future`, `RefCount`, `Async`): the one-shot cell under concurrent runners and
  getters, the intrusive counts under arbitrary sequences of pointer operations, and `Async`
  from the call over the threads of `SharedWork` and the cell of `Future` to what every `Get`
  delivers.
- **Two smaller pieces** (`Placement`, `Rotation`): where a new stack's control blocks go,
  and the example program that rotates three fibers.

Where the original updates objects in place the model has classes whose methods do the
same, each tied to a function of the old state; the state machines beside them use the same
functions.  A blocking method is cut where another thread can act.  The instruction
sequences are methods that update a register record and a memory step by step.

## What the proofs found

- The one-bit `cycle_` of the barrier is sound exactly if no more than `initial_` threads use
  it, or `initial_` is 1 (`Barrier.OneBitIsEnoughIff`).  The class states no such limit.
- `Scheduler::Terminate` keeps `mtx_` locked over a switch that never comes back.  So after the
  first fiber of a thread has ended, the thread locks up when it ends a second one or starts or
  attaches a worker: with the default policy two fibers are enough
  (`RoundRobin.SecondEndLocks`), with the shared queue a second fiber that is queued when the
  first one ends (`SharedWork.EndingLocksItself`).
- `Scheduler::YieldOrigin` queues the running context and lets it run on.  Each context is in
  one place, with no fault, in exactly those runs in which no context that has an origin calls
  it, no deadline of `WaitUntil` expires, and no thread that has ended a worker attaches,
  starts (other than `Async`) or ends one again (`SharedWork.EachContextInOnePlaceIff`).  After
  `YieldOrigin` the context is resumed while it runs (`YieldOriginFails`) or uses its null
  scheduler (`YieldOriginThenStuck`).
- `Scheduler::WaitUntil` puts the running context both into the sleep queue and into the ready
  queue, so it does not wait, and is scheduled again at its deadline.  A thread keeps each of
  its contexts in one place exactly if none of its deadlines expires, and runs without a fault
  exactly if besides it starts and ends no context after one has ended
  (`RoundRobin.OnePlaceIff`).  A program keeps its contexts in one place in all its runs exactly
  if it never calls `WaitUntil` (`SleepingMisplaces`, with the run `MainIsQueuedTwice`).
- `Scheduler::AttachWorkerContext` asserts that the context has no scheduler, but
  `Context::Detach` does nothing for a fiber launched `Async`.  The assertion holds at a pick
  exactly if the fiber was not launched `Async` or had no scheduler when it was awakened
  (`SharedWork.AttachAssertionIff`); an `Async` fiber that blocks and is awakened fails it
  (`SharedWork.RewokenAsyncFails`).
- No notification of `RoundRobinPolicy` is lost, but `Scheduler::Schedule` never sends one: a
  fiber awakened from another thread while the dispatcher is parked and nobody sleeps is
  overlooked
  (`RoundRobin.OverlooksIff`, `MainIsOverlooked`, `OverlookedStays`).
- A worker context starts with a count of one for which no handle stands.  It is released
  exactly if that reference is adopted and no handle is left (`RefCount.ContextReleasedIff`);
  nobody in the repository adopts it, so it is never released (`ContextOutlivesHandles`, with
  the run `LastHandleGone`).

## Model

| member | source | states |
|---|---|---|
| Memory.StoreEffect | src/asm/make_x86_64_sysv_elf_gas.S:65-88 | a store is read back, and every load that does not meet it is unaffected |
| Memory.LittleEndian | src/asm/jump_x86_64_sysv_elf_gas.S:51-65 | a load is the sum of its bytes, the lowest address counting least |
| Frame.StoredFrame | src/asm/jump_x86_64_sysv_elf_gas.S:48-65 | for any layout with ordered slots, storing the registers in turn builds a frame that holds every one of them and the return address above it, and changes nothing else |
| Frame.OntopThenReturnIsJump | src/asm/ontop_x86_64_sysv_elf_gas.S:47-134 | entering a function on top of a suspended context and returning t from it leaves the context where a jump that delivers t leaves it |
| Kernel.LinearStep | src/asm/jump_x86_64_sysv_elf_gas.S:75-79 | computing, making, ending, jumping and ontop switching all keep: one context runs, the others have one live frame each, aligned and inside their own disjoint stacks |
| Kernel.HandlesAreLinear | src/asm/jump_x86_64_sysv_elf_gas.S:75-79 | the same in every state of every run of any number of contexts |
| Kernel.LinearMeans | src/asm/jump_x86_64_sysv_elf_gas.S:75-79 | what linearity says of any two contexts: who has a handle, disjoint stacks, an aligned frame inside the own stack |
| Kernel.SwitchExchangesHandles | src/asm/jump_x86_64_sysv_elf_gas.S:75-79 | a switch takes exactly the target's handle out of the set of live handles and puts in exactly the new frame of the context it leaves |
| Kernel.FramesSurvive | src/asm/jump_x86_64_sysv_elf_gas.S:48-138 | a step changes no byte of the frame of a context that it neither resumes nor ends |
| Kernel.TargetFrameIsClear | src/asm/jump_x86_64_sysv_elf_gas.S:78-99 | the frame that is resumed never meets the one that is being built, and is aligned |
| Kernel.JumpedEnters | src/asm/make_x86_64_sysv_elf_gas.S:78-88 | a jump to a made frame is a legitimate first entry of the made context |
| Kernel.FrameWaits | src/asm/jump_x86_64_sysv_elf_gas.S:48-65 | while a context is away its frame holds its registers and return address, through any steps of the others |
| Kernel.FiberIsolation | src/asm/jump_x86_64_sysv_elf_gas.S:48-138 | for any layout: whatever ran in between, a resumed context gets back its own registers, stack pointer and return address, and the frame and data of the context that resumed it |
| Kernel.MadeFrameWaits | src/asm/make_x86_64_sysv_elf_gas.S:53-119 | a made frame keeps its bytes until its first entry |
| Kernel.RegistersFollowContexts | src/asm/jump_x86_64_ms_pe_masm.asm:111-174 | registers that a context's own code does not change have, whenever it runs, the values they had when it last ran, whatever the other contexts did to theirs |
| SysV64.SavePreserved | src/asm/jump_x86_64_sysv_elf_gas.S:48-65 | builds the frame of the caller 0x40 below its stack pointer and writes nothing else |
| SysV64.RestorePreserved | src/asm/jump_x86_64_sysv_elf_gas.S:101-116 | afterwards the registers are those that the frame holds, and no others have changed |
| SysV64.FieldsOf | src/asm/jump_x86_64_sysv_elf_gas.S:51-65 | which register a frame holds at which offset |
| SysV64.JumpFcontext | src/asm/jump_x86_64_sysv_elf_gas.S:46-138 | meets the contract of a jump; RAX and RDI are the frame that was left, RDX and RSI the data, RSP is 0x48 above the target frame and RIP the word at 0x40 in it |
| SysV64.OntopFcontext | src/asm/ontop_x86_64_sysv_elf_gas.S:45-134 | meets the contract of an ontop switch; the function finds the frame that was left in RAX and RDI, the data in RDX and RSI, and the target's return address at RSP |
| SysV64.MakeFcontext | src/asm/make_x86_64_sysv_elf_gas.S:46-119 | returns the highest aligned frame below sp, which leads to the trampoline with the function and finish, touches no other byte, and keeps the caller's registers |
| SysV64.MakeIsAStep | src/asm/make_x86_64_sysv_elf_gas.S:53-119 | that is a making step of the run model for every stack that holds the frame |
| SysV64.Trampoline | src/asm/make_x86_64_sysv_elf_gas.S:121-135 | goes to the address in RBX with the address in RBP as return address |
| SysV64.SwitchIsAlwaysPossible | src/asm/jump_x86_64_sysv_elf_gas.S:78-99 | in every reachable state a caller that keeps the calling convention meets what the jump relies on |
| SysV64.SysVIsolation | src/asm/jump_x86_64_sysv_elf_gas.S:48-138 | over whole runs R12-R15, RBX, RBP, MXCSR and the x87 control word are as at the context's own last jump, RSP is eight above its value there, and PC is its own return address |
| SysV64.RegistersComeBack | src/asm/jump_x86_64_sysv_elf_gas.S:48-138 | the same register by register, with the resumer's frame in RAX and its data in RDX |
| SysV64.EntersFunction | src/asm/make_x86_64_sysv_elf_gas.S:56-88 | a jump to a made frame and the trampoline enter the function with RSP + 8 a multiple of 16, finish on the stack, the jumper's frame in RDI and its data in RSI |
| SysV64.FirstEntry | src/asm/make_x86_64_sysv_elf_gas.S:46-135 | the same however long the made context waited, and inside its stack |
| MsX64.SavePreserved | src/asm/jump_x86_64_ms_pe_masm.asm:90-135 | every movaps is aligned; the frame holds XMM6-XMM15, the control words, the integer registers, the hidden pointer, and at 0xb0, 0xb8, 0xc0 and 0xc8 the fiber, deallocation, limit and base fields of the TIB |
| MsX64.RestorePreserved | src/asm/jump_x86_64_ms_pe_masm.asm:143-185 | every movaps is aligned; registers and TIB fields become those that the frame holds, the TIB fields from 0xb0, 0xb8, 0xc0 and 0xc8 |
| MsX64.FieldsOf | src/asm/jump_x86_64_ms_pe_masm.asm:95-135 | which register and which TIB field a frame holds at which offset |
| MsX64.JumpFcontext | src/asm/jump_x86_64_ms_pe_masm.asm:87-203 | meets the contract of a jump; frame and data are stored through the target's hidden pointer, which RAX and RCX hold; RSP and RIP come from the target frame |
| MsX64.OntopFcontext | src/asm/ontop_x86_64_ms_pe_masm.asm:87-205 | meets the contract of an ontop switch; the target's transfer record is both hidden result and argument of the function |
| MsX64.MakeFcontext | src/asm/make_x86_64_ms_pe_masm.asm:90-147 | returns an aligned frame that holds base, limit and deallocation address of the stack, the record inside the frame area, the function, trampoline and finish; touches no other byte |
| MsX64.MakeIsAStep | src/asm/make_x86_64_ms_pe_masm.asm:94-147 | that is a making step of the run model for every stack that holds the frame |
| MsX64.Trampoline | src/asm/make_x86_64_ms_pe_masm.asm:149-154 | goes to the address in RBX with the address in RBP as return address |
| MsX64.SwitchIsAlwaysPossible | src/asm/jump_x86_64_ms_pe_masm.asm:93-154 | on every run every movaps of a switch is aligned, and neither frames nor transfer record meet |
| MsX64.MsIsolation | src/asm/jump_x86_64_ms_pe_masm.asm:87-203 | over whole runs the 25 saved values come back, RSP is eight above its value at the call, PC is the own return address |
| MsX64.RegistersComeBack | src/asm/jump_x86_64_ms_pe_masm.asm:87-203 | the same register by register and for the TIB, with the resumer's frame and data where the own hidden pointer points |
| MsX64.TibIsTheRunningContexts | src/asm/jump_x86_64_ms_pe_masm.asm:111-174 | from its first entry on, whenever a context runs, the TIB's base is the top of its own stack, limit and deallocation address its bottom, and the fiber storage zero, also if other contexts change theirs |
| MsX64.MadeFrameAtEntry | src/asm/make_x86_64_ms_pe_masm.asm:101-145 | a made frame is intact at its first entry |
| MsX64.EntersFunction | src/asm/make_x86_64_ms_pe_masm.asm:94-154 | first entry with RSP + 8 a multiple of 16, finish on top, 32 bytes of home space above it, and RCX addressing the transfer above those, inside the stack |
| MsX64.FirstEntry | src/asm/make_x86_64_ms_pe_masm.asm:90-154 | the same however long the made context waited, and inside its stack |
| I386.SavePreserved | src/asm/jump_i386_sysv_elf_gas.S:33-48 | builds the caller's frame; return address and hidden pointer are the words the caller pushed |
| I386.Deliver | src/asm/jump_i386_sysv_elf_gas.S:50-67 | the transfer is written through the hidden pointer found in the target's frame, and nothing else is written |
| I386.FieldsOf | src/asm/jump_i386_sysv_elf_gas.S:33-48 | which register a frame holds at which offset |
| I386.JumpFcontext | src/asm/jump_i386_sysv_elf_gas.S:32-89 | one path: a resumed context gets the transfer in its caller's buffer as the contract of a jump asks, a made one in EDI and ESI |
| I386.MakeFcontext | src/asm/make_i386_sysv_elf_gas.S:32-87 | returns an aligned frame whose hidden pointer addresses its own EDI and ESI slots; writes only it and the word that call pushes |
| I386.MakeIsAStep | src/asm/make_i386_sysv_elf_gas.S:33-87 | that is a making step of the run model, the word that call pushes lying in the caller's stack |
| I386.Trampoline | src/asm/make_i386_sysv_elf_gas.S:89-95 | goes to the function with finish as return address and EDI, ESI as argument words |
| I386.SwitchIsAlwaysPossible | src/asm/jump_i386_sysv_elf_gas.S:59-67 | in every reachable state a conforming caller meets what the jump relies on; the hidden pointer aims into the frame exactly for contexts that were never entered |
| I386.FirstEntryIsAStep | src/asm/jump_i386_sysv_elf_gas.S:62-89 | the aliased first entry is a step of the run model |
| I386.FirstEntry | src/asm/make_i386_sysv_elf_gas.S:34-95 | the function is entered with frame and data as its two stack words, finish as return address and ESP + 4 a multiple of 16, inside the stack, however long the context waited |
| I386.I386Isolation | src/asm/jump_i386_sysv_elf_gas.S:32-89 | over whole runs EDI, ESI, EBX, EBP, MXCSR, the x87 control word, stack pointer and return address come back |
| I386.RegistersComeBack | src/asm/jump_i386_sysv_elf_gas.S:32-89 | the same register by register, with the resumer's frame and data where the own hidden pointer points |
| S390x.SaveContext | src/asm/jump_s390x_sysv_elf_gas.S:82-105 | builds the frame of R2, R6-R14, F8-F15, FPC and PC below R15 and writes nothing else |
| S390x.LoadContext | src/asm/jump_s390x_sysv_elf_gas.S:113-130 | loads everything from the target's frame |
| S390x.FieldsOf | src/asm/jump_s390x_sysv_elf_gas.S:85-105 | which register a frame holds at which offset |
| S390x.Deliver | src/asm/jump_s390x_sysv_elf_gas.S:132-156 | a zero marker selects the record at 160 above the frame and leaves R15 at the frame; otherwise the record is the hidden pointer and the frame is freed |
| S390x.JumpFcontext | src/asm/jump_s390x_sysv_elf_gas.S:80-156 | a resumed context meets the contract of a jump; on first entry FPC and PC were loaded before the transfer is laid over their slots and the register save area below stays intact |
| S390x.MakeFcontext | src/asm/make_s390x_sysv_elf_gas.S:72-98 | returns a frame with zero marker, FPC, function and finish, and touches no other byte |
| S390x.MakeIsAStep | src/asm/make_s390x_sysv_elf_gas.S:72-98 | that is a making step of the run model for every stack that holds the frame |
| S390x.SwitchIsAlwaysPossible | src/asm/jump_s390x_sysv_elf_gas.S:132-142 | in every reachable state a conforming caller meets what the jump relies on; the marker is zero exactly for contexts that were never entered |
| S390x.FirstEntryIsAStep | src/asm/jump_s390x_sysv_elf_gas.S:135-156 | the overlapping first entry is a step of the run model |
| S390x.FirstEntry | src/asm/make_s390x_sysv_elf_gas.S:72-98 | the function is entered with finish in R14 and R2 addressing the transfer just above a whole register save area, inside the stack |
| S390x.S390xIsolation | src/asm/jump_s390x_sysv_elf_gas.S:80-156 | over whole runs R2, R6-R14, F8-F15 and FPC come back, and R15 is as before the call |
| S390x.RegistersComeBack | src/asm/jump_s390x_sysv_elf_gas.S:80-156 | the same register by register, with the resumer's frame and data where R2 points |
| Barrier.ThreadBarrier.constructor | example/shared_work.cpp:19-23 | all arrivals are expected and the cycle flag is up |
| Barrier.ThreadBarrier.Arrive | example/shared_work.cpp:28-37 | the last caller flips the cycle and resets the count, any other only counts down; who was last and which cycle it saw |
| Barrier.CountedStep | example/shared_work.cpp:28-40 | every step keeps the counting of arrivals and returns per generation |
| Barrier.BarrierCounts | example/shared_work.cpp:28-40 | for any number of threads: current is what is missing of the generation, no wait returns before its generation is complete, exactly one per complete generation returns true |
| Barrier.GenerationsAreWhole | example/shared_work.cpp:19-40 | the same for any generation of a barrier from its construction: all arrivals, one true result, no early return |
| Barrier.CurrentTakers | example/shared_work.cpp:28-40 | as many threads wait for the current generation as have arrived in it |
| Barrier.NobodyBehind | example/shared_work.cpp:31-33 | when a generation completes, no thread still waits for an earlier one |
| Barrier.TimelyStep | example/shared_work.cpp:28-40 | with enough room, generations differ by at most one, and one that sleeps behind has its notification still to come |
| Barrier.TimelyTells | example/shared_work.cpp:38 | then the predicate of each waiter is true exactly when its generation is over |
| Barrier.SomebodyMoves | example/shared_work.cpp:28-40 | with exactly initial threads the barrier never deadlocks |
| Barrier.BarrierOpens | example/shared_work.cpp:28-40 | a run in which exactly initial threads arrive and all leave, one of them with true |
| Barrier.SpuriousWakeup | example/shared_work.cpp:38 | a spurious wakeup in an open generation changes nothing |
| Barrier.SleepThroughTwo | example/shared_work.cpp:38 | with more threads than expected one can sleep through two generations and finds its predicate false |
| Barrier.OneBitIsEnoughIff | example/shared_work.cpp:28-40 | the flag tells every waiter the truth in every run if and only if there are at most initial threads or initial is 1 |
| CondVar.WaitQueue.Enqueue | src/WaitQueue.cpp:12-16 | the context goes to the end of the queue |
| CondVar.WaitQueue.NotifyOne | src/WaitQueue.cpp:18-28 | takes the longest waiting contexts off up to and including the first that wakes |
| CondVar.WaitQueue.NotifyAll | src/WaitQueue.cpp:30-38 | wakes all in the order in which they began to wait |
| CondVar.WaitQueue.IsEmpty | src/WaitQueue.cpp:40-43 | tells whether nobody waits |
| CondVar.QueueStep | src/WaitQueue.cpp:12-38 | every step keeps: the queue holds exactly the contexts that wait, once each |
| CondVar.OrderedStep | include/lutask/ConditionVariableAny.h:29-60 | every step keeps exclusive ownership of both locks, the queue, and that what a context found false stays false until it gives up the user lock |
| CondVar.NothingLostStep | include/lutask/ConditionVariableAny.h:36-42 | every step keeps: whoever gave up the user lock and whose own predicate holds has a notification coming |
| CondVar.NoLostWakeup | include/lutask/ConditionVariableAny.h:29-60 | in every reachable state of any number of contexts, each with a predicate of its own, one that is parked while its predicate holds has a notification still due; NotifyAll may be called with or without the user lock |
| CondVar.NotifyWakesTheParked | src/WaitQueue.cpp:30-38 | each wakeup makes exactly the longest waiting context ready, only completely suspended ones are woken, and nobody is parked when NotifyAll ends |
| CondVar.WaitParks | include/lutask/ConditionVariableAny.h:36-42 | Wait by the owner of the user lock parks it at the end of the queue, with both locks free |
| CondVar.NotifierFinishes | src/WaitQueue.cpp:30-38 | NotifyAll can always go through, and then all that waited are ready and the queue is empty |
| CondVar.WaitReturns | include/lutask/ConditionVariableAny.h:53-60 | a run in which a context waits, is notified after a change, and leaves its loop with the user lock |
| SharedWork.PinnedMeansNotWorker | include/lutask/Context.h:21-33 | the bit test for PinnedContext holds exactly of main and dispatcher contexts |
| SharedWork.Context.Detach | src/schedule/SharedWorkPolicy.cpp:19 | the call, with its body (src/Context.cpp, lines 250-258): clears the scheduler unless the context was launched Async; reports whether the scheduler it goes through is there |
| SharedWork.Context.AttachTo | src/schedule/SharedWorkPolicy.cpp:38 | the call, with its body (src/Scheduler.cpp, lines 199-209): blocks, changing nothing, if mtx_ is held by the caller's thread; else sets the scheduler and reports whether the assertion held |
| SharedWork.SharedWorkPolicy.Awakened | src/schedule/SharedWorkPolicy.cpp:11-24 | a pinned context goes to the end of the local queue, a worker is detached and goes to the end of the shared one, unless it has no scheduler to be detached from |
| SharedWork.SharedWorkPolicy.PickNext | src/schedule/SharedWorkPolicy.cpp:26-50 | takes the first of the shared queue and attaches it, or blocks on the held mutex, else takes the first of the local one; no other context changes |
| SharedWork.SharedWorkPolicy.HasReadyFibers | src/schedule/SharedWorkPolicy.cpp:52-56 | true exactly if a pick would find a context |
| SharedWork.SharedWorkPolicy.AwakenedAsync | src/schedule/SharedWorkPolicy.cpp:88-93 | the context is detached and goes to the end of the shared queue |
| SharedWork.TidyStep | src/schedule/SharedWorkPolicy.cpp:11-50 | every step of any thread but a misplacing one keeps: each live context in one place and each other in none, pinned contexts with their own scheduler, every thread its dispatcher |
| SharedWork.PlacesStep | src/schedule/SharedWorkPolicy.cpp:11-50 | what each step does to the number of places of each context: only starting, awakening, expiry and YieldOrigin add one, only suspending and ending take one |
| SharedWork.PlacedStep | src/schedule/SharedWorkPolicy.cpp:11-50 | a context stays in its one place through every step that does not misplace that very context, whatever happens to others |
| SharedWork.FaultStep | src/schedule/SharedWorkPolicy.cpp:26-50 | as long as nothing is misplaced, the one thing that goes wrong is that a thread locks mtx_ (src/Scheduler.cpp, lines 118 and 201) after it has ended a worker, and it does so exactly then; what PickNext gives is never null where it is used unchecked, suspended and alive |
| SharedWork.HeldStays | src/schedule/SharedWorkPolicy.cpp:26-38 | once a worker has ended, the mutex of its thread's scheduler is never unlocked (src/Scheduler.cpp, lines 116-128) |
| SharedWork.EachContextInOnePlaceIff | src/schedule/SharedWorkPolicy.cpp:11-50 | in every state of a run each live context is in one place and each other in none, without a fault, if and only if no context with an origin calls YieldOrigin (src/Scheduler.cpp, lines 141-160), no deadline of WaitUntil expires, and no thread locks its scheduler's mutex again after it has ended a worker |
| SharedWork.OnePlaceMeans | src/schedule/SharedWorkPolicy.cpp:11-50 | what one place says: never queued twice, never queued and running, never on two threads |
| SharedWork.DeadlineMisplaces | src/schedule/SharedWorkPolicy.cpp:13-16 | a run in which the main context sleeps and is queued twice when its deadline expires |
| SharedWork.EndingLocksItself | src/schedule/SharedWorkPolicy.cpp:26-38 | a run of one thread and two Post fibers: the first ends and picks the second, and the thread locks the mutex that it holds |
| SharedWork.YieldOriginFails | src/schedule/SharedWorkPolicy.cpp:11-38 | with this policy on all threads, a run in which a fiber that called YieldOrigin is resumed by another thread while it runs |
| SharedWork.YieldOriginThenStuck | src/schedule/SharedWorkPolicy.cpp:11-38 | a fiber that suspends, yields or ends after YieldOrigin (as example/shared_work.cpp does from line 67 on), before it is picked, dereferences a null scheduler |
| SharedWork.SharedQueueIsFifo | src/schedule/SharedWorkPolicy.cpp:21-33 | in every run workers leave the shared queue in exact push order across all threads |
| SharedWork.LocalQueueIsFifo | src/schedule/SharedWorkPolicy.cpp:13-16 | in every run pinned contexts are taken from a local queue in the order in which they were scheduled with its policy, the dispatcher first |
| SharedWork.PinnedStayHome | src/schedule/SharedWorkPolicy.cpp:13-16 | as long as nothing is misplaced, a pinned context is resumed only by its own thread, from its own scheduler's policy |
| SharedWork.TransitKeepsScheduler | src/schedule/SharedWorkPolicy.cpp:19-38 | in every run the scheduler of a context does not change between Awakened and Attach |
| SharedWork.AttachAssertionIff | src/schedule/SharedWorkPolicy.cpp:19-38 | the assertion `nullptr == GetScheduler()` (src/Scheduler.cpp, line 204) at the next pick of an awakened worker holds if and only if it was not launched Async or had no scheduler |
| SharedWork.RewokenAsyncFails | src/schedule/SharedWorkPolicy.cpp:19-38 | a run in which an Async fiber is awakened again fails that assertion |
| RoundRobin.RoundRobinPolicy.Awakened | src/schedule/RoundRobinPolicy.cpp:7-12 | the context goes to the end of the queue |
| RoundRobin.RoundRobinPolicy.PickNext | src/schedule/RoundRobinPolicy.cpp:14-27 | takes the first context, or none from an empty queue |
| RoundRobin.RoundRobinPolicy.HasReadyFibers | src/schedule/RoundRobinPolicy.cpp:29-32 | true exactly if a pick would find a context |
| RoundRobin.RoundRobinPolicy.EndWait | src/schedule/RoundRobinPolicy.cpp:34-48 | the wait ends exactly with a raised flag or at the deadline; ending lowers the flag, waiting on leaves it |
| RoundRobin.RoundRobinPolicy.Raise | src/schedule/RoundRobinPolicy.cpp:50-53 | the flag is up |
| RoundRobin.ParksUnlessNotified | src/schedule/RoundRobinPolicy.cpp:34-56 | every wait that ends leaves the flag down, and at its next wait the dispatcher parks if and only if Notify was not called in between |
| RoundRobin.NotifiedRuns | src/schedule/RoundRobinPolicy.cpp:50-56 | a parked dispatcher that is notified resumes what was awakened |
| RoundRobin.SpuriousWakeup | src/schedule/RoundRobinPolicy.cpp:39 | a wakeup without a notification changes nothing |
| RoundRobin.PickNextFindsOne | src/schedule/RoundRobinPolicy.cpp:14-27 | Terminate, Yield, WaitUntil and Suspend (src/Scheduler.cpp, lines 127, 138, 171, 178 and 183), which use the result of PickNext unchecked, never get null, also when deadlines expire |
| RoundRobin.PlacesStep | src/schedule/RoundRobinPolicy.cpp:7-27 | what each step does to the number of places of each context |
| RoundRobin.PlacedStep | src/schedule/RoundRobinPolicy.cpp:7-27 | every step but the expiry of its own deadline keeps a context in its one place |
| RoundRobin.PlacedMeans | src/schedule/RoundRobinPolicy.cpp:7-27 | what one place says: a context lives if and only if it runs, is queued or waits, one of these and once |
| RoundRobin.OnePlaceIff | src/schedule/RoundRobinPolicy.cpp:7-27 | each living context is queued, waiting or running, once, in every state of a run if and only if no deadline of WaitUntil (src/Scheduler.cpp, lines 46-66 and 162-174) expires in it; without a fault if and only if besides no context is started or ended after one has ended |
| RoundRobin.FaultStep | src/schedule/RoundRobinPolicy.cpp:14-27 | as long as every context is in its place, the only fault is to lock mtx_ after a context has ended, and it happens exactly then |
| RoundRobin.SecondEndLocks | src/schedule/RoundRobinPolicy.cpp:14-27 | a run in which two fibers end one after the other, and the second one's Terminate (src/Scheduler.cpp, lines 116-128) locks the mutex that the first one's holds |
| RoundRobin.MainIsQueuedTwice | src/schedule/RoundRobinPolicy.cpp:7-12 | the main context sleeps until a past deadline, is queued twice, runs while queued, and is told to resume itself |
| RoundRobin.SleepingMisplaces | src/schedule/RoundRobinPolicy.cpp:7-27 | a program keeps each context in one place in all its runs if and only if it does not call WaitUntil |
| RoundRobin.MovesUp | src/schedule/RoundRobinPolicy.cpp:14-27 | a queued context moves up by one at each pick and otherwise stays |
| RoundRobin.TurnComes | src/schedule/RoundRobinPolicy.cpp:7-27 | what has k others ahead of it in the queue is what the (k+1)-th pick resumes, whoever is scheduled meanwhile |
| RoundRobin.OverlooksIff | src/schedule/RoundRobinPolicy.cpp:34-56 | a parked dispatcher can look at the queue again without a further Notify if and only if Notify was called since it found the queue empty or somebody sleeps; so it overlooks a ready context if and only if one was scheduled since then, nobody called Notify and nobody sleeps |
| RoundRobin.OverlookedStays | src/schedule/RoundRobinPolicy.cpp:34-48 | without Notify and with an empty sleep queue an overlooked context never runs |
| RoundRobin.MainIsOverlooked | src/schedule/RoundRobinPolicy.cpp:7-12 | Awakened does not raise the flag and Schedule (src/Scheduler.cpp, lines 68-73) calls no Notify: a run in which the main context is overlooked |
| Future.SharedState.SetValue | include/lutask/future/SharedState.h:112-121 | the first store decides the outcome; a later one is refused and changes nothing |
| Future.SharedState.SetException | include/lutask/future/SharedState.h:30-45 | the same for exceptions |
| Future.SharedState.Take | include/lutask/future/SharedState.h:123-132 | Get rethrows the exception if there is one, else returns the stored value |
| Future.SharedState.Run | include/lutask/future/TaskObject.h:26-36 | the first Run makes the function's value or exception the outcome; a later one throws out of the catch block and changes nothing |
| Future.WriteOnceStep | include/lutask/future/SharedState.h:22-57 | every step of any number of runners and getters keeps: at most one store succeeded, everybody was told its result, nobody sleeps on a ready cell without a notification due |
| Future.FirstWriterWins | include/lutask/future/SharedState.h:22-132 | over every interleaving the same, and readiness and outcome never change again |
| Future.GetReportsTheWinner | include/lutask/future/SharedState.h:112-132 | from a new cell: at most one store succeeds, and every Get and Run that returned did so with its result |
| Future.GetStep | include/lutask/future/SharedState.h:123-132 | a Get that has the mutex takes the outcome of a ready cell and else sleeps; nothing else changes |
| Future.RunThenGet | include/lutask/future/TaskObject.h:26-36 | a runner on a new cell stores and notifies, and getters before and after get its result |
| Future.LateRunThrows | include/lutask/future/TaskObject.h:26-36 | a runner on a ready cell changes nothing and ends by throwing, after a value by way of the catch block |
| RefCount.Counted.Release | include/lutask/future/SharedState.h:69-76 | counts down and reports the last reference |
| RefCount.IntrusivePtr.FromRaw | include/lutask/smart_ptr/intrusive_ptr.h:23-26 | counts one more exactly if asked to |
| RefCount.IntrusivePtr.Copy | include/lutask/smart_ptr/intrusive_ptr.h:36-39 | both point to the object, which counts one more |
| RefCount.IntrusivePtr.Move | include/lutask/smart_ptr/intrusive_ptr.h:47-50 | takes the reference over without counting |
| RefCount.IntrusivePtr.Destroy | include/lutask/smart_ptr/intrusive_ptr.h:41-44 | counts one less and reports the last reference |
| RefCount.IntrusivePtr.Swap | include/lutask/smart_ptr/intrusive_ptr.h:125-130 | exchanges the targets without counting |
| RefCount.IntrusivePtr.CopyAssign | include/lutask/smart_ptr/intrusive_ptr.h:74-78 | the old target loses exactly one reference and the new one gains one; with equal targets, self-assignment included, the count stays and nothing is released |
| RefCount.IntrusivePtr.MoveAssign | include/lutask/smart_ptr/intrusive_ptr.h:52-56 | the old target loses one reference, the new one none; moving to itself changes nothing |
| RefCount.IntrusivePtr.Reset | include/lutask/smart_ptr/intrusive_ptr.h:86-89 | the target loses one reference |
| RefCount.IntrusivePtr.ResetRaw | include/lutask/smart_ptr/intrusive_ptr.h:91-99 | the old target loses exactly one reference, the new one gains one if asked to; with equal targets the count stays or loses one |
| RefCount.IntrusivePtr.Detach | include/lutask/smart_ptr/intrusive_ptr.h:106-111 | gives the reference up without counting |
| RefCount.BalancedStep | include/lutask/smart_ptr/intrusive_ptr.h:19-130 | every step keeps: each count equals the handles plus the references that no handle stands for, and an object that has had a reference was released once if its count is zero and not otherwise |
| RefCount.HandleCounted | include/lutask/smart_ptr/intrusive_ptr.h:113-123 | what a handle points to has a positive count and was never released |
| RefCount.CountsAreExact | include/lutask/smart_ptr/intrusive_ptr.h:19-130 | the same over every sequence of operations |
| RefCount.CountIsHandles | include/lutask/smart_ptr/intrusive_ptr.h:19-130 | from nothing: the count is the number of handles and raw references; an object that has had a reference was released, once, if and only if none of either is left |
| RefCount.CopyAssignment | include/lutask/smart_ptr/intrusive_ptr.h:74-78 | copy, swap and destroy leave the handle where the other one points, and all others where they were |
| RefCount.MoveAssignment | include/lutask/smart_ptr/intrusive_ptr.h:52-56 | move, swap and destroy leave the source null, and change nothing on self-assignment |
| RefCount.ResetHandle | include/lutask/smart_ptr/intrusive_ptr.h:86-89 | the handle is null afterwards |
| RefCount.DetachAndAdopt | include/lutask/smart_ptr/intrusive_ptr.h:106-111 | a detached reference taken over without counting leaves all counts as before |
| RefCount.ContextOutlivesHandles | include/lutask/Context.h:145-174 | a context's initial reference, unless somebody adopts it, keeps its count positive whatever happens to the handles |
| RefCount.ContextReleasedIff | include/lutask/Context.h:107-174 | a context is released if and only if its initial reference and every detached one were adopted and no handle is left |
| RefCount.LastHandleGone | include/lutask/Context.h:148-171 | the run of MakeWorkerContext whose only handle goes leaves the context unreleased; with an adopted reference it would be released |
| Async.AsyncDelivers | include/lutask/future/Async.h:13-21 | for every schedule of any number of threads and getters the function is executed at most once, only after its fiber was taken from the shared queue; every Get that returns reports that execution's value or exception, and none sleeps on a ready cell without a notification due |
| Async.RunningFiberHasEntered | include/lutask/Context.h:134-142 | in every run a fiber of a task that runs has entered its function, once; one that was never resumed has not |
| Async.GetReturns | include/lutask/future/Async.h:13-21 | a run from the call of Async over the pick of the fiber and the end of the function, with any result, to a Get that returns it; the fiber may then end |
| Async.FinishDelivers | include/lutask/future/TaskObject.h:26-36 | whenever the function of a running fiber ends, a getter can get its result |
| Async.QueuedOncePerCall | src/Fiber.cpp:21-25 | the fiber is queued once for its start and exactly once for each time it is scheduled again, and picked no more often |
| Async.EndedFiberHasDelivered | include/lutask/Context.h:134-142 | when the fiber ends its context, its function was executed once, the result is in the cell and nobody sleeps for it |
| Async.FiberStep | include/lutask/future/TaskObject.h:26-36 | storing and notifying by the fiber keep: only what the one execution ended with is stored, and the fiber is never refused |
| Async.GetterStep | include/lutask/future/SharedState.h:53-57 | a getter's steps, with spurious wakeups, keep the same |
| Async.ResultStays | include/lutask/future/Future.h:94-104 | what the execution ended with and what the cell holds stays, over any later steps |
| Placement.ObjectsArePlaced | include/lutask/Context.h:162-173 | the context, and the record and the 64 bytes below it (include/lutask/context/FiberContext.h, lines 164-181), are aligned, apart from each other and with at most 255 bytes lost above each |
| Placement.FirstFrameFits | include/lutask/Context.h:162-173 | on a stack of the stated size the first frame lies inside it and below the record |
| Placement.RoomIsNeeded | include/lutask/Context.h:162-168 | one byte less is not enough |
| Rotation.Program.constructor | example/fcontext_test.cpp:7-31 | after main has resumed f1, f1 prints, and the other handles own their fibers |
| Rotation.Program.Resume | example/fcontext_test.cpp:8-30 | the next fiber in turn prints, no suspended fiber is destroyed, and the running fiber's handle is the empty one |
| Rotation.Run | example/fcontext_test.cpp:6-31 | for every n the n-th line is f1, f2, f3 in turn |

## Left out

- The other processors (arm, arm64, riscv64, loongarch64, mips, ppc, Mach-O and the duplicates in other assembler dialects): further frame layouts.
- Shadow stack, TSX and the TLS stack guard: the sources are modelled with these macros undefined, and without `_ILP32`.
- `ontop_fcontext` on i386 and s390x, and on a context that was never entered, which the s390x source rules out.
- Byte order: memory is little-endian in all modules, also for s390x; each location that matters there is read with the width it was written with.
- Running code that writes into another context's frame or leaves its own stack: excluded by the step relation of `Kernel`, as the calling convention excludes it. The caller's transfer record is taken to lie in its own stack above the new frame.
- Kernel.FiberIsolation: of a step by which running code calls a switch it sees the whole switch, not its single instructions; signals in between are not modelled.
- CondVar.NoLostWakeup: notifiers call `NotifyAll` after changing the predicate under the user lock; `NotifyOne` has its contract on the queue (`CondVar.WaitQueue.NotifyOne`) but is not part of the interleavings, since one notification does not promise to reach every waiter whose predicate holds.
- Barrier.SomebodyMoves: says that some thread can move, not that the operating system lets it.
- `localQueue_` of `SharedWorkPolicy` and `readyQueue_` of `RoundRobinPolicy` are pushed by other threads without a lock; the model takes each push and pop as one atomic step and does not show what a data race does.
- `SharedWorkPolicy::SuspendUntil` and `Notify`: `suspend_` is never set, so they do nothing.
- `assert(nullptr == ctx->GetScheduler())` is no fault of the state machine in `SharedWork`; when it fails is stated by itself (`SharedWork.AttachAssertionIff`). A mutex counts as held for ever by an ended context, since no worker context is ever released (`RefCount.ContextOutlivesHandles`).
- The shutdown of a scheduler. `ProcSleepToReady` also asserts that only the main context sleeps; the models let any context but the dispatcher do so.
- `Context::Join` of a fiber of another thread, which enters the wait list without a lock, and `SharedWorkPolicy` beside a scheduler with another policy: in `SharedWork` all schedulers share one queue.
- RoundRobin.OnePlaceIff: time is not modelled; the deadline of a sleeping context may expire whenever its dispatcher looks.
- Async.AsyncDelivers: the launch of the packaged task and the moves of its handles are one step; `Fiber::Detach` and the handles are covered by `RefCount`. A thread that waits in `Get` is an agent of the cell and not a thread of `SharedWork`; that the function ends is not claimed.
- `SetValue(R const&)`, which calls `MarkReadyAndNotify` without its lock argument, and `TaskObject<Fn, void>`, whose `fn_` is missing: neither compiles when instantiated. `Future<R>::operator=(Future&&)` is misspelt in the source and is not modelled.
- `Future::Get` empties the future, and a second call throws; `PackagedTask` and the copies and moves of `FutureBase` are pointer operations of `RefCount` and have no classes of their own.
- `SharedState` whose count drops to zero is not destroyed by the source; the model counts and does not free.
- Weak memory ordering, real time, `malloc`, stack allocation, exception texts, console output, CMake files and `example/async_await.cpp`.
