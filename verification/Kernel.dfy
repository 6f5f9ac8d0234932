/** Whole runs of any number of contexts over any switch that meets the contracts of
    `Frame`. */
module Kernel {
  import opened Wrappers
  import opened Memory
  import opened Frame

  // ---------- Many contexts ----------

  /** A context owns the stack region [lo, hi).  `handle` is its live frame while
      it is suspended; `unentered` says that it has been made but never entered. */
  datatype Context = Context(lo: int, hi: int, handle: Option<int>, unentered: bool)

  type Id = nat

  datatype Machine = Machine(cpu: Cpu, running: Id, ctxs: map<Id, Context>)

  datatype Op =
    | Compute
    | Make(id: Id, lo: int, hi: int, frame: int)
    | Destroy(id: Id)
    | Jump(target: Id, data: int)
    | Ontop(target: Id, data: int, fn: int)

  ghost predicate Suspended(s: Machine, c: Id) {
    c in s.ctxs && s.ctxs[c].handle.Some?
  }

  /** The running code does anything that leaves the frames of suspended contexts alone. */
  ghost predicate Computed(L: Layout, s: Machine, s': Machine) {
    && s'.running == s.running && s'.ctxs == s.ctxs
    && |s'.cpu.regs| == |L.slots|
    && forall c :: Suspended(s, c) ==>
         SameOn(s.cpu.mem, s'.cpu.mem, s.ctxs[c].handle.value, s.ctxs[c].handle.value + L.extent)
  }

  /** A new context and a stack that meets no other. */
  ghost predicate OwnStack(s: Machine, id: Id, lo: int, hi: int) {
    id !in s.ctxs && forall c :: c in s.ctxs ==> s.ctxs[c].hi <= lo || hi <= s.ctxs[c].lo
  }

  /** A context is made on a stack of its own.  The code that makes it may also use the
      running context's stack below the stack pointer. */
  ghost predicate Made(L: Layout, s: Machine, id: Id, lo: int, hi: int, frame: int, s': Machine)
    requires LayoutOk(L)
  {
    && OwnStack(s, id, lo, hi)
    && lo <= frame && frame + L.extent <= hi
    && frame % L.align == L.madePhase
    && s' == WithMade(s, id, lo, hi, frame, s'.cpu.mem)
    && s.running in s.ctxs
    && forall x :: !(lo <= x < hi) && !(s.ctxs[s.running].lo <= x < s.cpu.sp && x < s.ctxs[s.running].hi) ==>
         Peek(s'.cpu.mem, x) == Peek(s.cpu.mem, x)
  }

  function WithMade(s: Machine, id: Id, lo: int, hi: int, frame: int, m: Mem): Machine {
    s.(ctxs := s.ctxs[id := Context(lo, hi, Some(frame), true)], cpu := s.cpu.(mem := m))
  }

  /** A suspended context ends, and its stack is given back. */
  ghost predicate Destroyed(s: Machine, id: Id, s': Machine) {
    && Suspended(s, id) && id != s.running
    && s' == s.(ctxs := s.ctxs - {id}, cpu := s.cpu.(mem := s'.cpu.mem))
    && SameOutside(s.cpu.mem, s'.cpu.mem, s.ctxs[id].lo, s.ctxs[id].hi)
  }

  /** What a caller of a switch owes: a live handle of another context, room for a
      frame on its own stack, the stack alignment of the calling convention, and a
      transfer record of its own. */
  ghost predicate MayLeave(L: Layout, s: Machine, target: Id)
    requires LayoutOk(L)
  {
    && Suspended(s, target) && target != s.running
    && s.running in s.ctxs && |s.cpu.regs| == |L.slots|
    && var me := s.ctxs[s.running]; var f := NewFrame(L, s.cpu);
    && me.lo <= f && f + L.extent <= me.hi
    && f % L.align == L.phase
    && (L.hidden.Some? ==>
          f + L.extent <= s.cpu.regs[L.hidden.value] && s.cpu.regs[L.hidden.value] + L.record <= me.hi)
  }

  /** The handle of the running context comes into being, the target's is used up. */
  function Exchanged(L: Layout, s: Machine, target: Id): map<Id, Context>
    requires s.running in s.ctxs && target in s.ctxs
  {
    s.ctxs[s.running := s.ctxs[s.running].(handle := Some(NewFrame(L, s.cpu)), unentered := false)]
          [target := s.ctxs[target].(handle := None, unentered := false)]
  }

  /** The first entry to a context: the caller is suspended as usual; of the rest
      only the target's own stack may change. */
  ghost predicate Entered(L: Layout, s: Machine, target: Id, s': Machine)
    requires LayoutOk(L) && MayLeave(L, s, target)
  {
    && FrameHolds(L, s'.cpu.mem, NewFrame(L, s.cpu), s.cpu.regs, ReturnAddress(L, s.cpu))
    && |s'.cpu.regs| == |L.slots|
    && forall x :: !(NewFrame(L, s.cpu) <= x < s.cpu.sp) && !(s.ctxs[target].lo <= x < s.ctxs[target].hi) ==>
         Peek(s'.cpu.mem, x) == Peek(s.cpu.mem, x)
  }

  ghost predicate Next(L: Layout, s: Machine, op: Op, s': Machine)
    requires LayoutOk(L)
  {
    match op
    case Compute => Computed(L, s, s')
    case Make(id, lo, hi, frame) => Made(L, s, id, lo, hi, frame, s')
    case Destroy(id) => Destroyed(s, id, s')
    case Jump(t, data) =>
      && MayLeave(L, s, t)
      && s'.running == t && s'.ctxs == Exchanged(L, s, t)
      && (if s.ctxs[t].unentered then Entered(L, s, t, s')
          else Jumped(L, s.cpu, s.ctxs[t].handle.value, data, s'.cpu))
    case Ontop(t, data, fn) =>
      && MayLeave(L, s, t) && !s.ctxs[t].unentered
      && s'.running == t && s'.ctxs == Exchanged(L, s, t)
      && OntopEntered(L, s.cpu, s.ctxs[t].handle.value, data, fn, s'.cpu)
  }

  ghost predicate Initial(L: Layout, s: Machine) {
    && s.running in s.ctxs && s.ctxs.Keys == {s.running}
    && s.ctxs[s.running].handle.None? && !s.ctxs[s.running].unentered
    && |s.cpu.regs| == |L.slots|
  }

  ghost predicate IsRun(L: Layout, ss: seq<Machine>, ops: seq<Op>)
    requires LayoutOk(L)
  {
    && |ss| == |ops| + 1
    && Initial(L, ss[0])
    && forall i :: 0 <= i < |ops| ==> Next(L, ss[i], ops[i], ss[i + 1])
  }

  // ---------- What every step keeps ----------

  ghost predicate Apart(s: Machine, c: Id, d: Id)
    requires c in s.ctxs && d in s.ctxs
  {
    s.ctxs[c].hi <= s.ctxs[d].lo || s.ctxs[d].hi <= s.ctxs[c].lo
  }

  /** The live frame of a context lies in its own stack, is aligned, and addresses a
      transfer record in its own stack. */
  ghost predicate FrameInPlace(L: Layout, m: Mem, c: Context)
    requires LayoutOk(L) && c.handle.Some?
  {
    var h := c.handle.value;
    && c.lo <= h && h + L.extent <= c.hi
    && h % L.align == (if c.unentered then L.madePhase else L.phase)
    && (L.hidden.Some? && !c.unentered ==>
          h + L.extent <= RecordAddress(L, m, h) && RecordAddress(L, m, h) + L.record <= c.hi)
  }

  /** Exactly the running context has no handle; stacks are disjoint; every live
      frame is in its owner's stack. */
  ghost predicate Linear(L: Layout, s: Machine)
    requires LayoutOk(L)
  {
    && s.running in s.ctxs
    && |s.cpu.regs| == |L.slots|
    && (forall c :: c in s.ctxs ==> (s.ctxs[c].handle.None? <==> c == s.running))
    && !s.ctxs[s.running].unentered
    && (forall c, d :: c in s.ctxs && d in s.ctxs && c != d ==> Apart(s, c, d))
    && (forall c :: Suspended(s, c) ==> FrameInPlace(L, s.cpu.mem, s.ctxs[c]))
  }

  /** The frame contents of a context that a step does not resume stay as they are. */
  lemma FramesSurvive(L: Layout, s: Machine, op: Op, s': Machine, c: Id)
    requires LayoutOk(L) && Linear(L, s) && Next(L, s, op, s')
    requires Suspended(s, c) && s'.running != c && op != Destroy(c)
    ensures c in s'.ctxs && s'.ctxs[c] == s.ctxs[c]
    ensures SameOn(s.cpu.mem, s'.cpu.mem, s.ctxs[c].handle.value, s.ctxs[c].handle.value + L.extent)
  {
    if op.Jump? || op.Ontop? {
      assert Apart(s, c, s.running) && Apart(s, c, s'.running);
    } else if op.Make? {
      assert Apart(s, c, s.running);
    } else if op.Destroy? {
      assert Apart(s, c, op.id);
    }
  }

  function LiveHandles(s: Machine): set<int> {
    set c | c in s.ctxs && s.ctxs[c].handle.Some? :: s.ctxs[c].handle.value
  }

  lemma LinearStep(L: Layout, s: Machine, op: Op, s': Machine)
    requires LayoutOk(L) && Linear(L, s) && Next(L, s, op, s')
    ensures Linear(L, s')
  {
    forall c, d | c in s'.ctxs && d in s'.ctxs && c != d ensures Apart(s', c, d) {
      if c in s.ctxs && d in s.ctxs { assert Apart(s, c, d); }
    }
    forall c | Suspended(s', c) ensures FrameInPlace(L, s'.cpu.mem, s'.ctxs[c]) {
      if Suspended(s, c) {
        FramesSurvive(L, s, op, s', c);
        FieldsSame(L, s.cpu.mem, s'.cpu.mem, s.ctxs[c].handle.value, [], 0);
      }
    }
  }

  /** In every reachable state exactly one context runs, every other one has exactly
      one live handle, and the live frames lie aligned in their owners' disjoint stacks. */
  lemma {:induction false} HandlesAreLinear(L: Layout, ss: seq<Machine>, ops: seq<Op>, i: nat)
    requires LayoutOk(L) && IsRun(L, ss, ops) && i < |ss|
    ensures Linear(L, ss[i])
  {
    if i > 0 {
      HandlesAreLinear(L, ss, ops, i - 1);
      LinearStep(L, ss[i - 1], ops[i - 1], ss[i]);
    }
  }

  /** What that says of two contexts. */
  lemma LinearMeans(L: Layout, s: Machine, c: Id, d: Id)
    requires LayoutOk(L) && Linear(L, s) && c in s.ctxs && d in s.ctxs && c != d
    ensures s.ctxs[c].handle.None? <==> c == s.running
    ensures s.ctxs[c].hi <= s.ctxs[d].lo || s.ctxs[d].hi <= s.ctxs[c].lo
    ensures s.ctxs[c].handle.Some? ==>
              var h := s.ctxs[c].handle.value;
              && s.ctxs[c].lo <= h && h + L.extent <= s.ctxs[c].hi
              && h % L.align == if s.ctxs[c].unentered then L.madePhase else L.phase
  {
    assert Apart(s, c, d);
    assert s.ctxs[c].handle.Some? ==> FrameInPlace(L, s.cpu.mem, s.ctxs[c]);
  }

  lemma HandlesDiffer(L: Layout, s: Machine, c: Id, d: Id)
    requires LayoutOk(L) && Linear(L, s) && Suspended(s, c) && Suspended(s, d) && c != d
    ensures s.ctxs[c].handle.value + L.extent <= s.ctxs[d].handle.value
            || s.ctxs[d].handle.value + L.extent <= s.ctxs[c].handle.value
  {
    assert Apart(s, c, d);
    assert FrameInPlace(L, s.cpu.mem, s.ctxs[c]) && FrameInPlace(L, s.cpu.mem, s.ctxs[d]);
  }

  lemma HandlesExchanged(L: Layout, s: Machine, op: Op, s': Machine)
    requires LayoutOk(L) && Linear(L, s) && Next(L, s, op, s') && (op.Jump? || op.Ontop?)
    ensures NewFrame(L, s.cpu) !in LiveHandles(s)
    ensures LiveHandles(s') == LiveHandles(s) - {s.ctxs[op.target].handle.value} + {NewFrame(L, s.cpu)}
  {
    var t, r, f := op.target, s.running, NewFrame(L, s.cpu);
    var used := s.ctxs[t].handle.value;
    LinearStep(L, s, op, s');
    assert s'.ctxs[r].handle == Some(f);
    forall c | Suspended(s, c) && c != t
      ensures s.ctxs[c].handle.value != used && s.ctxs[c].handle.value != f && s'.ctxs[c] == s.ctxs[c]
    {
      HandlesDiffer(L, s, c, t);
      HandlesDiffer(L, s', c, r);
    }
    assert used != f by {
      assert Apart(s, t, r);
      assert FrameInPlace(L, s.cpu.mem, s.ctxs[t]);
    }
    forall h | h in LiveHandles(s) - {used} ensures h in LiveHandles(s') {
      var c :| Suspended(s, c) && s.ctxs[c].handle.value == h;
      assert s'.ctxs[c] == s.ctxs[c];
    }
    forall h | h in LiveHandles(s') && h != f ensures h in LiveHandles(s) - {used} {
      var c :| Suspended(s', c) && s'.ctxs[c].handle.value == h;
      assert c != r && c != t && Suspended(s, c);
    }
  }

  /** On every run each switch uses up the handle it is given and creates exactly one, that
      of the context it leaves. */
  lemma SwitchExchangesHandles(L: Layout, ss: seq<Machine>, ops: seq<Op>, i: nat)
    requires LayoutOk(L) && IsRun(L, ss, ops) && i < |ops| && (ops[i].Jump? || ops[i].Ontop?)
    ensures ops[i].target in ss[i].ctxs && ss[i].ctxs[ops[i].target].handle.Some? && |ss[i].cpu.regs| == |L.slots|
    ensures NewFrame(L, ss[i].cpu) !in LiveHandles(ss[i])
    ensures LiveHandles(ss[i + 1]) ==
            LiveHandles(ss[i]) - {ss[i].ctxs[ops[i].target].handle.value} + {NewFrame(L, ss[i].cpu)}
  {
    HandlesAreLinear(L, ss, ops, i);
    assert Next(L, ss[i], ops[i], ss[i + 1]);
    HandlesExchanged(L, ss[i], ops[i], ss[i + 1]);
  }

  /** What the instruction sequences rely on holds in every reachable state: the frame
      that is resumed is aligned and clear of the frame that is being built. */
  lemma TargetFrameIsClear(L: Layout, s: Machine, t: Id)
    requires LayoutOk(L) && Linear(L, s) && MayLeave(L, s, t)
    ensures var to := s.ctxs[t].handle.value;
            && (to + L.extent <= NewFrame(L, s.cpu) || NewFrame(L, s.cpu) + L.extent <= to)
            && to % L.align == (if s.ctxs[t].unentered then L.madePhase else L.phase)
  {
    assert Apart(s, t, s.running);
    assert FrameInPlace(L, s.cpu.mem, s.ctxs[t]);
  }

  /** A jump that meets its contract is also a legitimate first entry, if the transfer
      record of the made frame lies in the made context's stack. */
  lemma JumpedEnters(L: Layout, s: Machine, t: Id, data: int, b: Cpu)
    requires LayoutOk(L) && MayLeave(L, s, t) && s.ctxs[t].unentered
    requires L.hidden.Some? ==>
      var h := RecordAddress(L, s.cpu.mem, s.ctxs[t].handle.value);
      s.ctxs[t].lo <= h && h + L.record <= s.ctxs[t].hi
    requires Jumped(L, s.cpu, s.ctxs[t].handle.value, data, b)
    ensures Next(L, s, Jump(t, data), Machine(b, t, Exchanged(L, s, t)))
  {
  }

  /** The same for any first entry that writes only the caller's new frame and the frame that
      it enters. */
  lemma FirstEntryEnters(L: Layout, s: Machine, t: Id, data: int, b: Cpu)
    requires LayoutOk(L) && Linear(L, s) && MayLeave(L, s, t) && s.ctxs[t].unentered && |b.regs| == |L.slots|
    requires FrameHolds(L, b.mem, NewFrame(L, s.cpu), s.cpu.regs, ReturnAddress(L, s.cpu))
    requires var to := s.ctxs[t].handle.value;
             forall x :: !(NewFrame(L, s.cpu) <= x < s.cpu.sp) && !(to <= x < to + L.extent) ==>
               Peek(b.mem, x) == Peek(s.cpu.mem, x)
    ensures Next(L, s, Jump(t, data), Machine(b, t, Exchanged(L, s, t)))
  {
    assert FrameInPlace(L, s.cpu.mem, s.ctxs[t]);
  }

  // ---------- Whole runs ----------

  /** Context c runs at step i, does not run at steps i+1 .. k, and is not destroyed. */
  ghost predicate AwaySince(ss: seq<Machine>, c: Id, i: nat, k: nat) {
    && i < k < |ss| && ss[i].running == c
    && forall m :: i < m <= k ==> ss[m].running != c && c in ss[m].ctxs
  }

  /** A context that leaves is left in a frame that holds its registers. */
  lemma LeavesFrame(L: Layout, s: Machine, op: Op, s': Machine)
    requires LayoutOk(L) && Linear(L, s) && Next(L, s, op, s') && s'.running != s.running
    ensures Suspended(s', s.running) && !s'.ctxs[s.running].unentered
    ensures s'.ctxs[s.running].handle == Some(NewFrame(L, s.cpu))
    ensures FrameHolds(L, s'.cpu.mem, NewFrame(L, s.cpu), s.cpu.regs, ReturnAddress(L, s.cpu))
  {
  }

  lemma FrameStays(L: Layout, s: Machine, op: Op, s': Machine, c: Id, f: int, regs: seq<int>, pc: int)
    requires LayoutOk(L) && Linear(L, s) && Next(L, s, op, s')
    requires Suspended(s, c) && s'.running != c && c in s'.ctxs && s.ctxs[c].handle == Some(f)
    requires FrameHolds(L, s.cpu.mem, f, regs, pc)
    ensures s'.ctxs[c] == s.ctxs[c] && FrameHolds(L, s'.cpu.mem, f, regs, pc)
  {
    FramesSurvive(L, s, op, s', c);
    FieldsSame(L, s.cpu.mem, s'.cpu.mem, f, regs, pc);
  }

  /** While a context is away its frame keeps what it held when the context left. */
  lemma {:induction false} FrameWaits(L: Layout, ss: seq<Machine>, ops: seq<Op>, c: Id, i: nat, k: nat)
    requires LayoutOk(L) && IsRun(L, ss, ops) && AwaySince(ss, c, i, k)
    ensures Suspended(ss[k], c) && !ss[k].ctxs[c].unentered
    ensures |ss[i].cpu.regs| == |L.slots|
    ensures ss[k].ctxs[c].handle == Some(NewFrame(L, ss[i].cpu))
    ensures FrameHolds(L, ss[k].cpu.mem, NewFrame(L, ss[i].cpu), ss[i].cpu.regs, ReturnAddress(L, ss[i].cpu))
  {
    HandlesAreLinear(L, ss, ops, k - 1);
    assert Next(L, ss[k - 1], ops[k - 1], ss[k]);
    if k == i + 1 {
      LeavesFrame(L, ss[i], ops[i], ss[k]);
    } else {
      FrameWaits(L, ss, ops, c, i, k - 1);
      FrameStays(L, ss[k - 1], ops[k - 1], ss[k], c, NewFrame(L, ss[i].cpu), ss[i].cpu.regs,
                 ReturnAddress(L, ss[i].cpu));
    }
  }

  /** Fiber isolation: whatever the other contexts do between step i, at which c
      leaves, and step j, at which it is next resumed, c gets back its own preserved
      registers, stack pointer and resumption address. */
  lemma FiberIsolation(L: Layout, ss: seq<Machine>, ops: seq<Op>, c: Id, i: nat, j: nat)
    requires LayoutOk(L) && IsRun(L, ss, ops) && j < |ss|
    requires 0 < j && AwaySince(ss, c, i, j - 1) && ss[j].running == c
    ensures ops[j - 1].Jump? || ops[j - 1].Ontop?
    ensures |ss[i].cpu.regs| == |L.slots| && ss[j].cpu.regs == ss[i].cpu.regs
    ensures ss[j].cpu.got == Transfer(NewFrame(L, ss[j - 1].cpu), ops[j - 1].data)
    ensures ops[j - 1].Jump? ==>
      ss[j].cpu.pc == ReturnAddress(L, ss[i].cpu) && ss[j].cpu.sp == ss[i].cpu.sp - L.down + L.pop
    ensures ops[j - 1].Ontop? ==>
      && ss[j].cpu.pc == ops[j - 1].fn && ss[j].cpu.sp == ss[i].cpu.sp - L.down + L.keep
      && Field(ss[j].cpu.mem, NewFrame(L, ss[i].cpu), L.pc) == ReturnAddress(L, ss[i].cpu)
  {
    FrameWaits(L, ss, ops, c, i, j - 1);
    var s, s', f := ss[j - 1], ss[j], NewFrame(L, ss[i].cpu);
    HandlesAreLinear(L, ss, ops, j - 1);
    assert Next(L, s, ops[j - 1], s');
    assert s'.cpu.regs == ss[i].cpu.regs;
    if ops[j - 1].Ontop? {
      assert Apart(s, c, s.running);
      LoadSame(s.cpu.mem, s'.cpu.mem, f + L.pc.off, L.pc.width);
    }
  }

  /** A made context that is first entered at step j finds in its frame what was put
      there when it was made at step i. */
  lemma {:induction false} MadeFrameWaits(L: Layout, ss: seq<Machine>, ops: seq<Op>, c: Id, i: nat, k: nat)
    requires LayoutOk(L) && IsRun(L, ss, ops) && i <= k < |ss|
    requires Suspended(ss[i], c)
    requires forall m :: i <= m <= k ==> ss[m].running != c && c in ss[m].ctxs
    ensures Suspended(ss[k], c) && ss[k].ctxs[c] == ss[i].ctxs[c]
    ensures SameOn(ss[i].cpu.mem, ss[k].cpu.mem, ss[i].ctxs[c].handle.value, ss[i].ctxs[c].handle.value + L.extent)
  {
    if k > i {
      MadeFrameWaits(L, ss, ops, c, i, k - 1);
      HandlesAreLinear(L, ss, ops, k - 1);
      FramesSurvive(L, ss[k - 1], ops[k - 1], ss[k], c);
    }
  }

  /** Running code leaves the registers in `kept` as they are. */
  ghost predicate Leaves(L: Layout, kept: set<nat>, a: Machine, b: Machine) {
    forall r :: r in kept && r < |L.slots| ==>
      |a.cpu.regs| == |b.cpu.regs| == |L.slots| && b.cpu.regs[r] == a.cpu.regs[r]
  }

  /** Registers that a context's own code never changes belong to that context: whenever
      c runs again they have the values they had before, whatever others did to theirs. */
  lemma {:induction false} RegistersFollowContexts(L: Layout, ss: seq<Machine>, ops: seq<Op>, kept: set<nat>, c: Id,
                                                   i: nat, j: nat)
    requires LayoutOk(L) && IsRun(L, ss, ops) && i <= j < |ss|
    requires ss[i].running == c && ss[j].running == c
    requires forall m :: i <= m <= j ==> c in ss[m].ctxs
    requires forall m :: i <= m < j && ops[m].Compute? && ss[m].running == c ==> Leaves(L, kept, ss[m], ss[m + 1])
    ensures Leaves(L, kept, ss[i], ss[j])
    decreases j
  {
    HandlesAreLinear(L, ss, ops, i);
    if i < j {
      if ss[j - 1].running == c {
        RegistersFollowContexts(L, ss, ops, kept, c, i, j - 1);
        StaysOrComputes(L, ss, ops, j - 1);
      } else {
        var k := LastRan(ss, c, i, j - 1);
        RegistersFollowContexts(L, ss, ops, kept, c, i, k);
        FiberIsolation(L, ss, ops, c, k, j);
      }
    }
  }

  lemma StaysOrComputes(L: Layout, ss: seq<Machine>, ops: seq<Op>, m: nat)
    requires LayoutOk(L) && IsRun(L, ss, ops) && m < |ops| && ss[m].running == ss[m + 1].running
    ensures ops[m].Compute? || (|ss[m].cpu.regs| == |L.slots| && ss[m + 1].cpu.regs == ss[m].cpu.regs)
  {
    HandlesAreLinear(L, ss, ops, m);
    assert Next(L, ss[m], ops[m], ss[m + 1]);
  }

  lemma {:induction false} LastRan(ss: seq<Machine>, c: Id, i: nat, j: nat) returns (k: nat)
    requires i < j < |ss| && ss[i].running == c && ss[j].running != c
    requires forall m :: i <= m <= j ==> c in ss[m].ctxs
    ensures i <= k < j && AwaySince(ss, c, k, j)
    decreases j
  {
    k := j - 1;
    if ss[k].running != c {
      k := LastRan(ss, c, i, j - 1);
    }
  }
}
