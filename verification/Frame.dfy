/** One context switch, independent of the processor.

    A `Layout` says where a switch keeps each preserved register in the frame it
    builds below the stack pointer.  `Jumped` and `OntopEntered` are the contracts of
    one switch; the processor modules prove that their instruction sequences meet them. */
module Frame {
  import opened Wrappers
  import opened Memory

  datatype Slot = Slot(off: nat, width: nat)

  /** Where the resumption address of a suspending caller comes from. */
  datatype ReturnAt = OnStack | InRegister(index: nat)

  datatype Layout = Layout(
    slots: seq<Slot>,      // one per preserved register
    pc: Slot,              // the resumption address
    ret: ReturnAt,
    down: nat,             // from the caller's stack pointer down to the frame
    extent: nat,           // bytes that must survive until the frame is resumed
    pop: nat,              // from the frame up to the resumed stack pointer
    keep: nat,             // from the frame up to the stack pointer of an ontop function
    hidden: Option<nat>,   // the preserved register that addresses the transfer record
    record: nat,           // size of the transfer record in memory, if any
    align: nat, phase: nat, madePhase: nat)

  ghost predicate LayoutOk(L: Layout) {
    && (forall i :: 0 <= i < |L.slots| ==> L.slots[i].off + L.slots[i].width <= L.extent)
    && L.pc.off + L.pc.width <= L.extent
    && L.down <= L.extent
    && L.align > 0 && L.extent > 0
    && (L.ret.InRegister? ==> L.ret.index < |L.slots|)
    && (L.hidden.Some? ==> L.hidden.value < |L.slots|)
  }

  /** The first n slots lie one above the other below the caller's stack pointer. */
  ghost predicate Packed(L: Layout, n: nat) {
    && n <= |L.slots|
    && (forall i :: 0 <= i < n - 1 ==> L.slots[i].off + L.slots[i].width <= L.slots[i + 1].off)
    && (n > 0 ==> L.slots[n - 1].off + L.slots[n - 1].width <= L.down)
  }

  /** What a switch delivers to the context it enters: the frame of the context
      that was left, and the data pointer. */
  datatype Transfer = Transfer(fctx: int, data: int)

  datatype Cpu = Cpu(regs: seq<int>, sp: int, pc: int, mem: Mem, got: Transfer)

  // ---------- One switch ----------

  function Field(m: Mem, base: int, s: Slot): int {
    Load(m, base + s.off, s.width)
  }

  /** The frame at `base` holds these register values and this resumption address. */
  ghost predicate FrameHolds(L: Layout, m: Mem, base: int, regs: seq<int>, pc: int) {
    && |regs| == |L.slots|
    && (forall i :: 0 <= i < |L.slots| ==> Field(m, base, L.slots[i]) == regs[i])
    && Field(m, base, L.pc) == pc
  }

  /** The address at which a caller of the switch expects to be resumed. */
  function ReturnAddress(L: Layout, a: Cpu): int
    requires LayoutOk(L) && |a.regs| == |L.slots|
  {
    match L.ret
    case OnStack => Load(a.mem, a.sp, L.pc.width)
    case InRegister(i) => a.regs[i]
  }

  function NewFrame(L: Layout, a: Cpu): int {
    a.sp - L.down
  }

  function RecordAddress(L: Layout, m: Mem, frame: int): int
    requires LayoutOk(L)
  {
    if L.hidden.Some? then Field(m, frame, L.slots[L.hidden.value]) else 0
  }

  ghost predicate InRecord(L: Layout, m: Mem, frame: int, x: int)
    requires LayoutOk(L)
  {
    L.hidden.Some? && RecordAddress(L, m, frame) <= x < RecordAddress(L, m, frame) + L.record
  }

  /** A switch from `a` to the frame `to` writes its own new frame and the
      target's transfer record, and nothing else. */
  ghost predicate WritesOnlyItsOwn(L: Layout, a: Cpu, to: int, m: Mem)
    requires LayoutOk(L)
  {
    forall x :: !(NewFrame(L, a) <= x < a.sp) && !InRecord(L, a.mem, to, x) ==> Peek(m, x) == Peek(a.mem, x)
  }

  /** The whole effect of a jump to the frame `to`. */
  ghost predicate Jumped(L: Layout, a: Cpu, to: int, data: int, b: Cpu)
    requires LayoutOk(L) && |a.regs| == |L.slots|
  {
    && FrameHolds(L, b.mem, NewFrame(L, a), a.regs, ReturnAddress(L, a))
    && FrameHolds(L, a.mem, to, b.regs, b.pc)
    && b.sp == to + L.pop
    && b.got == Transfer(NewFrame(L, a), data)
    && WritesOnlyItsOwn(L, a, to, b.mem)
  }

  /** The whole effect of a switch that enters `fn` on top of the frame `to`. */
  ghost predicate OntopEntered(L: Layout, a: Cpu, to: int, data: int, fn: int, b: Cpu)
    requires LayoutOk(L) && |a.regs| == |L.slots|
  {
    && FrameHolds(L, b.mem, NewFrame(L, a), a.regs, ReturnAddress(L, a))
    && FrameHolds(L, a.mem, to, b.regs, Field(a.mem, to, L.pc))
    && b.sp == to + L.keep
    && b.pc == fn
    && b.got == Transfer(NewFrame(L, a), data)
    && WritesOnlyItsOwn(L, a, to, b.mem)
  }

  /** A function entered at `a` returned t to the address on its stack with the
      preserved registers intact, as the calling convention requires. */
  ghost predicate ReturnedFrom(L: Layout, a: Cpu, t: Transfer, b: Cpu) {
    b.regs == a.regs && b.sp == a.sp + L.pc.width && b.pc == Load(a.mem, a.sp, L.pc.width) && b.got == t
  }

  /** Entering a function on top of a suspended context and returning t from it puts
      the context where a jump that delivers t puts it. */
  lemma OntopThenReturnIsJump(L: Layout, a: Cpu, to: int, data: int, fn: int, entry: Cpu, t: Transfer, b: Cpu,
                              jumped: Cpu)
    requires LayoutOk(L) && |a.regs| == |L.slots| && L.ret.OnStack?
    requires L.keep == L.pc.off && L.pop == L.pc.off + L.pc.width
    requires to + L.extent <= NewFrame(L, a) || a.sp <= to
    requires L.hidden.Some? ==>
               to + L.extent <= RecordAddress(L, a.mem, to) || RecordAddress(L, a.mem, to) + L.record <= to
    requires OntopEntered(L, a, to, data, fn, entry) && ReturnedFrom(L, entry, t, b)
    requires Jumped(L, a, to, data, jumped)
    ensures b.regs == jumped.regs && b.sp == jumped.sp && b.pc == jumped.pc
    ensures entry.got == jumped.got
    ensures t == entry.got ==> b.got == jumped.got
  {
    assert entry.regs == jumped.regs;
    LoadSame(a.mem, entry.mem, to + L.pc.off, L.pc.width);
  }

  // ---------- Building a frame ----------

  /** Memory after the first k registers were stored in their slots. */
  function StoreFields(L: Layout, m: Mem, base: int, regs: seq<int>, k: nat): Mem
    requires k <= |L.slots| == |regs|
  {
    if k == 0 then m
    else Store(StoreFields(L, m, base, regs, k - 1), base + L.slots[k - 1].off, L.slots[k - 1].width, regs[k - 1])
  }

  lemma {:induction false} SlotsIncrease(L: Layout, n: nat, i: nat, j: nat)
    requires Packed(L, n) && i < j < n
    ensures L.slots[i].off + L.slots[i].width <= L.slots[j].off
    decreases j
  {
    if i < j - 1 {
      SlotsIncrease(L, n, i, j - 1);
    }
  }

  lemma {:induction false} StoreFieldsOutside(L: Layout, n: nat, m: Mem, base: int, regs: seq<int>, k: nat)
    requires Packed(L, n) && k <= n <= |L.slots| == |regs|
    ensures SameOutside(m, StoreFields(L, m, base, regs, k), base, base + L.down)
    decreases k
  {
    if k > 0 {
      var s := L.slots[k - 1];
      StoreFieldsOutside(L, n, m, base, regs, k - 1);
      StoreElsewhere(StoreFields(L, m, base, regs, k - 1), base + s.off, s.width, regs[k - 1]);
      if k < n { SlotsIncrease(L, n, k - 1, n - 1); }
    }
  }

  /** Slot i still holds its register after k > i stores. */
  lemma {:induction false} StoreFieldHolds(L: Layout, n: nat, m: Mem, base: int, regs: seq<int>, k: nat, i: nat)
    requires Packed(L, n) && i < k <= n <= |L.slots| == |regs|
    requires Sized(regs[i], L.slots[i].width)
    ensures Field(StoreFields(L, m, base, regs, k), base, L.slots[i]) == regs[i]
    decreases k
  {
    var m1, s := StoreFields(L, m, base, regs, k - 1), L.slots[k - 1];
    if i == k - 1 {
      LoadStore(m1, base + s.off, s.width, regs[i]);
    } else {
      StoreFieldHolds(L, n, m, base, regs, k - 1, i);
      SlotsIncrease(L, n, i, k - 1);
      StoreElsewhere(m1, base + s.off, s.width, regs[k - 1]);
      LoadSame(m1, Store(m1, base + s.off, s.width, regs[k - 1]), base + L.slots[i].off, L.slots[i].width);
    }
  }

  /** Storing the first n registers builds a frame that holds them all, if the rest and
      the resumption address already lie above the slots. */
  lemma StoredFrame(L: Layout, n: nat, m: Mem, base: int, regs: seq<int>)
    requires Packed(L, n) && |L.slots| == |regs| && L.down <= L.pc.off
    requires forall i :: 0 <= i < n ==> Sized(regs[i], L.slots[i].width)
    requires forall i :: n <= i < |regs| ==> L.down <= L.slots[i].off && Field(m, base, L.slots[i]) == regs[i]
    ensures FrameHolds(L, StoreFields(L, m, base, regs, n), base, regs, Field(m, base, L.pc))
    ensures SameOutside(m, StoreFields(L, m, base, regs, n), base, base + L.down)
  {
    var m' := StoreFields(L, m, base, regs, n);
    StoreFieldsOutside(L, n, m, base, regs, n);
    LoadSame(m, m', base + L.pc.off, L.pc.width);
    forall i | 0 <= i < |regs| ensures Field(m', base, L.slots[i]) == regs[i] {
      if i < n {
        StoreFieldHolds(L, n, m, base, regs, n, i);
      } else {
        LoadSame(m, m', base + L.slots[i].off, L.slots[i].width);
      }
    }
  }

  lemma FieldsSame(L: Layout, m: Mem, n: Mem, h: int, regs: seq<int>, pc: int)
    requires LayoutOk(L) && SameOn(m, n, h, h + L.extent)
    ensures FrameHolds(L, m, h, regs, pc) ==> FrameHolds(L, n, h, regs, pc)
    ensures RecordAddress(L, m, h) == RecordAddress(L, n, h)
  {
    forall i | 0 <= i < |L.slots| ensures Field(m, h, L.slots[i]) == Field(n, h, L.slots[i]) {
      LoadSame(m, n, h + L.slots[i].off, L.slots[i].width);
    }
    LoadSame(m, n, h + L.pc.off, L.pc.width);
  }
}
