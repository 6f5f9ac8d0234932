/** The s390x jump and make: src/asm/{jump,make}_s390x_sysv_elf_gas.S.  A zero in the slot
    of the hidden pointer marks a made context; on its first entry the transfer record is
    laid over slots of its own frame. */
module S390x {
  import opened Wrappers
  import opened Memory
  import opened Frame
  import opened Kernel

  /** R2 (the hidden pointer), R6-R14, F8-F15, and the floating point control register. */
  function SlotAt(i: int): Slot {
    if 0 <= i < 18 then Slot(16 + 8 * i, 8) else Slot(160, 4)
  }

  const LAYOUT := Layout(seq(19, i => SlotAt(i)), Slot(168, 8), InRegister(R14), 176, 176, 176, 176, Some(HIDDEN), 16,
                         8, 0, 0)

  // Positions in the preserved registers.
  const HIDDEN := 0
  const R14 := 9

  const REG_SAVE_AREA := 160

  datatype Gprs = Gprs(r6: u64, r7: u64, r8: u64, r9: u64, r10: u64, r11: u64, r12: u64, r13: u64, r14: u64)
  {
    /** Register 6 + i. */
    function At(i: int): u64 {
      if i == 0 then r6 else if i == 1 then r7 else if i == 2 then r8 else if i == 3 then r9 else if i == 4 then r10
      else if i == 5 then r11 else if i == 6 then r12 else if i == 7 then r13 else r14
    }
  }

  datatype Fprs = Fprs(f8: u64, f9: u64, f10: u64, f11: u64, f12: u64, f13: u64, f14: u64, f15: u64)
  {
    /** Register 8 + i. */
    function At(i: int): u64 {
      if i == 0 then f8 else if i == 1 then f9 else if i == 2 then f10 else if i == 3 then f11
      else if i == 4 then f12 else if i == 5 then f13 else if i == 6 then f14 else f15
    }
  }

  datatype Registers = Registers(r1: u64, r2: u64, r3: u64, r4: u64, r5: u64, g: Gprs, r15: u64, f: Fprs, fpc: u32,
                                 pc: u64)
  {
    function At(i: int): int {
      if i == HIDDEN then r2 else if i < 10 then g.At(i - 1) else if i < 18 then f.At(i - 10) else fpc
    }

    function Preserved(): seq<int> {
      seq(19, i => At(i))
    }

    function View(mem: Mem): Cpu {
      Cpu(Preserved(), r15, pc, mem, Transfer(Load(mem, r2, 8), Load(mem, r2 + 8, 8)))
    }
  }

  method SaveGprs(r: Registers, m0: Mem) returns (mem: Mem)
    ensures mem == StoreFields(LAYOUT, m0, r.r15, r.Preserved(), 10)
  {
    ghost var k := 0;
    mem := Store(m0, r.r15 + 16, 8, r.r2); k := k + 1;
    assert mem == StoreFields(LAYOUT, m0, r.r15, r.Preserved(), k);
    mem := Store(mem, r.r15 + 24, 8, r.g.r6); k := k + 1;
    assert mem == StoreFields(LAYOUT, m0, r.r15, r.Preserved(), k);
    mem := Store(mem, r.r15 + 32, 8, r.g.r7); k := k + 1;
    assert mem == StoreFields(LAYOUT, m0, r.r15, r.Preserved(), k);
    mem := Store(mem, r.r15 + 40, 8, r.g.r8); k := k + 1;
    assert mem == StoreFields(LAYOUT, m0, r.r15, r.Preserved(), k);
    mem := Store(mem, r.r15 + 48, 8, r.g.r9); k := k + 1;
    assert mem == StoreFields(LAYOUT, m0, r.r15, r.Preserved(), k);
    mem := Store(mem, r.r15 + 56, 8, r.g.r10); k := k + 1;
    assert mem == StoreFields(LAYOUT, m0, r.r15, r.Preserved(), k);
    mem := Store(mem, r.r15 + 64, 8, r.g.r11); k := k + 1;
    assert mem == StoreFields(LAYOUT, m0, r.r15, r.Preserved(), k);
    mem := Store(mem, r.r15 + 72, 8, r.g.r12); k := k + 1;
    assert mem == StoreFields(LAYOUT, m0, r.r15, r.Preserved(), k);
    mem := Store(mem, r.r15 + 80, 8, r.g.r13); k := k + 1;
    assert mem == StoreFields(LAYOUT, m0, r.r15, r.Preserved(), k);
    mem := Store(mem, r.r15 + 88, 8, r.g.r14); k := k + 1;
    assert mem == StoreFields(LAYOUT, m0, r.r15, r.Preserved(), k);
  }

  method SaveFprs(r: Registers, ghost m0: Mem, mem0: Mem) returns (mem: Mem)
    requires mem0 == StoreFields(LAYOUT, m0, r.r15, r.Preserved(), 10)
    ensures mem == StoreFields(LAYOUT, m0, r.r15, r.Preserved(), 18)
  {
    ghost var k := 10;
    mem := Store(mem0, r.r15 + 96, 8, r.f.f8); k := k + 1;
    assert mem == StoreFields(LAYOUT, m0, r.r15, r.Preserved(), k);
    mem := Store(mem, r.r15 + 104, 8, r.f.f9); k := k + 1;
    assert mem == StoreFields(LAYOUT, m0, r.r15, r.Preserved(), k);
    mem := Store(mem, r.r15 + 112, 8, r.f.f10); k := k + 1;
    assert mem == StoreFields(LAYOUT, m0, r.r15, r.Preserved(), k);
    mem := Store(mem, r.r15 + 120, 8, r.f.f11); k := k + 1;
    assert mem == StoreFields(LAYOUT, m0, r.r15, r.Preserved(), k);
    mem := Store(mem, r.r15 + 128, 8, r.f.f12); k := k + 1;
    assert mem == StoreFields(LAYOUT, m0, r.r15, r.Preserved(), k);
    mem := Store(mem, r.r15 + 136, 8, r.f.f13); k := k + 1;
    assert mem == StoreFields(LAYOUT, m0, r.r15, r.Preserved(), k);
    mem := Store(mem, r.r15 + 144, 8, r.f.f14); k := k + 1;
    assert mem == StoreFields(LAYOUT, m0, r.r15, r.Preserved(), k);
    mem := Store(mem, r.r15 + 152, 8, r.f.f15); k := k + 1;
    assert mem == StoreFields(LAYOUT, m0, r.r15, r.Preserved(), k);
  }

  /** Where a frame holds which register. */
  lemma FieldsOf(m: Mem, f: int, r: Registers, pc: int)
    requires FrameHolds(LAYOUT, m, f, r.Preserved(), pc)
    ensures Load(m, f + 16, 8) == r.r2 && Load(m, f + 24, 8) == r.g.r6
    ensures Load(m, f + 32, 8) == r.g.r7 && Load(m, f + 40, 8) == r.g.r8
    ensures Load(m, f + 48, 8) == r.g.r9 && Load(m, f + 56, 8) == r.g.r10
    ensures Load(m, f + 64, 8) == r.g.r11 && Load(m, f + 72, 8) == r.g.r12
    ensures Load(m, f + 80, 8) == r.g.r13 && Load(m, f + 88, 8) == r.g.r14
    ensures Load(m, f + 96, 8) == r.f.f8 && Load(m, f + 104, 8) == r.f.f9
    ensures Load(m, f + 112, 8) == r.f.f10 && Load(m, f + 120, 8) == r.f.f11
    ensures Load(m, f + 128, 8) == r.f.f12 && Load(m, f + 136, 8) == r.f.f13
    ensures Load(m, f + 144, 8) == r.f.f14 && Load(m, f + 152, 8) == r.f.f15
    ensures Load(m, f + 160, 4) == r.fpc
    ensures Load(m, f + 168, 8) == pc
  {
    forall i | 0 <= i < 19 ensures Field(m, f, SlotAt(i)) == r.At(i) {
      assert LAYOUT.slots[i] == SlotAt(i) && r.Preserved()[i] == r.At(i);
    }
    assert Field(m, f, SlotAt(0)) == r.At(0);
    assert Field(m, f, SlotAt(1)) == r.At(1);
    assert Field(m, f, SlotAt(2)) == r.At(2);
    assert Field(m, f, SlotAt(3)) == r.At(3);
    assert Field(m, f, SlotAt(4)) == r.At(4);
    assert Field(m, f, SlotAt(5)) == r.At(5);
    assert Field(m, f, SlotAt(6)) == r.At(6);
    assert Field(m, f, SlotAt(7)) == r.At(7);
    assert Field(m, f, SlotAt(8)) == r.At(8);
    assert Field(m, f, SlotAt(9)) == r.At(9);
    assert Field(m, f, SlotAt(10)) == r.At(10);
    assert Field(m, f, SlotAt(11)) == r.At(11);
    assert Field(m, f, SlotAt(12)) == r.At(12);
    assert Field(m, f, SlotAt(13)) == r.At(13);
    assert Field(m, f, SlotAt(14)) == r.At(14);
    assert Field(m, f, SlotAt(15)) == r.At(15);
    assert Field(m, f, SlotAt(16)) == r.At(16);
    assert Field(m, f, SlotAt(17)) == r.At(17);
    assert Field(m, f, SlotAt(18)) == r.At(18);
  }

  method SaveContext(r0: Registers, m0: Mem) returns (r: Registers, mem: Mem)
    requires r0.r15 >= 176
    ensures r == r0.(r15 := r0.r15 - 176)
    ensures FrameHolds(LAYOUT, mem, r.r15, r0.Preserved(), r0.g.r14)
    ensures SameOutside(m0, mem, r.r15, r0.r15)
  {
    r := r0.(r15 := r0.r15 - 176);
    mem := SaveGprs(r, m0);
    mem := SaveFprs(r, m0, mem);
    mem := Store(mem, r.r15 + 168, 8, r.g.r14);
    mem := Store(mem, r.r15 + 160, 4, r.fpc);
    SavedFrame(r, m0);
  }

  lemma SavedFrame(r: Registers, m: Mem)
    ensures var m1 := StoreFields(LAYOUT, m, r.r15, r.Preserved(), 18);
            var n := Store(Store(m1, r.r15 + 168, 8, r.g.r14), r.r15 + 160, 4, r.fpc);
            && FrameHolds(LAYOUT, n, r.r15, r.Preserved(), r.g.r14)
            && SameOutside(m, n, r.r15, r.r15 + 176)
  {
    var regs, f := r.Preserved(), r.r15;
    var m1 := StoreFields(LAYOUT, m, f, regs, 18);
    var m2 := Store(m1, f + 168, 8, r.g.r14);
    var n := Store(m2, f + 160, 4, r.fpc);
    StoreFieldsOutside(LAYOUT, 18, m, f, regs, 18);
    StoreEffect(m1, f + 168, 8, r.g.r14);
    StoreEffect(m2, f + 160, 4, r.fpc);
    forall i | 0 <= i < 19 ensures Field(n, f, LAYOUT.slots[i]) == regs[i] {
      if i < 18 {
        StoreFieldHolds(LAYOUT, 18, m, f, regs, 18, i);
        LoadSame(m1, n, f + SlotAt(i).off, 8);
      }
    }
  }

  /** Registers as loaded from the frame at `to`. */
  predicate LoadedFrom(r: Registers, m: Mem, to: int) {
    && (forall i :: 1 <= i < 19 ==> r.At(i) == Field(m, to, SlotAt(i)))
    && r.r5 == Load(m, to + 168, 8)
  }

  method LoadGprs(r15: u64, mem: Mem) returns (g: Gprs)
    ensures forall i :: 1 <= i < 10 ==> g.At(i - 1) == Field(mem, r15, SlotAt(i))
  {
    g := Gprs(Load(mem, r15 + 24, 8), Load(mem, r15 + 32, 8), Load(mem, r15 + 40, 8), Load(mem, r15 + 48, 8),
              Load(mem, r15 + 56, 8), Load(mem, r15 + 64, 8), Load(mem, r15 + 72, 8), Load(mem, r15 + 80, 8),
              Load(mem, r15 + 88, 8));
  }

  method LoadFprs(r15: u64, mem: Mem) returns (f: Fprs)
    ensures forall i :: 10 <= i < 18 ==> f.At(i - 10) == Field(mem, r15, SlotAt(i))
  {
    f := Fprs(Load(mem, r15 + 96, 8), Load(mem, r15 + 104, 8), Load(mem, r15 + 112, 8), Load(mem, r15 + 120, 8),
              Load(mem, r15 + 128, 8), Load(mem, r15 + 136, 8), Load(mem, r15 + 144, 8), Load(mem, r15 + 152, 8));
  }

  method LoadContext(r0: Registers, mem: Mem) returns (r: Registers)
    ensures LoadedFrom(r, mem, r0.r15)
    ensures r == r0.(g := r.g, f := r.f, fpc := r.fpc, r5 := r.r5)
  {
    var g := LoadGprs(r0.r15, mem);
    var f := LoadFprs(r0.r15, mem);
    r := r0.(g := g, f := f);
    r := r.(fpc := Load(mem, r.r15 + 160, 4));
    r := r.(r5 := Load(mem, r.r15 + 168, 8));
    forall i | 1 <= i < 19 ensures r.At(i) == Field(mem, r0.r15, SlotAt(i)) {
      if i < 10 { assert r.At(i) == g.At(i - 1); } else if i < 18 { assert r.At(i) == f.At(i - 10); }
    }
  }

  /** The hidden pointer that was saved in the target's frame; zero in a made frame. */
  function Marker(r: Registers, m: Mem): u64 { Load(m, r.r3 + 16, 8) }

  /** Where the transfer goes: through the hidden pointer, or to 160 in a made frame. */
  function RecordOf(r: Registers, m: Mem): int {
    if Marker(r, m) != 0 then Marker(r, m) else r.r3 + REG_SAVE_AREA
  }

  predicate TargetOk(r: Registers, m: Mem) {
    var to, h := r.r3, RecordOf(r, m);
    && r.r15 >= 176 && 176 <= to && to + 176 < LIMIT64
    && (to + 176 <= r.r15 - 176 || r.r15 <= to)
    && (h + 16 <= r.r15 - 176 || r.r15 <= h)
    && (Marker(r, m) != 0 ==> h + 16 <= to || to + 176 <= h)
  }

  /** What the first entry of a made context does: everything was loaded from the frame as
      it was, FPC and PC included, before the transfer was laid over those two slots; R2
      addresses the transfer, and R15 leaves a full register save area below it. */
  ghost predicate EnteredFrame(r0: Registers, m0: Mem, r: Registers, m: Mem) {
    && LoadedFrom(r, m0, r0.r3) && r.pc == r.r5
    && r.r15 == r0.r3 && r.r2 == r.r15 + REG_SAVE_AREA
    && Load(m, r.r2, 8) == r0.r15 - 176 && Load(m, r.r2 + 8, 8) == r0.r4
    && SameOn(m0, m, r.r15, r.r15 + REG_SAVE_AREA)
    && forall x :: !(r0.r15 - 176 <= x < r0.r15) && !(r0.r3 + 160 <= x < r0.r3 + 176) ==> Peek(m, x) == Peek(m0, x)
  }

  /** jump_fcontext(hidden = R2, to = R3, data = R4). */
  method JumpFcontext(r0: Registers, m0: Mem) returns (r: Registers, mem: Mem)
    requires TargetOk(r0, m0)
    ensures Marker(r0, m0) != 0 ==> Jumped(LAYOUT, r0.View(m0), r0.r3, r0.r4, r.View(mem))
    ensures Marker(r0, m0) == 0 ==> EnteredFrame(r0, m0, r, mem)
    ensures FrameHolds(LAYOUT, mem, r0.r15 - 176, r0.Preserved(), r0.g.r14)
    ensures var x := Load(m0, r0.r3 + 16, 8);
            && r.r2 == (if x != 0 then x else r0.r3 + 160) && r.r15 == (if x != 0 then r0.r3 + 176 else r0.r3)
            && r.pc == Load(m0, r0.r3 + 168, 8)
            && Load(mem, r.r2, 8) == r0.r15 - 176 && Load(mem, r.r2 + 8, 8) == r0.r4
  {
    LayoutIsOk();
    r, mem := SaveContext(r0, m0);
    ghost var saved := mem;
    r := r.(r1 := r.r15);
    r := r.(r15 := r.r3);
    r := LoadContext(r, mem);
    LoadSame(m0, mem, r.r15 + 16, 8);
    r, mem := Deliver(r, mem);
    Concluded(r0, m0, saved, r, mem);
  }

  /** From the test of the marker on. */
  method Deliver(r0: Registers, m0: Mem) returns (r: Registers, mem: Mem)
    requires 176 <= r0.r15 && r0.r15 + 176 < LIMIT64
    ensures r.r2 == (if Load(m0, r0.r15 + 16, 8) != 0 then Load(m0, r0.r15 + 16, 8) else r0.r15 + REG_SAVE_AREA)
    ensures r.r15 == (if Load(m0, r0.r15 + 16, 8) != 0 then r0.r15 + 176 else r0.r15)
    ensures r == r0.(r2 := r.r2, r15 := r.r15, pc := r0.r5)
    ensures Load(mem, r.r2, 8) == r0.r1 && Load(mem, r.r2 + 8, 8) == r0.r4 && SameOutside(m0, mem, r.r2, r.r2 + 16)
  {
    r, mem := r0, m0;
    r := r.(r2 := Load(mem, r.r15 + 16, 8));
    if r.r2 == 0 {
      r := r.(r2 := r.r15 + REG_SAVE_AREA);
      r := r.(r15 := r.r15 - (REG_SAVE_AREA + 16));
    }
    TwoStores(mem, r.r2, 8, r.r1, r.r4);
    mem := Store(mem, r.r2, 8, r.r1);
    mem := Store(mem, r.r2 + 8, 8, r.r4);
    r := r.(r15 := r.r15 + 176);
    r := r.(pc := r.r5);
  }

  /** The caller's frame was saved, then the target loaded, then the transfer delivered. */
  ghost predicate ThreeSteps(r0: Registers, m0: Mem, saved: Mem, r: Registers, m: Mem) {
    && TargetOk(r0, m0)
    && SameOutside(m0, saved, r0.r15 - 176, r0.r15)
    && LoadedFrom(r, saved, r0.r3) && r.pc == r.r5
    && r.r2 == RecordOf(r0, m0)
    && Load(m, r.r2, 8) == r0.r15 - 176 && Load(m, r.r2 + 8, 8) == r0.r4
    && SameOutside(saved, m, r.r2, r.r2 + 16)
  }

  lemma LoadedBefore(r0: Registers, m0: Mem, saved: Mem, r: Registers)
    requires SameOn(m0, saved, r0.r3, r0.r3 + 176) && LoadedFrom(r, saved, r0.r3)
    ensures LoadedFrom(r, m0, r0.r3)
  {
    forall i | 1 <= i < 19 ensures r.At(i) == Field(m0, r0.r3, SlotAt(i)) {
      LoadSame(m0, saved, r0.r3 + SlotAt(i).off, SlotAt(i).width);
    }
    LoadSame(m0, saved, r0.r3 + 168, 8);
  }

  lemma FirstEntered(r0: Registers, m0: Mem, saved: Mem, r: Registers, m: Mem)
    requires ThreeSteps(r0, m0, saved, r, m) && Marker(r0, m0) == 0 && r.r15 == r0.r3
    ensures EnteredFrame(r0, m0, r, m)
  {
    LoadedBefore(r0, m0, saved, r);
  }

  lemma Resumed(r0: Registers, m0: Mem, saved: Mem, r: Registers, m: Mem)
    requires ThreeSteps(r0, m0, saved, r, m) && Marker(r0, m0) != 0 && r.r15 == r0.r3 + 176
    requires FrameHolds(LAYOUT, m, r0.r15 - 176, r0.Preserved(), r0.g.r14)
    ensures Jumped(LAYOUT, r0.View(m0), r0.r3, r0.r4, r.View(m))
  {
    LayoutIsOk();
    LoadedBefore(r0, m0, saved, r);
    forall i | 0 <= i < 19 ensures Field(m0, r0.r3, LAYOUT.slots[i]) == r.Preserved()[i] {
    }
    assert RecordAddress(LAYOUT, m0, r0.r3) == r.r2;
  }

  lemma Concluded(r0: Registers, m0: Mem, saved: Mem, r: Registers, m: Mem)
    requires ThreeSteps(r0, m0, saved, r, m)
    requires FrameHolds(LAYOUT, saved, r0.r15 - 176, r0.Preserved(), r0.g.r14)
    requires r.r15 == if Marker(r0, m0) != 0 then r0.r3 + 176 else r0.r3
    ensures Marker(r0, m0) != 0 ==> Jumped(LAYOUT, r0.View(m0), r0.r3, r0.r4, r.View(m))
    ensures Marker(r0, m0) == 0 ==> EnteredFrame(r0, m0, r, m)
    ensures FrameHolds(LAYOUT, m, r0.r15 - 176, r0.Preserved(), r0.g.r14)
    ensures var x := Load(m0, r0.r3 + 16, 8);
            && r.r2 == (if x != 0 then x else r0.r3 + 160) && r.r15 == (if x != 0 then r0.r3 + 176 else r0.r3)
            && r.pc == Load(m0, r0.r3 + 168, 8)
            && Load(m, r.r2, 8) == r0.r15 - 176 && Load(m, r.r2 + 8, 8) == r0.r4
  {
    LoadedBefore(r0, m0, saved, r);
    LayoutIsOk();
    FieldsSame(LAYOUT, saved, m, r0.r15 - 176, r0.Preserved(), r0.g.r14);
    if Marker(r0, m0) == 0 {
      FirstEntered(r0, m0, saved, r, m);
    } else {
      Resumed(r0, m0, saved, r, m);
    }
  }

  // ---------- Made contexts ----------

  function MadeAt(sp: int): int {
    sp - sp % 8 - 176
  }

  lemma MadeInside(sp: int)
    ensures MadeAt(sp) % 8 == 0 && sp - 8 < MadeAt(sp) + 176 <= sp
  {
  }

  ghost predicate MadeFrame(m: Mem, f: int, fn: int, finish: int) {
    Load(m, f + 16, 8) == 0 && Load(m, f + 168, 8) == fn && Load(m, f + 88, 8) == finish
  }

  /** make_fcontext(sp = R2, size = R3, fn = R4), with the address of its label finish. */
  method MakeFcontext(r0: Registers, m0: Mem, finish: u64) returns (r: Registers, mem: Mem)
    requires r0.r2 >= 176 + 7
    ensures r.r2 == MadeAt(r0.r2) && r.r2 % 8 == 0 && r0.r2 - 8 < r.r2 + 176 <= r0.r2
    ensures r == r0.(r2 := r.r2, r1 := finish, pc := r0.g.r14)
    ensures MadeFrame(mem, r.r2, r0.r4, finish) && Load(mem, r.r2 + 160, 4) == r0.fpc
    ensures SameOutside(m0, mem, r.r2, r.r2 + 176)
  {
    r, mem := r0, m0;
    r := r.(r2 := r.r2 - r.r2 % 8);
    r := r.(r2 := r.r2 - 176);
    MadeInside(r0.r2);
    StoreEffect(mem, r.r2 + 16, 8, 0);
    mem := Store(mem, r.r2 + 16, 8, 0);
    StoreEffect(mem, r.r2 + 160, 4, r.fpc);
    mem := Store(mem, r.r2 + 160, 4, r.fpc);
    StoreEffect(mem, r.r2 + 168, 8, r.r4);
    mem := Store(mem, r.r2 + 168, 8, r.r4);
    r := r.(r1 := finish);
    StoreEffect(mem, r.r2 + 88, 8, r.r1);
    mem := Store(mem, r.r2 + 88, 8, r.r1);
    r := r.(pc := r.g.r14);
  }

  // ---------- Whole runs ----------

  lemma LayoutIsOk()
    ensures LayoutOk(LAYOUT)
  {
  }

  /** A call of make_fcontext is a step of a run, for every stack that holds the frame. */
  lemma MakeIsAStep(s: Machine, id: Id, lo: int, hi: int, sp: int, m: Mem)
    requires s.running in s.ctxs && OwnStack(s, id, lo, hi) && lo <= MadeAt(sp) && sp <= hi
    requires SameOutside(s.cpu.mem, m, MadeAt(sp), MadeAt(sp) + 176)
    ensures Next(LAYOUT, s, Make(id, lo, hi, MadeAt(sp)), WithMade(s, id, lo, hi, MadeAt(sp), m))
  {
  }

  lemma MadeFrameKept(m: Mem, n: Mem, f: int, fn: int, finish: int)
    requires SameOn(m, n, f, f + 176) && MadeFrame(m, f, fn, finish)
    ensures MadeFrame(n, f, fn, finish)
  {
    LoadSame(m, n, f + 16, 8);
    LoadSame(m, n, f + 88, 8);
    LoadSame(m, n, f + 168, 8);
  }

  /** Whatever happened before, a caller that keeps the calling convention meets what
      JumpFcontext relies on, and the marker tells a made context from a resumed one. */
  lemma SwitchIsAlwaysPossible(ss: seq<Machine>, ops: seq<Op>, i: nat, t: Id, r: Registers, fn: int, finish: int)
    requires IsRun(LAYOUT, ss, ops) && i < |ss| && MayLeave(LAYOUT, ss[i], t)
    requires ss[i].cpu.sp == r.r15 && r.r15 >= 176
    requires ss[i].ctxs[t].handle == Some(r.r3) && 176 <= r.r3 && r.r3 + 176 < LIMIT64
    requires ss[i].ctxs[t].unentered ==> MadeFrame(ss[i].cpu.mem, r.r3, fn, finish)
    ensures TargetOk(r, ss[i].cpu.mem)
    ensures Marker(r, ss[i].cpu.mem) == 0 <==> ss[i].ctxs[t].unentered
  {
    LayoutIsOk();
    var s := ss[i];
    HandlesAreLinear(LAYOUT, ss, ops, i);
    assert Apart(s, t, s.running) && FrameInPlace(LAYOUT, s.cpu.mem, s.ctxs[t]);
    assert RecordAddress(LAYOUT, s.cpu.mem, r.r3) == Marker(r, s.cpu.mem);
  }

  /** Entering a made context is a step of a run: nothing changes but the caller's new
      frame and the stack that is entered. */
  lemma FirstEntryIsAStep(s: Machine, t: Id, r0: Registers, r: Registers, m: Mem)
    requires Linear(LAYOUT, s) && MayLeave(LAYOUT, s, t) && s.ctxs[t].unentered
    requires s.cpu == r0.View(s.cpu.mem) && s.ctxs[t].handle == Some(r0.r3)
    requires EnteredFrame(r0, s.cpu.mem, r, m)
    requires FrameHolds(LAYOUT, m, r0.r15 - 176, s.cpu.regs, r0.g.r14)
    ensures Next(LAYOUT, s, Jump(t, r0.r4), Machine(r.View(m), t, Exchanged(LAYOUT, s, t)))
  {
    LayoutIsOk();
    FirstEntryEnters(LAYOUT, s, t, r0.r4, r.View(m));
  }

  /** However long a made context waits, its marker is still zero when it is first entered;
      then `fn` runs with `finish` as return address and R2 addressing the transfer, which
      lies just above a whole register save area and inside the stack below sp. */
  lemma FirstEntry(ss: seq<Machine>, ops: seq<Op>, c: Id, i: nat, j: nat, sp: int, lo: int, hi: int,
                   fn: int, finish: int, r0: Registers, r: Registers, m: Mem)
    requires IsRun(LAYOUT, ss, ops) && i + 1 < j < |ss|
    requires ops[i] == Make(c, lo, hi, MadeAt(sp))
    requires MadeFrame(ss[i + 1].cpu.mem, MadeAt(sp), fn, finish)
    requires forall m :: i < m < j ==> ss[m].running != c && c in ss[m].ctxs
    requires r0.r3 == MadeAt(sp) && (Marker(r0, ss[j - 1].cpu.mem) == 0 ==> EnteredFrame(r0, ss[j - 1].cpu.mem, r, m))
    ensures Marker(r0, ss[j - 1].cpu.mem) == 0
    ensures r.pc == fn && r.g.r14 == finish && r.r15 % 8 == 0
    ensures Load(m, r.r2, 8) == r0.r15 - 176 && Load(m, r.r2 + 8, 8) == r0.r4
    ensures lo <= r.r15 && r.r15 + REG_SAVE_AREA == r.r2 && r.r2 + 16 <= sp
  {
    LayoutIsOk();
    assert Next(LAYOUT, ss[i], ops[i], ss[i + 1]);
    assert ss[i + 1].ctxs[c].handle == Some(MadeAt(sp));
    MadeFrameWaits(LAYOUT, ss, ops, c, i + 1, j - 1);
    MadeFrameKept(ss[i + 1].cpu.mem, ss[j - 1].cpu.mem, MadeAt(sp), fn, finish);
    assert r.At(R14) == Field(ss[j - 1].cpu.mem, r0.r3, SlotAt(R14));
  }

  /** In a run without ontop switches a resumed context gets back R2, R6-R14, F8-F15 and
      FPC; it continues at the address in R14 with R15 as it was before the call. */
  lemma S390xIsolation(ss: seq<Machine>, ops: seq<Op>, c: Id, i: nat, j: nat)
    requires IsRun(LAYOUT, ss, ops) && 0 < j < |ss|
    requires forall k :: 0 <= k < |ops| ==> !ops[k].Ontop?
    requires AwaySince(ss, c, i, j - 1) && ss[j].running == c
    ensures |ss[i].cpu.regs| == 19 && ss[j].cpu.regs == ss[i].cpu.regs
    ensures ss[j].cpu.sp == ss[i].cpu.sp && ss[j].cpu.pc == ss[i].cpu.regs[R14]
    ensures ss[j].cpu.got == Transfer(ss[j - 1].cpu.sp - 176, ops[j - 1].data)
  {
    LayoutIsOk();
    FiberIsolation(LAYOUT, ss, ops, c, i, j);
  }

  lemma SameRegisters(r: Registers, r': Registers)
    requires r.Preserved() == r'.Preserved()
    ensures r'.r2 == r.r2 && r'.g == r.g && r'.f == r.f && r'.fpc == r.fpc
  {
    forall i | 0 <= i < 19 ensures r.At(i) == r'.At(i) {
      assert r.Preserved()[i] == r.At(i) && r'.Preserved()[i] == r'.At(i);
    }
    assert r.At(0) == r'.At(0);
    assert r.At(1) == r'.At(1);
    assert r.At(2) == r'.At(2);
    assert r.At(3) == r'.At(3);
    assert r.At(4) == r'.At(4);
    assert r.At(5) == r'.At(5);
    assert r.At(6) == r'.At(6);
    assert r.At(7) == r'.At(7);
    assert r.At(8) == r'.At(8);
    assert r.At(9) == r'.At(9);
    assert r.At(10) == r'.At(10);
    assert r.At(11) == r'.At(11);
    assert r.At(12) == r'.At(12);
    assert r.At(13) == r'.At(13);
    assert r.At(14) == r'.At(14);
    assert r.At(15) == r'.At(15);
    assert r.At(16) == r'.At(16);
    assert r.At(17) == r'.At(17);
    assert r.At(18) == r'.At(18);
  }

  /** S390xIsolation in terms of the registers: r as context c leaves and r' as it is resumed. */
  lemma RegistersComeBack(ss: seq<Machine>, ops: seq<Op>, c: Id, i: nat, j: nat, r: Registers, r': Registers)
    requires IsRun(LAYOUT, ss, ops) && 0 < j < |ss|
    requires forall k :: 0 <= k < |ops| ==> !ops[k].Ontop?
    requires AwaySince(ss, c, i, j - 1) && ss[j].running == c
    requires ss[i].cpu == r.View(ss[i].cpu.mem) && ss[j].cpu == r'.View(ss[j].cpu.mem)
    ensures r'.r2 == r.r2 && r'.g == r.g && r'.f == r.f && r'.fpc == r.fpc
    ensures r'.r15 == r.r15 && r'.pc == r.g.r14
    ensures Load(ss[j].cpu.mem, r.r2, 8) == ss[j - 1].cpu.sp - 176
    ensures Load(ss[j].cpu.mem, r.r2 + 8, 8) == ops[j - 1].data
  {
    S390xIsolation(ss, ops, c, i, j);
    SameRegisters(r, r');
    assert r.Preserved()[R14] == r.At(R14) == r.g.r14;
  }
}
