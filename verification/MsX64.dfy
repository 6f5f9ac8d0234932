/** The Microsoft x64 switch: src/asm/{jump,make,ontop}_x86_64_ms_pe_masm.asm without
    BOOST_USE_TSX.  Besides the System V registers it preserves XMM6-XMM15, RDI, RSI,
    four fields of the thread information block and the hidden pointer to the caller's
    transfer record. */
module MsX64 {
  import opened Wrappers
  import opened Memory
  import opened Frame
  import opened Kernel

  /** XMM6-XMM15, MXCSR, x87 control word, and thirteen words of eight bytes. */
  function SlotAt(i: int): Slot {
    if 0 <= i < 10 then Slot(0x10 * i, 16)
    else if i == 10 then Slot(0xa0, 4)
    else if i == 11 then Slot(0xa4, 2)
    else if i < 25 then Slot(if i < 0 then 0 else 0x50 + 8 * i, 8)
    else Slot(0, 8)
  }

  const MS := Layout(seq(25, i => SlotAt(i)), Slot(0x118, 8), OnStack, 0x118, 0x120, 0x120, 0x118, Some(HIDDEN), 16,
                     16, 0, 0)

  // Positions in the preserved registers.
  const FIBER := 12
  const DEALLOC := 13
  const LIMIT := 14
  const BASE := 15
  const RBX := 22
  const RBP := 23
  const HIDDEN := 24

  datatype Xmm = Xmm(xmm6: u128, xmm7: u128, xmm8: u128, xmm9: u128, xmm10: u128,
                     xmm11: u128, xmm12: u128, xmm13: u128, xmm14: u128, xmm15: u128)
  {
    /** XMM register 6 + i. */
    function At(i: int): u128 {
      if i == 0 then xmm6 else if i == 1 then xmm7 else if i == 2 then xmm8 else if i == 3 then xmm9
      else if i == 4 then xmm10 else if i == 5 then xmm11
      else if i == 6 then xmm12 else if i == 7 then xmm13 else if i == 8 then xmm14 else xmm15
    }
  }

  /** The fields of the thread information block that a switch exchanges. */
  datatype Tib = Tib(fiber: u64, dealloc: u64, limit: u64, base: u64)

  datatype Registers = Registers(
    x: Xmm, tib: Tib, mxcsr: u32, x87cw: u16,
    rax: u64, rbx: u64, rcx: u64, rdx: u64, rsi: u64, rdi: u64, rbp: u64, rsp: u64,
    r8: u64, r9: u64, r10: u64, r12: u64, r13: u64, r14: u64, r15: u64, rip: u64)
  {
    function ControlAt(i: int): int {
      if i == 10 then mxcsr else if i == 11 then x87cw
      else if i == FIBER then tib.fiber else if i == DEALLOC then tib.dealloc
      else if i == LIMIT then tib.limit else tib.base
    }

    function IntegerAt(hidden: u64, i: int): int {
      if i == 16 then r12 else if i == 17 then r13 else if i == 18 then r14 else if i == 19 then r15
      else if i == 20 then rdi else if i == 21 then rsi else if i == RBX then rbx else if i == RBP then rbp
      else hidden
    }

    /** Preserved register i, with `hidden` as the last. */
    function At(hidden: u64, i: int): int {
      if i < 10 then x.At(i) else if i < 16 then ControlAt(i) else IntegerAt(hidden, i)
    }

    function With(hidden: u64): seq<int> {
      seq(25, i => At(hidden, i))
    }

    /** At a call the hidden pointer is in RCX. */
    function Preserved(): seq<int> {
      With(rcx)
    }

    /** A call returns the hidden pointer in RAX; the transfer lies where it points. */
    function Before(mem: Mem): Cpu {
      Cpu(Preserved(), rsp, rip, mem, Transfer(0, 0))
    }

    function After(mem: Mem): Cpu {
      Cpu(With(rax), rsp, rip, mem, Transfer(Load(mem, rax, 8), Load(mem, rax + 8, 8)))
    }
  }

  /** movaps faults unless its operand is aligned. */
  function LoadAligned(m: Mem, a: int): u128
    requires a % 16 == 0
  {
    Load(m, a, 16)
  }

  function StoreAligned(m: Mem, a: int, v: u128): Mem
    requires a % 16 == 0
  {
    Store(m, a, 16, v)
  }

  /** The XMM part of the save sequence. */
  method SaveXmm(x: Xmm, rsp: u64, m0: Mem, ghost regs: seq<int>) returns (mem: Mem)
    requires rsp % 16 == 0 && |regs| == 25 && forall i :: 0 <= i < 10 ==> regs[i] == x.At(i)
    ensures mem == StoreFields(MS, m0, rsp, regs, 10)
  {
    mem := m0;
    ghost var f, k := rsp, 0;
    mem := StoreAligned(mem, rsp, x.xmm6); k := k + 1;
    assert mem == StoreFields(MS, m0, f, regs, k);
    mem := StoreAligned(mem, rsp + 0x10, x.xmm7); k := k + 1;
    assert mem == StoreFields(MS, m0, f, regs, k);
    mem := StoreAligned(mem, rsp + 0x20, x.xmm8); k := k + 1;
    assert mem == StoreFields(MS, m0, f, regs, k);
    mem := StoreAligned(mem, rsp + 0x30, x.xmm9); k := k + 1;
    assert mem == StoreFields(MS, m0, f, regs, k);
    mem := StoreAligned(mem, rsp + 0x40, x.xmm10); k := k + 1;
    assert mem == StoreFields(MS, m0, f, regs, k);
    mem := StoreAligned(mem, rsp + 0x50, x.xmm11); k := k + 1;
    assert mem == StoreFields(MS, m0, f, regs, k);
    mem := StoreAligned(mem, rsp + 0x60, x.xmm12); k := k + 1;
    assert mem == StoreFields(MS, m0, f, regs, k);
    mem := StoreAligned(mem, rsp + 0x70, x.xmm13); k := k + 1;
    assert mem == StoreFields(MS, m0, f, regs, k);
    mem := StoreAligned(mem, rsp + 0x80, x.xmm14); k := k + 1;
    assert mem == StoreFields(MS, m0, f, regs, k);
    mem := StoreAligned(mem, rsp + 0x90, x.xmm15); k := k + 1;
    assert mem == StoreFields(MS, m0, f, regs, k);
  }

  /** The control words and the thread information block. */
  method SaveControl(r0: Registers, ghost m0: Mem, mem0: Mem, ghost regs: seq<int>) returns (r: Registers, mem: Mem)
    requires |regs| == 25 && forall i :: 10 <= i < 16 ==> regs[i] == r0.ControlAt(i)
    requires mem0 == StoreFields(MS, m0, r0.rsp, regs, 10)
    ensures mem == StoreFields(MS, m0, r0.rsp, regs, 16)
    ensures r == r0.(rax := r.rax)
  {
    r, mem := r0, mem0;
    ghost var f, k := r.rsp, 10;
    mem := Store(mem, r.rsp + 0xa0, 4, r.mxcsr); k := k + 1;
    assert mem == StoreFields(MS, m0, f, regs, k);
    mem := Store(mem, r.rsp + 0xa4, 2, r.x87cw); k := k + 1;
    assert mem == StoreFields(MS, m0, f, regs, k);
    r := r.(rax := r.tib.fiber);
    mem := Store(mem, r.rsp + 0xb0, 8, r.rax); k := k + 1;
    assert mem == StoreFields(MS, m0, f, regs, k);
    r := r.(rax := r.tib.dealloc);
    mem := Store(mem, r.rsp + 0xb8, 8, r.rax); k := k + 1;
    assert mem == StoreFields(MS, m0, f, regs, k);
    r := r.(rax := r.tib.limit);
    mem := Store(mem, r.rsp + 0xc0, 8, r.rax); k := k + 1;
    assert mem == StoreFields(MS, m0, f, regs, k);
    r := r.(rax := r.tib.base);
    mem := Store(mem, r.rsp + 0xc8, 8, r.rax); k := k + 1;
    assert mem == StoreFields(MS, m0, f, regs, k);
  }

  /** The integer registers and the hidden pointer. */
  method SaveInteger(r: Registers, ghost m0: Mem, mem0: Mem, ghost regs: seq<int>) returns (mem: Mem)
    requires |regs| == 25 && forall i :: 16 <= i < 25 ==> regs[i] == r.IntegerAt(r.rcx, i)
    requires mem0 == StoreFields(MS, m0, r.rsp, regs, 16)
    ensures mem == StoreFields(MS, m0, r.rsp, regs, 25)
  {
    mem := mem0;
    ghost var f, k := r.rsp, 16;
    mem := Store(mem, r.rsp + 0xd0, 8, r.r12); k := k + 1;
    assert mem == StoreFields(MS, m0, f, regs, k);
    mem := Store(mem, r.rsp + 0xd8, 8, r.r13); k := k + 1;
    assert mem == StoreFields(MS, m0, f, regs, k);
    mem := Store(mem, r.rsp + 0xe0, 8, r.r14); k := k + 1;
    assert mem == StoreFields(MS, m0, f, regs, k);
    mem := Store(mem, r.rsp + 0xe8, 8, r.r15); k := k + 1;
    assert mem == StoreFields(MS, m0, f, regs, k);
    mem := Store(mem, r.rsp + 0xf0, 8, r.rdi); k := k + 1;
    assert mem == StoreFields(MS, m0, f, regs, k);
    mem := Store(mem, r.rsp + 0xf8, 8, r.rsi); k := k + 1;
    assert mem == StoreFields(MS, m0, f, regs, k);
    mem := Store(mem, r.rsp + 0x100, 8, r.rbx); k := k + 1;
    assert mem == StoreFields(MS, m0, f, regs, k);
    mem := Store(mem, r.rsp + 0x108, 8, r.rbp); k := k + 1;
    assert mem == StoreFields(MS, m0, f, regs, k);
    mem := Store(mem, r.rsp + 0x110, 8, r.rcx); k := k + 1;
    assert mem == StoreFields(MS, m0, f, regs, k);
  }

  /** Where a frame holds which register. */
  lemma FieldsOf(m: Mem, f: int, r: Registers, h: u64, pc: int)
    requires FrameHolds(MS, m, f, r.With(h), pc)
    ensures Load(m, f, 16) == r.x.xmm6 && Load(m, f + 0x10, 16) == r.x.xmm7
    ensures Load(m, f + 0x20, 16) == r.x.xmm8 && Load(m, f + 0x30, 16) == r.x.xmm9
    ensures Load(m, f + 0x40, 16) == r.x.xmm10 && Load(m, f + 0x50, 16) == r.x.xmm11
    ensures Load(m, f + 0x60, 16) == r.x.xmm12 && Load(m, f + 0x70, 16) == r.x.xmm13
    ensures Load(m, f + 0x80, 16) == r.x.xmm14 && Load(m, f + 0x90, 16) == r.x.xmm15
    ensures Load(m, f + 0xa0, 4) == r.mxcsr && Load(m, f + 0xa4, 2) == r.x87cw
    ensures Load(m, f + 0xb0, 8) == r.tib.fiber && Load(m, f + 0xb8, 8) == r.tib.dealloc
    ensures Load(m, f + 0xc0, 8) == r.tib.limit && Load(m, f + 0xc8, 8) == r.tib.base
    ensures Load(m, f + 0xd0, 8) == r.r12 && Load(m, f + 0xd8, 8) == r.r13
    ensures Load(m, f + 0xe0, 8) == r.r14 && Load(m, f + 0xe8, 8) == r.r15
    ensures Load(m, f + 0xf0, 8) == r.rdi && Load(m, f + 0xf8, 8) == r.rsi
    ensures Load(m, f + 0x100, 8) == r.rbx && Load(m, f + 0x108, 8) == r.rbp
    ensures Load(m, f + 0x110, 8) == h
  {
    forall i | 0 <= i < 25 ensures Field(m, f, SlotAt(i)) == r.At(h, i) {
      assert MS.slots[i] == SlotAt(i) && r.With(h)[i] == r.At(h, i);
    }
    XmmOf(m, f, r, h);
    WordsOf(m, f, r, h);
  }

  lemma TibOf(m: Mem, f: int, r: Registers, h: u64, pc: int)
    requires FrameHolds(MS, m, f, r.With(h), pc)
    ensures r.tib == Tib(Load(m, f + 0xb0, 8), Load(m, f + 0xb8, 8), Load(m, f + 0xc0, 8), Load(m, f + 0xc8, 8))
  {
    FieldsOf(m, f, r, h, pc);
  }

  lemma TibAt(r: Registers, h: u64)
    ensures r.With(h)[FIBER] == r.tib.fiber && r.With(h)[DEALLOC] == r.tib.dealloc
    ensures r.With(h)[LIMIT] == r.tib.limit && r.With(h)[BASE] == r.tib.base
  {
  }

  lemma XmmOf(m: Mem, f: int, r: Registers, h: u64)
    requires forall i :: 0 <= i < 25 ==> Field(m, f, SlotAt(i)) == r.At(h, i)
    ensures Load(m, f, 16) == r.x.xmm6 && Load(m, f + 0x10, 16) == r.x.xmm7
    ensures Load(m, f + 0x20, 16) == r.x.xmm8 && Load(m, f + 0x30, 16) == r.x.xmm9
    ensures Load(m, f + 0x40, 16) == r.x.xmm10 && Load(m, f + 0x50, 16) == r.x.xmm11
    ensures Load(m, f + 0x60, 16) == r.x.xmm12 && Load(m, f + 0x70, 16) == r.x.xmm13
    ensures Load(m, f + 0x80, 16) == r.x.xmm14 && Load(m, f + 0x90, 16) == r.x.xmm15
  {
    assert Field(m, f, SlotAt(0)) == r.At(h, 0);
    assert Field(m, f, SlotAt(1)) == r.At(h, 1);
    assert Field(m, f, SlotAt(2)) == r.At(h, 2);
    assert Field(m, f, SlotAt(3)) == r.At(h, 3);
    assert Field(m, f, SlotAt(4)) == r.At(h, 4);
    assert Field(m, f, SlotAt(5)) == r.At(h, 5);
    assert Field(m, f, SlotAt(6)) == r.At(h, 6);
    assert Field(m, f, SlotAt(7)) == r.At(h, 7);
    assert Field(m, f, SlotAt(8)) == r.At(h, 8);
    assert Field(m, f, SlotAt(9)) == r.At(h, 9);
  }

  lemma WordsOf(m: Mem, f: int, r: Registers, h: u64)
    requires forall i :: 0 <= i < 25 ==> Field(m, f, SlotAt(i)) == r.At(h, i)
    ensures Load(m, f + 0xa0, 4) == r.mxcsr && Load(m, f + 0xa4, 2) == r.x87cw
    ensures Load(m, f + 0xb0, 8) == r.tib.fiber && Load(m, f + 0xb8, 8) == r.tib.dealloc
    ensures Load(m, f + 0xc0, 8) == r.tib.limit && Load(m, f + 0xc8, 8) == r.tib.base
    ensures Load(m, f + 0xd0, 8) == r.r12 && Load(m, f + 0xd8, 8) == r.r13
    ensures Load(m, f + 0xe0, 8) == r.r14 && Load(m, f + 0xe8, 8) == r.r15
    ensures Load(m, f + 0xf0, 8) == r.rdi && Load(m, f + 0xf8, 8) == r.rsi
    ensures Load(m, f + 0x100, 8) == r.rbx && Load(m, f + 0x108, 8) == r.rbp
    ensures Load(m, f + 0x110, 8) == h
  {
    assert Field(m, f, SlotAt(10)) == r.At(h, 10);
    assert Field(m, f, SlotAt(11)) == r.At(h, 11);
    assert Field(m, f, SlotAt(12)) == r.At(h, 12);
    assert Field(m, f, SlotAt(13)) == r.At(h, 13);
    assert Field(m, f, SlotAt(14)) == r.At(h, 14);
    assert Field(m, f, SlotAt(15)) == r.At(h, 15);
    assert Field(m, f, SlotAt(16)) == r.At(h, 16);
    assert Field(m, f, SlotAt(17)) == r.At(h, 17);
    assert Field(m, f, SlotAt(18)) == r.At(h, 18);
    assert Field(m, f, SlotAt(19)) == r.At(h, 19);
    assert Field(m, f, SlotAt(20)) == r.At(h, 20);
    assert Field(m, f, SlotAt(21)) == r.At(h, 21);
    assert Field(m, f, SlotAt(22)) == r.At(h, 22);
    assert Field(m, f, SlotAt(23)) == r.At(h, 23);
    assert Field(m, f, SlotAt(24)) == r.At(h, 24);
  }

  /** The save sequence shared by jump_fcontext and ontop_fcontext. */
  method SavePreserved(r0: Registers, m0: Mem) returns (r: Registers, mem: Mem)
    requires r0.rsp >= 0x118 && r0.rsp % 16 == 8
    ensures r == r0.(rsp := r0.rsp - 0x118, rax := r.rax)
    ensures FrameHolds(MS, mem, r.rsp, r0.Preserved(), Load(m0, r0.rsp, 8))
    ensures SameOutside(m0, mem, r.rsp, r0.rsp)
    ensures Load(mem, r.rsp + 0xb0, 8) == r0.tib.fiber && Load(mem, r.rsp + 0xb8, 8) == r0.tib.dealloc
    ensures Load(mem, r.rsp + 0xc0, 8) == r0.tib.limit && Load(mem, r.rsp + 0xc8, 8) == r0.tib.base
  {
    r := r0.(rsp := r0.rsp - 0x118);
    mem := SaveXmm(r.x, r.rsp, m0, r0.Preserved());
    r, mem := SaveControl(r, m0, mem, r0.Preserved());
    mem := SaveInteger(r, m0, mem, r0.Preserved());
    SavedFrame(r0, m0);
    TibOf(mem, r.rsp, r0, r0.rcx, Load(m0, r0.rsp, 8));
  }

  lemma SavedFrame(r: Registers, m: Mem)
    ensures FrameHolds(MS, StoreFields(MS, m, r.rsp - 0x118, r.Preserved(), 25), r.rsp - 0x118, r.Preserved(),
                       Load(m, r.rsp, 8))
    ensures SameOutside(m, StoreFields(MS, m, r.rsp - 0x118, r.Preserved(), 25), r.rsp - 0x118, r.rsp)
  {
    forall i | 0 <= i < 25 ensures Sized(r.Preserved()[i], MS.slots[i].width) {
    }
    StoredFrame(MS, 25, m, r.rsp - 0x118, r.Preserved());
  }

  /** The XMM part of the restore sequence. */
  method RestoreXmm(rsp: u64, mem: Mem) returns (x: Xmm)
    requires rsp % 16 == 0
    ensures forall i :: 0 <= i < 10 ==> x.At(i) == Field(mem, rsp, SlotAt(i))
  {
    var xmm6 := LoadAligned(mem, rsp);
    var xmm7 := LoadAligned(mem, rsp + 0x10);
    var xmm8 := LoadAligned(mem, rsp + 0x20);
    var xmm9 := LoadAligned(mem, rsp + 0x30);
    var xmm10 := LoadAligned(mem, rsp + 0x40);
    var xmm11 := LoadAligned(mem, rsp + 0x50);
    var xmm12 := LoadAligned(mem, rsp + 0x60);
    var xmm13 := LoadAligned(mem, rsp + 0x70);
    var xmm14 := LoadAligned(mem, rsp + 0x80);
    var xmm15 := LoadAligned(mem, rsp + 0x90);
    x := Xmm(xmm6, xmm7, xmm8, xmm9, xmm10, xmm11, xmm12, xmm13, xmm14, xmm15);
  }

  /** The control words and the thread information block. */
  method RestoreControl(r0: Registers, mem: Mem) returns (r: Registers)
    ensures forall i :: 10 <= i < 16 ==> r.ControlAt(i) == Field(mem, r0.rsp, SlotAt(i))
    ensures r == r0.(mxcsr := r.mxcsr, x87cw := r.x87cw, tib := r.tib, rax := r.rax)
  {
    r := r0;
    r := r.(mxcsr := Load(mem, r.rsp + 0xa0, 4));
    r := r.(x87cw := Load(mem, r.rsp + 0xa4, 2));
    r := r.(rax := Load(mem, r.rsp + 0xb0, 8));
    r := r.(tib := r.tib.(fiber := r.rax));
    r := r.(rax := Load(mem, r.rsp + 0xb8, 8));
    r := r.(tib := r.tib.(dealloc := r.rax));
    r := r.(rax := Load(mem, r.rsp + 0xc0, 8));
    r := r.(tib := r.tib.(limit := r.rax));
    r := r.(rax := Load(mem, r.rsp + 0xc8, 8));
    r := r.(tib := r.tib.(base := r.rax));
  }

  /** The integer registers and, in RAX, the hidden pointer. */
  method RestoreInteger(r0: Registers, mem: Mem) returns (r: Registers)
    ensures forall i :: 16 <= i < 25 ==> r.IntegerAt(r.rax, i) == Field(mem, r0.rsp, SlotAt(i))
    ensures r == r0.(r12 := r.r12, r13 := r.r13, r14 := r.r14, r15 := r.r15,
                     rdi := r.rdi, rsi := r.rsi, rbx := r.rbx, rbp := r.rbp, rax := r.rax)
  {
    r := r0;
    r := r.(r12 := Load(mem, r.rsp + 0xd0, 8));
    r := r.(r13 := Load(mem, r.rsp + 0xd8, 8));
    r := r.(r14 := Load(mem, r.rsp + 0xe0, 8));
    r := r.(r15 := Load(mem, r.rsp + 0xe8, 8));
    r := r.(rdi := Load(mem, r.rsp + 0xf0, 8));
    r := r.(rsi := Load(mem, r.rsp + 0xf8, 8));
    r := r.(rbx := Load(mem, r.rsp + 0x100, 8));
    r := r.(rbp := Load(mem, r.rsp + 0x108, 8));
    r := r.(rax := Load(mem, r.rsp + 0x110, 8));
  }

  /** The restore sequence shared by jump_fcontext and ontop_fcontext. */
  method RestorePreserved(r0: Registers, mem: Mem) returns (r: Registers)
    requires r0.rsp % 16 == 0
    ensures FrameHolds(MS, mem, r0.rsp, r.With(r.rax), Load(mem, r0.rsp + 0x118, 8))
    ensures r == r0.(x := r.x, tib := r.tib, mxcsr := r.mxcsr, x87cw := r.x87cw, rax := r.rax,
                     r12 := r.r12, r13 := r.r13, r14 := r.r14, r15 := r.r15,
                     rdi := r.rdi, rsi := r.rsi, rbx := r.rbx, rbp := r.rbp)
    ensures r.tib == Tib(Load(mem, r0.rsp + 0xb0, 8), Load(mem, r0.rsp + 0xb8, 8),
                         Load(mem, r0.rsp + 0xc0, 8), Load(mem, r0.rsp + 0xc8, 8))
  {
    var x := RestoreXmm(r0.rsp, mem);
    r := r0.(x := x);
    r := RestoreControl(r, mem);
    ghost var c := r;
    r := RestoreInteger(r, mem);
    forall i | 0 <= i < 25 ensures Field(mem, r0.rsp, MS.slots[i]) == r.With(r.rax)[i] {
      if i < 10 { assert r.At(r.rax, i) == x.At(i); }
      else if i < 16 { assert r.At(r.rax, i) == c.ControlAt(i); }
    }
    TibOf(mem, r0.rsp, r, r.rax, Load(mem, r0.rsp + 0x118, 8));
  }

  /** The saved frame survives the delivery, the restored one was read before it. */
  lemma SwitchDone(r0: Registers, m0: Mem, saved: Mem, r: Registers, m: Mem)
    requires r0.rsp >= 0x118
    requires r0.rdx + 0x120 <= r0.rsp - 0x118 || r0.rsp + 8 <= r0.rdx
    requires FrameHolds(MS, saved, r0.rsp - 0x118, r0.Preserved(), Load(m0, r0.rsp, 8))
             && SameOutside(m0, saved, r0.rsp - 0x118, r0.rsp)
    requires FrameHolds(MS, saved, r0.rdx, r.With(r.rax), Load(saved, r0.rdx + 0x118, 8))
    requires SameOutside(saved, m, r.rax, r.rax + 16)
    requires RecordIsClear(r0, m0)
    ensures FrameHolds(MS, m0, r0.rdx, r.With(r.rax), Load(m0, r0.rdx + 0x118, 8))
    ensures r.rax == Load(m0, r0.rdx + 0x110, 8)
    ensures FrameHolds(MS, m, r0.rsp - 0x118, r0.Preserved(), Load(m0, r0.rsp, 8))
    ensures WritesOnlyItsOwn(MS, r0.Before(m0), r0.rdx, m)
  {
    LayoutIsOk();
    FieldsSame(MS, saved, m0, r0.rdx, r.With(r.rax), Load(saved, r0.rdx + 0x118, 8));
    assert Field(m0, r0.rdx, MS.slots[HIDDEN]) == r.With(r.rax)[HIDDEN] == r.rax;
    FieldsSame(MS, saved, m, r0.rsp - 0x118, r0.Preserved(), Load(m0, r0.rsp, 8));
  }

  lemma JumpDone(r0: Registers, m0: Mem, saved: Mem, r: Registers, m: Mem)
    requires r0.rsp >= 0x118
    requires r0.rdx + 0x120 <= r0.rsp - 0x118 || r0.rsp + 8 <= r0.rdx
    requires FrameHolds(MS, saved, r0.rsp - 0x118, r0.Preserved(), Load(m0, r0.rsp, 8))
             && SameOutside(m0, saved, r0.rsp - 0x118, r0.rsp)
    requires FrameHolds(MS, saved, r0.rdx, r.With(r.rax), Load(saved, r0.rdx + 0x118, 8))
    requires SameOutside(saved, m, r.rax, r.rax + 16)
    requires RecordIsClear(r0, m0)
    requires Load(m, r.rax, 8) == r0.rsp - 0x118 && Load(m, r.rax + 8, 8) == r0.r8
    requires r.rsp == r0.rdx + 0x120 && r.rip == Load(saved, r0.rdx + 0x118, 8)
    ensures Jumped(MS, r0.Before(m0), r0.rdx, r0.r8, r.After(m))
    ensures r.rax == Load(m0, r0.rdx + 0x110, 8) && r.rip == Load(m0, r0.rdx + 0x118, 8)
  {
    LayoutIsOk();
    SwitchDone(r0, m0, saved, r, m);
    LoadSame(saved, m0, r0.rdx + 0x118, 8);
  }

  lemma OntopDone(r0: Registers, m0: Mem, saved: Mem, r: Registers, m: Mem)
    requires r0.rsp >= 0x118
    requires r0.rdx + 0x120 <= r0.rsp - 0x118 || r0.rsp + 8 <= r0.rdx
    requires FrameHolds(MS, saved, r0.rsp - 0x118, r0.Preserved(), Load(m0, r0.rsp, 8))
             && SameOutside(m0, saved, r0.rsp - 0x118, r0.rsp)
    requires FrameHolds(MS, saved, r0.rdx, r.With(r.rax), Load(saved, r0.rdx + 0x118, 8))
    requires SameOutside(saved, m, r.rax, r.rax + 16)
    requires RecordIsClear(r0, m0)
    requires Load(m, r.rax, 8) == r0.rsp - 0x118 && Load(m, r.rax + 8, 8) == r0.r8
    requires r.rsp == r0.rdx + 0x118 && r.rip == r0.r9
    ensures OntopEntered(MS, r0.Before(m0), r0.rdx, r0.r8, r0.r9, r.After(m))
    ensures r.rax == Load(m0, r0.rdx + 0x110, 8)
  {
    SwitchDone(r0, m0, saved, r, m);
  }

  /** The transfer record of the target does not meet the frame that is being built. */
  predicate RecordIsClear(r0: Registers, m0: Mem) {
    var h := Load(m0, r0.rdx + 0x110, 8);
    h + 16 <= r0.rsp - 0x118 || r0.rsp + 8 <= h
  }

  /** jump_fcontext(hidden = RCX, to = RDX, data = R8). */
  method JumpFcontext(r0: Registers, m0: Mem) returns (r: Registers, mem: Mem)
    requires r0.rsp >= 0x118 && r0.rsp % 16 == 8 && r0.rdx % 16 == 0 && r0.rdx + 0x120 < LIMIT64
    requires r0.rdx + 0x120 <= r0.rsp - 0x118 || r0.rsp + 8 <= r0.rdx
    requires RecordIsClear(r0, m0)
    ensures Jumped(MS, r0.Before(m0), r0.rdx, r0.r8, r.After(mem))
    ensures r.rax == Load(m0, r0.rdx + 0x110, 8) && r.rcx == r.rax
    ensures Load(mem, r.rax, 8) == r0.rsp - 0x118 && Load(mem, r.rax + 8, 8) == r0.r8
    ensures r.rsp == r0.rdx + 0x120 && r.rip == Load(m0, r0.rdx + 0x118, 8)
  {
    r, mem := SavePreserved(r0, m0);
    ghost var saved := mem;
    r := r.(r9 := r.rsp);
    r := r.(rsp := r.rdx);
    r := RestorePreserved(r, mem);
    r := r.(rsp := r.rsp + 0x118);
    r := r.(r10 := Load(mem, r.rsp, 8), rsp := r.rsp + 8);
    TwoStores(mem, r.rax, 8, r.r9, r.r8);
    mem := Store(mem, r.rax, 8, r.r9);
    mem := Store(mem, r.rax + 8, 8, r.r8);
    r := r.(rcx := r.rax);
    r := r.(rip := r.r10);
    JumpDone(r0, m0, saved, r, mem);
  }

  /** ontop_fcontext(hidden = RCX, to = RDX, data = R8, fn = R9).  The function gets the
      target's transfer record both as its hidden result and as its argument. */
  method OntopFcontext(r0: Registers, m0: Mem) returns (r: Registers, mem: Mem)
    requires r0.rsp >= 0x118 && r0.rsp % 16 == 8 && r0.rdx % 16 == 0 && r0.rdx + 0x120 < LIMIT64
    requires r0.rdx + 0x120 <= r0.rsp - 0x118 || r0.rsp + 8 <= r0.rdx
    requires RecordIsClear(r0, m0)
    ensures OntopEntered(MS, r0.Before(m0), r0.rdx, r0.r8, r0.r9, r.After(mem))
    ensures r.rax == Load(m0, r0.rdx + 0x110, 8) && r.rcx == r.rax && r.rdx == r.rax
    ensures Load(mem, r.rax, 8) == r0.rsp - 0x118 && Load(mem, r.rax + 8, 8) == r0.r8
    ensures r.rsp == r0.rdx + 0x118 && r.rip == r0.r9
  {
    r, mem := SavePreserved(r0, m0);
    ghost var saved := mem;
    r := r.(rcx := r.rsp);
    r := r.(rsp := r.rdx);
    r := RestorePreserved(r, mem);
    r := r.(rsp := r.rsp + 0x118);
    TwoStores(mem, r.rax, 8, r.rcx, r.r8);
    mem := Store(mem, r.rax, 8, r.rcx);
    mem := Store(mem, r.rax + 8, 8, r.r8);
    r := r.(rcx := r.rax);
    r := r.(rdx := r.rax);
    r := r.(rip := r.r9);
    OntopDone(r0, m0, saved, r, mem);
  }

  /** The address of the frame that make_fcontext builds below top. */
  function MadeAt(top: int): int {
    top - top % 16 - 0x150
  }

  /** What make_fcontext puts into the frame. */
  ghost predicate MadeFrame(m: Mem, f: int, top: int, size: int, fn: int, trampoline: int, finish: int) {
    && Load(m, f + 0xb0, 8) == 0
    && Load(m, f + 0xb8, 8) == top - size && Load(m, f + 0xc0, 8) == top - size && Load(m, f + 0xc8, 8) == top
    && Load(m, f + 0x100, 8) == fn && Load(m, f + 0x108, 8) == finish
    && Load(m, f + 0x110, 8) == f + 0x140 && Load(m, f + 0x118, 8) == trampoline
  }

  /** make_fcontext(sp = RCX, size = RDX, fn = R8). */
  method MakeFcontext(r0: Registers, m0: Mem, trampoline: u64, finish: u64) returns (r: Registers, mem: Mem)
    requires r0.rcx >= 0x150 + 0xf && r0.rdx <= r0.rcx && r0.rsp + 8 < LIMIT64
    requires r0.rcx <= r0.rsp || r0.rsp + 8 <= MadeAt(r0.rcx)
    ensures r.rax == MadeAt(r0.rcx) && r.rax % 16 == 0 && r0.rcx - 16 < r.rax + 0x150 <= r0.rcx
    ensures MadeFrame(mem, r.rax, r0.rcx, r0.rdx, r0.r8, trampoline, finish)
    ensures Load(mem, r.rax + 0xa0, 4) == r0.mxcsr && Load(mem, r.rax + 0xa4, 2) == r0.x87cw
    ensures SameOutside(m0, mem, r.rax, r.rax + 0x120)
    ensures forall i :: 0 <= i < 24 ==> r.Preserved()[i] == r0.Preserved()[i]
    ensures r.rip == Load(m0, r0.rsp, 8) && r.rsp == r0.rsp + 8
  {
    r := r0.(rax := r0.rcx);
    r := r.(rax := r.rax - r.rax % 16);
    r := r.(rax := r.rax - 0x150);
    MadeInside(r0.rcx);
    r, mem := MakeLimits(r, m0);
    mem := MakeEntry(r, mem, trampoline, finish);
    BuiltFrame(m0, r.rax, r0.rcx, r0.rdx, r0.r8, r.mxcsr, r.x87cw, trampoline, finish);
    LoadSame(m0, mem, r.rsp, 8);
    r := r.(rcx := finish);
    r := r.(rip := Load(mem, r.rsp, 8));
    r := r.(rsp := r.rsp + 8);
  }

  /** The part of make_fcontext that writes the entry point and the stack limits; the
      bottom is computed as base + (-size), modulo 2^64. */
  method MakeLimits(r0: Registers, m0: Mem) returns (r: Registers, mem: Mem)
    requires r0.rdx <= r0.rcx
    ensures mem == Built1(m0, r0.rax, r0.rcx, r0.rcx - r0.rdx, r0.r8)
    ensures r == r0.(rcx := 0, rdx := r.rdx)
  {
    r, mem := r0, m0;
    mem := Store(mem, r.rax + 0x100, 8, r.r8);
    mem := Store(mem, r.rax + 0xc8, 8, r.rcx);
    r := r.(rdx := if r.rdx == 0 then 0 else LIMIT64 - r.rdx);
    r := r.(rcx := (r.rcx + r.rdx) % LIMIT64);
    mem := Store(mem, r.rax + 0xc0, 8, r.rcx);
    mem := Store(mem, r.rax + 0xb8, 8, r.rcx);
    r := r.(rcx := 0);
    mem := Store(mem, r.rax + 0xb0, 8, r.rcx);
  }

  /** The rest of its stores: control words, hidden pointer, the two labels. */
  method MakeEntry(r: Registers, m0: Mem, trampoline: u64, finish: u64) returns (mem: Mem)
    requires r.rax + 0x140 < LIMIT64
    ensures mem == Built2(m0, r.rax, r.rax + 0x140, r.mxcsr, r.x87cw, trampoline, finish)
  {
    mem := Store(m0, r.rax + 0xa0, 4, r.mxcsr);
    mem := Store(mem, r.rax + 0xa4, 2, r.x87cw);
    var rcx: u64 := r.rax + 0x140;
    mem := Store(mem, r.rax + 0x110, 8, rcx);
    rcx := trampoline;
    mem := Store(mem, r.rax + 0x118, 8, rcx);
    rcx := finish;
    mem := Store(mem, r.rax + 0x108, 8, rcx);
  }

  /** The stack limits and the entry point, the first five stores of make_fcontext. */
  function Built1(m: Mem, f: int, top: u64, low: u64, fn: u64): Mem {
    Store(Store(Store(Store(Store(m, f + 0x100, 8, fn), f + 0xc8, 8, top), f + 0xc0, 8, low), f + 0xb8, 8, low),
          f + 0xb0, 8, 0)
  }

  function Built2(m: Mem, f: int, record: u64, mxcsr: u32, x87cw: u16, trampoline: u64, finish: u64): Mem {
    Store(Store(Store(Store(Store(m, f + 0xa0, 4, mxcsr), f + 0xa4, 2, x87cw), f + 0x110, 8, record),
                f + 0x118, 8, trampoline), f + 0x108, 8, finish)
  }

  lemma Built1Holds(m: Mem, f: int, top: u64, low: u64, fn: u64)
    ensures var n := Built1(m, f, top, low, fn);
            && Load(n, f + 0xb0, 8) == 0 && Load(n, f + 0xb8, 8) == low && Load(n, f + 0xc0, 8) == low
            && Load(n, f + 0xc8, 8) == top && Load(n, f + 0x100, 8) == fn
            && SameOutside(m, n, f, f + 0x120)
  {
    var m1 := Store(m, f + 0x100, 8, fn);
    var m2 := Store(m1, f + 0xc8, 8, top);
    var m3 := Store(m2, f + 0xc0, 8, low);
    var m4 := Store(m3, f + 0xb8, 8, low);
    StoreEffect(m, f + 0x100, 8, fn);
    StoreEffect(m1, f + 0xc8, 8, top);
    StoreEffect(m2, f + 0xc0, 8, low);
    StoreEffect(m3, f + 0xb8, 8, low);
    StoreEffect(m4, f + 0xb0, 8, 0);
  }

  lemma Built2Holds(m: Mem, f: int, record: u64, mxcsr: u32, x87cw: u16, trampoline: u64, finish: u64)
    ensures var n := Built2(m, f, record, mxcsr, x87cw, trampoline, finish);
            && Load(n, f + 0xa0, 4) == mxcsr && Load(n, f + 0xa4, 2) == x87cw && Load(n, f + 0x110, 8) == record
            && Load(n, f + 0x118, 8) == trampoline && Load(n, f + 0x108, 8) == finish
            && SameOn(m, n, f + 0xb0, f + 0x108) && SameOutside(m, n, f, f + 0x120)
  {
    var m1 := Store(m, f + 0xa0, 4, mxcsr);
    var m2 := Store(m1, f + 0xa4, 2, x87cw);
    var m3 := Store(m2, f + 0x110, 8, record);
    var m4 := Store(m3, f + 0x118, 8, trampoline);
    StoreEffect(m, f + 0xa0, 4, mxcsr);
    StoreEffect(m1, f + 0xa4, 2, x87cw);
    StoreEffect(m2, f + 0x110, 8, record);
    StoreEffect(m3, f + 0x118, 8, trampoline);
    StoreEffect(m4, f + 0x108, 8, finish);
  }

  lemma BuiltFrame(m: Mem, f: u64, top: u64, size: u64, fn: u64, mxcsr: u32, x87cw: u16, trampoline: u64, finish: u64)
    requires size <= top && f + 0x140 < LIMIT64
    ensures var n := Built2(Built1(m, f, top, top - size, fn), f, f + 0x140, mxcsr, x87cw, trampoline, finish);
            && MadeFrame(n, f, top, size, fn, trampoline, finish)
            && Load(n, f + 0xa0, 4) == mxcsr && Load(n, f + 0xa4, 2) == x87cw
            && SameOutside(m, n, f, f + 0x120)
  {
    var m1 := Built1(m, f, top, top - size, fn);
    var n := Built2(m1, f, f + 0x140, mxcsr, x87cw, trampoline, finish);
    Built1Holds(m, f, top, top - size, fn);
    Built2Holds(m1, f, f + 0x140, mxcsr, x87cw, trampoline, finish);
    LoadSame(m1, n, f + 0xb0, 8);
    LoadSame(m1, n, f + 0xb8, 8);
    LoadSame(m1, n, f + 0xc0, 8);
    LoadSame(m1, n, f + 0xc8, 8);
    LoadSame(m1, n, f + 0x100, 8);
  }

  /** The code at the label trampoline. */
  method Trampoline(r0: Registers, m0: Mem) returns (r: Registers, mem: Mem)
    requires r0.rsp >= 8
    ensures r == r0.(rsp := r0.rsp - 8, rip := r0.rbx)
    ensures Load(mem, r.rsp, 8) == r0.rbp && SameOutside(m0, mem, r.rsp, r0.rsp)
  {
    r, mem := r0, m0;
    r := r.(rsp := r.rsp - 8);
    StoreEffect(mem, r.rsp, 8, r.rbp);
    mem := Store(mem, r.rsp, 8, r.rbp);
    r := r.(rip := r.rbx);
  }

  // ---------- Whole runs ----------

  lemma LayoutIsOk()
    ensures LayoutOk(MS)
  {
  }

  /** A call of make_fcontext is a step of a run, for every stack that holds the frame. */
  lemma MakeIsAStep(s: Machine, id: Id, lo: int, hi: int, sp: int, m: Mem)
    requires s.running in s.ctxs && OwnStack(s, id, lo, hi) && lo <= MadeAt(sp) && sp <= hi
    requires SameOutside(s.cpu.mem, m, MadeAt(sp), MadeAt(sp) + 0x120)
    ensures Next(MS, s, Make(id, lo, hi, MadeAt(sp)), WithMade(s, id, lo, hi, MadeAt(sp), m))
  {
  }

  /** On every run every movaps is aligned and the frames and the transfer record that a
      switch touches are clear of each other: a caller that keeps the calling convention
      meets all that JumpFcontext and OntopFcontext rely on. */
  lemma SwitchIsAlwaysPossible(ss: seq<Machine>, ops: seq<Op>, i: nat, t: Id, r: Registers,
                               top: int, size: int, fn: int, trampoline: int, finish: int)
    requires IsRun(MS, ss, ops) && i < |ss| && MayLeave(MS, ss[i], t)
    requires ss[i].cpu.sp == r.rsp && ss[i].ctxs[t].handle == Some(r.rdx)
    requires ss[i].ctxs[t].unentered ==>
      MadeFrame(ss[i].cpu.mem, r.rdx, top, size, fn, trampoline, finish) && r.rdx + 0x150 <= ss[i].ctxs[t].hi
    ensures (r.rsp - 0x118) % 16 == 0 && r.rdx % 16 == 0
    ensures r.rdx + 0x120 <= r.rsp - 0x118 || r.rsp + 8 <= r.rdx
    ensures RecordIsClear(r, ss[i].cpu.mem)
  {
    LayoutIsOk();
    var s := ss[i];
    HandlesAreLinear(MS, ss, ops, i);
    TargetFrameIsClear(MS, s, t);
    assert Apart(s, t, s.running) && FrameInPlace(MS, s.cpu.mem, s.ctxs[t]);
    assert RecordAddress(MS, s.cpu.mem, r.rdx) == Load(s.cpu.mem, r.rdx + 0x110, 8);
  }

  /** Between leaving and being resumed a context loses none of its 25 preserved values,
      the fields of the thread information block among them, and finds the transfer where
      its own hidden pointer points; jump_fcontext returns to its caller. */
  lemma MsIsolation(ss: seq<Machine>, ops: seq<Op>, c: Id, i: nat, j: nat)
    requires IsRun(MS, ss, ops) && 0 < j < |ss|
    requires AwaySince(ss, c, i, j - 1) && ss[j].running == c
    ensures ops[j - 1].Jump? || ops[j - 1].Ontop?
    ensures |ss[i].cpu.regs| == 25 && ss[j].cpu.regs == ss[i].cpu.regs
    ensures ss[j].cpu.got == Transfer(ss[j - 1].cpu.sp - 0x118, ops[j - 1].data)
    ensures ops[j - 1].Jump? ==>
              && ss[j].cpu.sp == ss[i].cpu.sp + 8
              && ss[j].cpu.pc == Load(ss[i].cpu.mem, ss[i].cpu.sp, 8)
    ensures ops[j - 1].Ontop? ==>
              && ss[j].cpu.sp == ss[i].cpu.sp
              && Load(ss[j].cpu.mem, ss[j].cpu.sp, 8) == Load(ss[i].cpu.mem, ss[i].cpu.sp, 8)
  {
    LayoutIsOk();
    FiberIsolation(MS, ss, ops, c, i, j);
  }

  /** Equal preserved registers are equal one by one. */
  lemma SameRegisters(r: Registers, h: u64, r': Registers, h': u64)
    requires r.With(h) == r'.With(h')
    ensures r'.x == r.x && r'.tib == r.tib && r'.mxcsr == r.mxcsr && r'.x87cw == r.x87cw && h' == h
    ensures r'.r12 == r.r12 && r'.r13 == r.r13 && r'.r14 == r.r14 && r'.r15 == r.r15
    ensures r'.rdi == r.rdi && r'.rsi == r.rsi && r'.rbx == r.rbx && r'.rbp == r.rbp
  {
    forall i | 0 <= i < 25 ensures r.At(h, i) == r'.At(h', i) {
      assert r.With(h)[i] == r.At(h, i) && r'.With(h')[i] == r'.At(h', i);
    }
    assert r.At(h, 0) == r'.At(h', 0);
    assert r.At(h, 1) == r'.At(h', 1);
    assert r.At(h, 2) == r'.At(h', 2);
    assert r.At(h, 3) == r'.At(h', 3);
    assert r.At(h, 4) == r'.At(h', 4);
    assert r.At(h, 5) == r'.At(h', 5);
    assert r.At(h, 6) == r'.At(h', 6);
    assert r.At(h, 7) == r'.At(h', 7);
    assert r.At(h, 8) == r'.At(h', 8);
    assert r.At(h, 9) == r'.At(h', 9);
    assert r.At(h, 10) == r'.At(h', 10);
    assert r.At(h, 11) == r'.At(h', 11);
    assert r.At(h, 12) == r'.At(h', 12);
    assert r.At(h, 13) == r'.At(h', 13);
    assert r.At(h, 14) == r'.At(h', 14);
    assert r.At(h, 15) == r'.At(h', 15);
    assert r.At(h, 16) == r'.At(h', 16);
    assert r.At(h, 17) == r'.At(h', 17);
    assert r.At(h, 18) == r'.At(h', 18);
    assert r.At(h, 19) == r'.At(h', 19);
    assert r.At(h, 20) == r'.At(h', 20);
    assert r.At(h, 21) == r'.At(h', 21);
    assert r.At(h, 22) == r'.At(h', 22);
    assert r.At(h, 23) == r'.At(h', 23);
    assert r.At(h, 24) == r'.At(h', 24);
  }

  /** MsIsolation in terms of the registers: r as context c leaves and r' as it is resumed. */
  lemma RegistersComeBack(ss: seq<Machine>, ops: seq<Op>, c: Id, i: nat, j: nat, r: Registers, r': Registers)
    requires IsRun(MS, ss, ops) && 0 < j < |ss|
    requires AwaySince(ss, c, i, j - 1) && ss[j].running == c
    requires ss[i].cpu == r.Before(ss[i].cpu.mem) && ss[j].cpu == r'.After(ss[j].cpu.mem)
    ensures r'.x == r.x && r'.tib == r.tib && r'.mxcsr == r.mxcsr && r'.x87cw == r.x87cw
    ensures r'.r12 == r.r12 && r'.r13 == r.r13 && r'.r14 == r.r14 && r'.r15 == r.r15
    ensures r'.rdi == r.rdi && r'.rsi == r.rsi && r'.rbx == r.rbx && r'.rbp == r.rbp
    ensures r'.rax == r.rcx
    ensures Load(ss[j].cpu.mem, r'.rax, 8) == ss[j - 1].cpu.sp - 0x118
    ensures Load(ss[j].cpu.mem, r'.rax + 8, 8) == ops[j - 1].data
    ensures ops[j - 1].Jump? ==> r'.rsp == r.rsp + 8 && r'.rip == Load(ss[i].cpu.mem, r.rsp, 8)
  {
    MsIsolation(ss, ops, c, i, j);
    SameRegisters(r, r.rcx, r', r'.rax);
  }

  const TIB := {FIBER, DEALLOC, LIMIT, BASE}

  lemma MadeFrameKept(m: Mem, n: Mem, f: int, top: int, size: int, fn: int, trampoline: int, finish: int)
    requires SameOn(m, n, f, f + 0x120) && MadeFrame(m, f, top, size, fn, trampoline, finish)
    ensures MadeFrame(n, f, top, size, fn, trampoline, finish)
  {
    LoadSame(m, n, f + 0xb0, 8);
    LoadSame(m, n, f + 0xb8, 8);
    LoadSame(m, n, f + 0xc0, 8);
    LoadSame(m, n, f + 0xc8, 8);
    LoadSame(m, n, f + 0x100, 8);
    LoadSame(m, n, f + 0x108, 8);
    LoadSame(m, n, f + 0x110, 8);
    LoadSame(m, n, f + 0x118, 8);
  }

  /** What a jump loads from a made frame. */
  lemma LoadsMadeFrame(a: Cpu, f: int, data: int, b: Cpu, top: int, size: int, fn: int, trampoline: int, finish: int)
    requires |a.regs| == 25
    requires MadeFrame(a.mem, f, top, size, fn, trampoline, finish) && Jumped(MS, a, f, data, b)
    ensures b.regs[FIBER] == 0 && b.regs[DEALLOC] == top - size && b.regs[LIMIT] == top - size && b.regs[BASE] == top
    ensures b.regs[RBX] == fn && b.regs[RBP] == finish && b.regs[HIDDEN] == f + 0x140
    ensures b.pc == trampoline && b.sp == f + 0x120 && b.got == Transfer(a.sp - 0x118, data)
  {
    assert Field(a.mem, f, MS.slots[FIBER]) == 0;
    assert Field(a.mem, f, MS.slots[DEALLOC]) == top - size;
    assert Field(a.mem, f, MS.slots[LIMIT]) == top - size;
    assert Field(a.mem, f, MS.slots[BASE]) == top;
    assert Field(a.mem, f, MS.slots[RBX]) == fn;
    assert Field(a.mem, f, MS.slots[RBP]) == finish;
    assert Field(a.mem, f, MS.slots[HIDDEN]) == f + 0x140;
  }

  /** Context c is made at step i with frame f and first entered, by a jump, at
      step j. */
  ghost predicate MadeThenEntered(L: Layout, ss: seq<Machine>, ops: seq<Op>, c: Id, i: nat, j: nat, lo: int, hi: int,
                                  f: int, top: int, size: int, data: int, fn: int, trampoline: int, finish: int)
    requires LayoutOk(L)
  {
    && |ss| == |ops| + 1 && i + 1 < j < |ss|
    && ops[i] == Make(c, lo, hi, f)
    && MadeFrame(ss[i + 1].cpu.mem, f, top, size, fn, trampoline, finish)
    && (forall m :: i < m < j ==> ss[m].running != c && c in ss[m].ctxs)
    && ss[j].running == c && |ss[j - 1].cpu.regs| == |L.slots|
    && Jumped(L, ss[j - 1].cpu, f, data, ss[j].cpu)
  }

  /** The thread information block is the running context's own.  A made context finds,
      from its first entry on and whenever it runs again, its own stack base, limit and
      deallocation address there, as long as its own code does not write them, whatever
      the other contexts do to theirs. */
  lemma TibIsTheRunningContexts(ss: seq<Machine>, ops: seq<Op>, c: Id, i: nat, j: nat, k: nat, lo: int, hi: int, f: int,
                                top: int, size: int, data: int, fn: int, trampoline: int, finish: int)
    requires IsRun(MS, ss, ops) && j <= k < |ss| && ss[k].running == c
    requires MadeThenEntered(MS, ss, ops, c, i, j, lo, hi, f, top, size, data, fn, trampoline, finish)
    requires forall m :: j <= m <= k ==> c in ss[m].ctxs
    requires forall m :: j <= m < k && ops[m].Compute? && ss[m].running == c ==> Leaves(MS, TIB, ss[m], ss[m + 1])
    ensures |ss[k].cpu.regs| == 25
    ensures ss[k].cpu.regs[FIBER] == 0 && ss[k].cpu.regs[BASE] == top
    ensures ss[k].cpu.regs[LIMIT] == top - size && ss[k].cpu.regs[DEALLOC] == top - size
    ensures forall r: Registers, h: u64 :: ss[k].cpu.regs == r.With(h) ==>
              r.tib.fiber == 0 && r.tib.base == top && r.tib.limit == top - size && r.tib.dealloc == top - size
  {
    LayoutIsOk();
    MadeFrameAtEntry(ss, ops, c, i, j, lo, hi, f, top, size, fn, trampoline, finish);
    LoadsMadeFrame(ss[j - 1].cpu, f, data, ss[j].cpu, top, size, fn, trampoline, finish);
    RegistersFollowContexts(MS, ss, ops, TIB, c, j, k);
    HandlesAreLinear(MS, ss, ops, k);
    assert FIBER in TIB && DEALLOC in TIB && LIMIT in TIB && BASE in TIB;
    forall r: Registers, h: u64 | ss[k].cpu.regs == r.With(h)
      ensures r.tib.fiber == 0 && r.tib.base == top && r.tib.limit == top - size && r.tib.dealloc == top - size
    {
      TibAt(r, h);
    }
  }

  /** However long a made context waits, its frame is as make_fcontext left it. */
  lemma MadeFrameAtEntry(ss: seq<Machine>, ops: seq<Op>, c: Id, i: nat, j: nat, lo: int, hi: int, f: int,
                         top: int, size: int, fn: int, trampoline: int, finish: int)
    requires IsRun(MS, ss, ops) && i + 1 < j < |ss|
    requires ops[i] == Make(c, lo, hi, f)
    requires MadeFrame(ss[i + 1].cpu.mem, f, top, size, fn, trampoline, finish)
    requires forall m :: i < m < j ==> ss[m].running != c && c in ss[m].ctxs
    ensures MadeFrame(ss[j - 1].cpu.mem, f, top, size, fn, trampoline, finish) && lo <= f && f % 16 == 0
  {
    LayoutIsOk();
    assert Next(MS, ss[i], ops[i], ss[i + 1]);
    assert ss[i + 1].ctxs[c].handle == Some(f);
    MadeFrameWaits(MS, ss, ops, c, i + 1, j - 1);
    MadeFrameKept(ss[i + 1].cpu.mem, ss[j - 1].cpu.mem, f, top, size, fn, trampoline, finish);
  }

  /** The registers with which the trampoline starts. */
  lemma EntersTrampoline(a: Cpu, f: int, data: int, r: Registers, m: Mem, top: int, size: int, fn: int,
                         trampoline: int, finish: int)
    requires |a.regs| == 25
    requires MadeFrame(a.mem, f, top, size, fn, trampoline, finish)
    requires Jumped(MS, a, f, data, r.After(m))
    ensures r.rip == trampoline && r.rsp == f + 0x120 && r.rbx == fn && r.rbp == finish && r.rax == f + 0x140
    ensures Load(m, r.rax, 8) == a.sp - 0x118 && Load(m, r.rax + 8, 8) == data
  {
    LoadsMadeFrame(a, f, data, r.After(m), top, size, fn, trampoline, finish);
    assert r.After(m).regs[RBX] == r.rbx;
    assert r.After(m).regs[RBP] == r.rbp;
    assert r.After(m).regs[HIDDEN] == r.rax;
  }

  /** A made frame is aligned, and its transfer record lies just below top. */
  lemma MadeInside(top: int)
    ensures MadeAt(top) % 16 == 0 && top - 16 < MadeAt(top) + 0x150 <= top
  {
  }

  /** The first entry calls the function as the Microsoft convention asks: RSP is eight
      off a multiple of sixteen with `finish` on top, 32 bytes of home space are free
      above it, and RCX addresses a transfer record above those, inside the stack. */
  lemma EntersFunction(a: Cpu, f: int, data: int, r: Registers, m: Mem, e: Registers, n: Mem,
                       top: int, size: int, fn: int, trampoline: int, finish: int)
    requires |a.regs| == 25 && f % 16 == 0 && f + 0x150 <= top
    requires MadeFrame(a.mem, f, top, size, fn, trampoline, finish)
    requires Jumped(MS, a, f, data, r.After(m)) && r.rcx == r.rax && r.rsp >= 8
    requires e == r.(rsp := r.rsp - 8, rip := r.rbx) && Load(n, e.rsp, 8) == r.rbp && SameOutside(m, n, e.rsp, r.rsp)
    ensures r.rip == trampoline && e.rip == fn && Load(n, e.rsp, 8) == finish && (e.rsp + 8) % 16 == 0
    ensures e.rcx == e.rsp + 8 + 32 && e.rcx + 16 <= top
    ensures Load(n, e.rcx, 8) == a.sp - 0x118 && Load(n, e.rcx + 8, 8) == data
  {
    EntersTrampoline(a, f, data, r, m, top, size, fn, trampoline, finish);
    Enters(f, r, m, e, n, a.sp - 0x118, data);
  }

  /** However long a made context waits, its first jump and the trampoline call the
      function as EntersFunction says. */
  lemma FirstEntry(ss: seq<Machine>, ops: seq<Op>, c: Id, i: nat, j: nat, lo: int, hi: int, f: int, data: int,
                   r: Registers, e: Registers, n: Mem, top: int, size: int, fn: int, trampoline: int, finish: int)
    requires IsRun(MS, ss, ops) && f + 0x150 <= top <= hi
    requires MadeThenEntered(MS, ss, ops, c, i, j, lo, hi, f, top, size, data, fn, trampoline, finish)
    requires ss[j].cpu == r.After(ss[j].cpu.mem) && r.rcx == r.rax && r.rsp >= 8
    requires e == r.(rsp := r.rsp - 8, rip := r.rbx) && Load(n, e.rsp, 8) == r.rbp
             && SameOutside(ss[j].cpu.mem, n, e.rsp, r.rsp)
    ensures r.rip == trampoline && e.rip == fn && Load(n, e.rsp, 8) == finish && (e.rsp + 8) % 16 == 0
    ensures e.rcx == e.rsp + 8 + 32 && lo <= e.rsp && e.rcx + 16 <= hi
    ensures Load(n, e.rcx, 8) == ss[j - 1].cpu.sp - 0x118 && Load(n, e.rcx + 8, 8) == data
  {
    LayoutIsOk();
    MadeFrameAtEntry(ss, ops, c, i, j, lo, hi, f, top, size, fn, trampoline, finish);
    EntersFunction(ss[j - 1].cpu, f, data, r, ss[j].cpu.mem, e, n, top, size, fn, trampoline, finish);
    assert e.rsp == f + 0x118;
  }

  lemma Enters(f: int, r: Registers, m: Mem, e: Registers, n: Mem, fctx: int, data: int)
    requires f % 16 == 0 && r.rsp == f + 0x120 && r.rsp >= 8 && r.rax == f + 0x140 && r.rcx == r.rax
    requires Load(m, r.rax, 8) == fctx && Load(m, r.rax + 8, 8) == data
    requires e == r.(rsp := r.rsp - 8, rip := r.rbx) && SameOutside(m, n, e.rsp, r.rsp)
    ensures (e.rsp + 8) % 16 == 0 && e.rcx == e.rsp + 8 + 32 && Load(n, e.rcx, 8) == fctx
            && Load(n, e.rcx + 8, 8) == data
  {
    LoadSame(m, n, e.rcx, 8);
    LoadSame(m, n, e.rcx + 8, 8);
  }
}
