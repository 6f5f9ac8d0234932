/** The System V x86-64 switch: src/asm/{jump,make,ontop}_x86_64_sysv_elf_gas.S with
    BOOST_USE_TSX, the shadow stack and the TLS stack protector all off. */
module SysV64 {
  import opened Wrappers
  import opened Memory
  import opened Frame
  import opened Kernel

  // The frame: MXCSR, x87 control word, R12-R15, RBX, RBP; above them the return address.
  const SYSV := Layout(
    [Slot(0x0, 4), Slot(0x4, 2), Slot(0x10, 8), Slot(0x18, 8), Slot(0x20, 8), Slot(0x28, 8), Slot(0x30, 8),
     Slot(0x38, 8)],
    Slot(0x40, 8), OnStack, 0x40, 0x48, 0x48, 0x40, None, 0, 16, 8, 8)

  lemma LayoutIsOk()
    ensures LayoutOk(SYSV)
  {
  }

  /** What make_fcontext puts into the frame of a context for `fn`. */
  ghost predicate MadeFrame(m: Mem, f: int, fn: int, trampoline: int, finish: int) {
    && Load(m, f + 0x30, 8) == fn
    && Load(m, f + 0x38, 8) == finish
    && Load(m, f + 0x40, 8) == trampoline
  }

  datatype Registers = Registers(
    rax: u64, rbx: u64, rcx: u64, rdx: u64, rsi: u64, rdi: u64, rbp: u64, rsp: u64,
    r8: u64, r12: u64, r13: u64, r14: u64, r15: u64, mxcsr: u32, x87cw: u16, rip: u64)
  {
    function Preserved(): seq<int> {
      [mxcsr, x87cw, r12, r13, r14, r15, rbx, rbp]
    }

    function View(mem: Mem): Cpu {
      Cpu(Preserved(), rsp, rip, mem, Transfer(rax, rdx))
    }
  }

  /** The save sequence shared by jump_fcontext and ontop_fcontext. */
  method SavePreserved(r0: Registers, m0: Mem) returns (r: Registers, mem: Mem)
    requires r0.rsp >= 0x40
    ensures r == r0.(rsp := r0.rsp - 0x40)
    ensures FrameHolds(SYSV, mem, r.rsp, r0.Preserved(), Load(m0, r0.rsp, 8))
    ensures SameOutside(m0, mem, r.rsp, r0.rsp)
  {
    r, mem := r0, m0;
    r := r.(rsp := r.rsp - 0x40);
    ghost var k := 0;
    mem := Store(mem, r.rsp, 4, r.mxcsr); k := k + 1;
    assert mem == StoreFields(SYSV, m0, r.rsp, r.Preserved(), k);
    mem := Store(mem, r.rsp + 0x4, 2, r.x87cw); k := k + 1;
    assert mem == StoreFields(SYSV, m0, r.rsp, r.Preserved(), k);
    mem := Store(mem, r.rsp + 0x10, 8, r.r12); k := k + 1;
    assert mem == StoreFields(SYSV, m0, r.rsp, r.Preserved(), k);
    mem := Store(mem, r.rsp + 0x18, 8, r.r13); k := k + 1;
    assert mem == StoreFields(SYSV, m0, r.rsp, r.Preserved(), k);
    mem := Store(mem, r.rsp + 0x20, 8, r.r14); k := k + 1;
    assert mem == StoreFields(SYSV, m0, r.rsp, r.Preserved(), k);
    mem := Store(mem, r.rsp + 0x28, 8, r.r15); k := k + 1;
    assert mem == StoreFields(SYSV, m0, r.rsp, r.Preserved(), k);
    mem := Store(mem, r.rsp + 0x30, 8, r.rbx); k := k + 1;
    assert mem == StoreFields(SYSV, m0, r.rsp, r.Preserved(), k);
    mem := Store(mem, r.rsp + 0x38, 8, r.rbp); k := k + 1;
    assert mem == StoreFields(SYSV, m0, r.rsp, r.Preserved(), k);
    SavedFrame(r0, m0);
  }

  /** The restore sequence shared by jump_fcontext and ontop_fcontext. */
  method RestorePreserved(r0: Registers, mem: Mem) returns (r: Registers)
    ensures FrameHolds(SYSV, mem, r0.rsp, r.Preserved(), Load(mem, r0.rsp + 0x40, 8))
    ensures r == r0.(mxcsr := r.mxcsr, x87cw := r.x87cw, r12 := r.r12, r13 := r.r13, r14 := r.r14, r15 := r.r15,
                     rbx := r.rbx, rbp := r.rbp)
  {
    r := r0;
    r := r.(mxcsr := Load(mem, r.rsp, 4));
    r := r.(x87cw := Load(mem, r.rsp + 0x4, 2));
    r := r.(r12 := Load(mem, r.rsp + 0x10, 8));
    r := r.(r13 := Load(mem, r.rsp + 0x18, 8));
    r := r.(r14 := Load(mem, r.rsp + 0x20, 8));
    r := r.(r15 := Load(mem, r.rsp + 0x28, 8));
    r := r.(rbx := Load(mem, r.rsp + 0x30, 8));
    r := r.(rbp := Load(mem, r.rsp + 0x38, 8));
    SlotBySlot(mem, r.rsp, r.Preserved(), Load(mem, r.rsp + 0x40, 8));
  }

  /** jump_fcontext(to = RDI, data = RSI). */
  method JumpFcontext(r0: Registers, m0: Mem) returns (r: Registers, mem: Mem)
    requires r0.rsp >= 0x40 && r0.rdi + 0x48 < LIMIT64
    requires r0.rdi + 0x48 <= r0.rsp - 0x40 || r0.rsp + 8 <= r0.rdi
    ensures Jumped(SYSV, r0.View(m0), r0.rdi, r0.rsi, r.View(mem))
    ensures r.rax == r.rdi == r0.rsp - 0x40 && r.rdx == r.rsi == r0.rsi
    ensures r.rsp == r0.rdi + 0x48 && r.rip == Load(m0, r0.rdi + 0x40, 8)
  {
    LayoutIsOk();
    r, mem := SavePreserved(r0, m0);
    r := r.(rax := r.rsp);
    r := r.(rsp := r.rdi);
    r := r.(r8 := Load(mem, r.rsp + 0x40, 8));
    r := RestorePreserved(r, mem);
    r := r.(rsp := r.rsp + 0x48);
    r := r.(rdx := r.rsi);
    r := r.(rdi := r.rax);
    r := r.(rip := r.r8);
    FieldsSame(SYSV, mem, m0, r0.rdi, r.Preserved(), r.rip);
  }

  /** ontop_fcontext(to = RDI, data = RSI, fn = RDX). */
  method OntopFcontext(r0: Registers, m0: Mem) returns (r: Registers, mem: Mem)
    requires r0.rsp >= 0x40 && r0.rdi + 0x40 < LIMIT64
    requires r0.rdi + 0x48 <= r0.rsp - 0x40 || r0.rsp + 8 <= r0.rdi
    ensures OntopEntered(SYSV, r0.View(m0), r0.rdi, r0.rsi, r0.rdx, r.View(mem))
    ensures r.rax == r.rdi == r0.rsp - 0x40 && r.rdx == r.rsi == r0.rsi
    ensures r.rsp == r0.rdi + 0x40 && r.rip == r0.rdx
  {
    LayoutIsOk();
    r := r0.(r8 := r0.rdx);
    r, mem := SavePreserved(r, m0);
    r := r.(rax := r.rsp);
    r := r.(rsp := r.rdi);
    r := RestorePreserved(r, mem);
    FieldsSame(SYSV, mem, m0, r.rsp, r.Preserved(), Load(mem, r.rsp + 0x40, 8));
    LoadSame(mem, m0, r.rsp + 0x40, 8);
    r := r.(rsp := r.rsp + 0x40);
    r := r.(rdx := r.rsi);
    r := r.(rdi := r.rax);
    r := r.(rip := r.r8);
  }

  /** make_fcontext(sp = RDI, size = RSI, fn = RDX) returns in RAX the highest frame
      below sp that the calling convention allows, and touches nothing else.  The last
      two parameters are the addresses of its labels trampoline and finish. */
  method MakeFcontext(r0: Registers, m0: Mem, trampoline: u64, finish: u64) returns (r: Registers, mem: Mem)
    requires r0.rdi >= 0x48 + 0xf && r0.rsp + 8 < LIMIT64
    requires r0.rdi <= r0.rsp || r0.rsp + 8 <= MadeAt(r0.rdi)
    ensures r.rax == MadeAt(r0.rdi) && r.rax % 16 == 8 && r0.rdi - 16 < r.rax + 0x48 <= r0.rdi
    ensures MadeFrame(mem, r.rax, r0.rdx, trampoline, finish)
    ensures Load(mem, r.rax, 4) == r0.mxcsr && Load(mem, r.rax + 4, 2) == r0.x87cw
    ensures SameOutside(m0, mem, r.rax, r.rax + 0x48)
    ensures r.Preserved() == r0.Preserved()
    ensures r.rip == Load(m0, r0.rsp, 8) && r.rsp == r0.rsp + 8
  {
    r, mem := r0, m0;
    r := r.(rax := r.rdi);
    r := r.(rax := r.rax - r.rax % 16);
    r := r.(rax := r.rax - 0x48);
    MadeInside(r0.rdi);
    mem := Store(mem, r.rax + 0x30, 8, r.rdx);
    mem := Store(mem, r.rax, 4, r.mxcsr);
    mem := Store(mem, r.rax + 0x4, 2, r.x87cw);
    r := r.(rcx := trampoline);
    mem := Store(mem, r.rax + 0x40, 8, r.rcx);
    r := r.(rcx := finish);
    mem := Store(mem, r.rax + 0x38, 8, r.rcx);
    BuiltFrame(m0, r.rax, r.rdx, r.mxcsr, r.x87cw, trampoline, finish);
    LoadSame(m0, mem, r.rsp, 8);
    r := r.(rip := Load(mem, r.rsp, 8));
    r := r.(rsp := r.rsp + 8);
  }

  /** The code at the label trampoline. */
  method Trampoline(r0: Registers, m0: Mem) returns (r: Registers, mem: Mem)
    requires r0.rsp >= 8
    ensures r == r0.(rsp := r0.rsp - 8, rip := r0.rbx)
    ensures Load(mem, r.rsp, 8) == r0.rbp && SameOutside(m0, mem, r.rsp, r0.rsp)
  {
    r, mem := r0, m0;
    r := r.(rsp := r.rsp - 8);
    StoreEffect(mem, r.rsp, 8, r.rbp);
    mem := Store(mem, r.rsp, 8, r.rbp);
    r := r.(rip := r.rbx);
  }

  /** The five stores of make_fcontext, in program order. */
  lemma BuiltFrame(m: Mem, f: int, fn: u64, mxcsr: u32, x87cw: u16, trampoline: u64, finish: u64)
    ensures var n := Store(Store(Store(Store(Store(m, f + 0x30, 8, fn), f, 4, mxcsr), f + 0x4, 2, x87cw),
                                 f + 0x40, 8, trampoline), f + 0x38, 8, finish);
            && MadeFrame(n, f, fn, trampoline, finish)
            && Load(n, f, 4) == mxcsr && Load(n, f + 4, 2) == x87cw
            && SameOutside(m, n, f, f + 0x48)
  {
    StoreEffect(m, f + 0x30, 8, fn);
    var m1 := Store(m, f + 0x30, 8, fn);
    StoreEffect(m1, f, 4, mxcsr);
    var m2 := Store(m1, f, 4, mxcsr);
    StoreEffect(m2, f + 0x4, 2, x87cw);
    var m3 := Store(m2, f + 0x4, 2, x87cw);
    StoreEffect(m3, f + 0x40, 8, trampoline);
    StoreEffect(Store(m3, f + 0x40, 8, trampoline), f + 0x38, 8, finish);
  }

  /** The address of the frame that make_fcontext builds below sp. */
  function MadeAt(sp: int): int {
    sp - sp % 16 - 0x48
  }

  lemma MadeInside(sp: int)
    ensures MadeAt(sp) % 16 == 8 && sp - 16 < MadeAt(sp) + 0x48 <= sp
  {
  }

  /** Where a frame holds which register. */
  lemma FieldsOf(m: Mem, f: int, r: Registers, pc: int)
    requires FrameHolds(SYSV, m, f, r.Preserved(), pc)
    ensures Load(m, f, 4) == r.mxcsr && Load(m, f + 0x4, 2) == r.x87cw
    ensures Load(m, f + 0x10, 8) == r.r12 && Load(m, f + 0x18, 8) == r.r13
    ensures Load(m, f + 0x20, 8) == r.r14 && Load(m, f + 0x28, 8) == r.r15
    ensures Load(m, f + 0x30, 8) == r.rbx && Load(m, f + 0x38, 8) == r.rbp
    ensures Load(m, f + 0x40, 8) == pc
  {
    forall i | 0 <= i < 8 ensures Field(m, f, SYSV.slots[i]) == r.Preserved()[i] {
    }
    assert Field(m, f, SYSV.slots[0]) == r.mxcsr && Field(m, f, SYSV.slots[1]) == r.x87cw;
    assert Field(m, f, SYSV.slots[2]) == r.r12 && Field(m, f, SYSV.slots[3]) == r.r13;
    assert Field(m, f, SYSV.slots[4]) == r.r14 && Field(m, f, SYSV.slots[5]) == r.r15;
    assert Field(m, f, SYSV.slots[6]) == r.rbx && Field(m, f, SYSV.slots[7]) == r.rbp;
  }

  /** The save sequence builds the caller's frame. */
  lemma SavedFrame(r: Registers, m: Mem)
    ensures FrameHolds(SYSV, StoreFields(SYSV, m, r.rsp - 0x40, r.Preserved(), 8), r.rsp - 0x40, r.Preserved(),
                       Load(m, r.rsp, 8))
    ensures SameOutside(m, StoreFields(SYSV, m, r.rsp - 0x40, r.Preserved(), 8), r.rsp - 0x40, r.rsp)
  {
    forall i | 0 <= i < 8 ensures Sized(r.Preserved()[i], SYSV.slots[i].width) {
    }
    StoredFrame(SYSV, 8, m, r.rsp - 0x40, r.Preserved());
  }

  lemma SlotBySlot(m: Mem, f: int, regs: seq<int>, pc: int)
    requires |regs| == 8
    requires Load(m, f, 4) == regs[0] && Load(m, f + 0x4, 2) == regs[1]
    requires Load(m, f + 0x10, 8) == regs[2] && Load(m, f + 0x18, 8) == regs[3]
    requires Load(m, f + 0x20, 8) == regs[4] && Load(m, f + 0x28, 8) == regs[5]
    requires Load(m, f + 0x30, 8) == regs[6] && Load(m, f + 0x38, 8) == regs[7]
    requires Load(m, f + 0x40, 8) == pc
    ensures FrameHolds(SYSV, m, f, regs, pc)
  {
  }

  // ---------- Whole runs ----------

  /** A call of make_fcontext is a step of a run, for every stack that holds the frame. */
  lemma MakeIsAStep(s: Machine, id: Id, lo: int, hi: int, sp: int, m: Mem)
    requires s.running in s.ctxs && OwnStack(s, id, lo, hi) && lo <= MadeAt(sp) && sp <= hi
    requires SameOutside(s.cpu.mem, m, MadeAt(sp), MadeAt(sp) + 0x48)
    ensures Next(SYSV, s, Make(id, lo, hi, MadeAt(sp)), WithMade(s, id, lo, hi, MadeAt(sp), m))
  {
  }

  /** Whatever happened before, a caller that keeps the calling convention meets what
      JumpFcontext and OntopFcontext rely on, and RSP is aligned as at a call. */
  lemma SwitchIsAlwaysPossible(ss: seq<Machine>, ops: seq<Op>, i: nat, t: Id, r: Registers)
    requires IsRun(SYSV, ss, ops) && i < |ss| && MayLeave(SYSV, ss[i], t)
    requires ss[i].cpu.sp == r.rsp && ss[i].ctxs[t].handle == Some(r.rdi)
    ensures r.rdi + 0x48 <= r.rsp - 0x40 || r.rsp + 8 <= r.rdi
    ensures r.rdi % 16 == 8 && (r.rsp - 0x40) % 16 == 8
  {
    LayoutIsOk();
    HandlesAreLinear(SYSV, ss, ops, i);
    TargetFrameIsClear(SYSV, ss[i], t);
  }

  /** Between leaving and being resumed a context loses none of R12-R15, RBX, RBP, MXCSR
      and the x87 control word, and jump_fcontext returns to its caller: RSP is eight
      above its value at the call, PC is the return address that lay there. */
  lemma SysVIsolation(ss: seq<Machine>, ops: seq<Op>, c: Id, i: nat, j: nat)
    requires IsRun(SYSV, ss, ops) && 0 < j < |ss|
    requires AwaySince(ss, c, i, j - 1) && ss[j].running == c
    ensures ss[j].cpu.regs == ss[i].cpu.regs
    ensures ops[j - 1].Jump? ==>
              && ss[j].cpu.sp == ss[i].cpu.sp + 8
              && ss[j].cpu.pc == Load(ss[i].cpu.mem, ss[i].cpu.sp, 8)
    ensures ops[j - 1].Ontop? ==>
              && ss[j].cpu.sp == ss[i].cpu.sp
              && Load(ss[j].cpu.mem, ss[j].cpu.sp, 8) == Load(ss[i].cpu.mem, ss[i].cpu.sp, 8)
    ensures ops[j - 1].Jump? || ops[j - 1].Ontop?
  {
    LayoutIsOk();
    FiberIsolation(SYSV, ss, ops, c, i, j);
  }

  /** SysVIsolation in terms of the registers: r as context c leaves and r' as it is resumed. */
  lemma RegistersComeBack(ss: seq<Machine>, ops: seq<Op>, c: Id, i: nat, j: nat, r: Registers, r': Registers)
    requires IsRun(SYSV, ss, ops) && 0 < j < |ss|
    requires AwaySince(ss, c, i, j - 1) && ss[j].running == c
    requires ss[i].cpu == r.View(ss[i].cpu.mem) && ss[j].cpu == r'.View(ss[j].cpu.mem)
    ensures r'.r12 == r.r12 && r'.r13 == r.r13 && r'.r14 == r.r14 && r'.r15 == r.r15
    ensures r'.rbx == r.rbx && r'.rbp == r.rbp && r'.mxcsr == r.mxcsr && r'.x87cw == r.x87cw
    ensures r'.rax == ss[j - 1].cpu.sp - 0x40 && r'.rdx == ops[j - 1].data
    ensures ops[j - 1].Jump? ==> r'.rsp == r.rsp + 8 && r'.rip == Load(ss[i].cpu.mem, r.rsp, 8)
  {
    FiberIsolation(SYSV, ss, ops, c, i, j);
    assert r.Preserved() == r'.Preserved();
    assert r.Preserved()[0] == r.mxcsr && r.Preserved()[1] == r.x87cw && r.Preserved()[2] == r.r12;
    assert r.Preserved()[3] == r.r13 && r.Preserved()[4] == r.r14 && r.Preserved()[5] == r.r15;
    assert r.Preserved()[6] == r.rbx && r.Preserved()[7] == r.rbp;
  }

  /** A jump to a made frame followed by the trampoline calls the function. */
  lemma EntersFunction(a: Cpu, f: int, data: int, r: Registers, m: Mem, e: Registers, n: Mem,
                       fn: int, trampoline: int, finish: int)
    requires |a.regs| == 8
    requires MadeFrame(a.mem, f, fn, trampoline, finish) && f % 16 == 8
    requires Jumped(SYSV, a, f, data, r.View(m)) && r.rdi == r.rax && r.rsi == r.rdx && r.rsp >= 8
    requires e == r.(rsp := r.rsp - 8, rip := r.rbx) && Load(n, e.rsp, 8) == r.rbp
    ensures r.rip == trampoline
    ensures e.rip == fn && Load(n, e.rsp, 8) == finish && e.rsp == f + 0x40 && (e.rsp + 8) % 16 == 0
    ensures e.rdi == a.sp - 0x40 && e.rsi == data
  {
    FieldsOf(a.mem, f, r, r.rip);
    Entered(f, e.rsp);
  }

  lemma Entered(f: int, sp: int)
    requires f % 16 == 8 && sp == f + 0x40
    ensures (sp + 8) % 16 == 0
  {
  }

  lemma MadeFrameKept(m: Mem, n: Mem, f: int, fn: int, trampoline: int, finish: int)
    requires SameOn(m, n, f, f + 0x48) && MadeFrame(m, f, fn, trampoline, finish)
    ensures MadeFrame(n, f, fn, trampoline, finish)
  {
    LoadSame(m, n, f + 0x30, 8);
    LoadSame(m, n, f + 0x38, 8);
    LoadSame(m, n, f + 0x40, 8);
  }

  /** However long a made context waits, its first jump and the trampoline enter `fn`
      with the stack aligned as at a call, `finish` as the return address, and in RDI and RSI
      the frame of the jumper and its data. */
  lemma FirstEntry(ss: seq<Machine>, ops: seq<Op>, c: Id, i: nat, j: nat, f: int, lo: int, hi: int, data: int,
                   r: Registers, e: Registers, n: Mem, fn: int, trampoline: int, finish: int)
    requires IsRun(SYSV, ss, ops) && i + 1 < j < |ss|
    requires ops[i] == Make(c, lo, hi, f)
    requires MadeFrame(ss[i + 1].cpu.mem, f, fn, trampoline, finish)
    requires forall m :: i < m < j ==> ss[m].running != c && c in ss[m].ctxs
    requires ss[j].running == c && |ss[j - 1].cpu.regs| == 8
    requires ss[j].cpu == r.View(ss[j].cpu.mem) && r.rdi == r.rax && r.rsi == r.rdx && r.rsp >= 8
    requires Jumped(SYSV, ss[j - 1].cpu, f, data, ss[j].cpu)
    requires e == r.(rsp := r.rsp - 8, rip := r.rbx) && Load(n, e.rsp, 8) == r.rbp
    ensures r.rip == trampoline
    ensures e.rip == fn && Load(n, e.rsp, 8) == finish && (e.rsp + 8) % 16 == 0
    ensures e.rdi == ss[j - 1].cpu.sp - 0x40 && e.rsi == data
    ensures lo <= e.rsp && e.rsp + 8 <= hi
  {
    LayoutIsOk();
    assert Next(SYSV, ss[i], ops[i], ss[i + 1]);
    assert ss[i + 1].ctxs[c].handle == Some(f);
    MadeFrameWaits(SYSV, ss, ops, c, i + 1, j - 1);
    MadeFrameKept(ss[i + 1].cpu.mem, ss[j - 1].cpu.mem, f, fn, trampoline, finish);
    EntersFunction(ss[j - 1].cpu, f, data, r, ss[j].cpu.mem, e, n, fn, trampoline, finish);
  }
}
