/** The System V i386 jump and make: src/asm/{jump,make}_i386_sysv_elf_gas.S without
    BOOST_USE_TSX and the TLS stack protector.  One path serves first entry and
    resumption: the transfer is written through the hidden pointer of the target before
    the target's registers are loaded. */
module I386 {
  import opened Wrappers
  import opened Memory
  import opened Frame
  import opened Kernel

  // MXCSR, x87 control word, EDI, ESI, EBX, EBP; above them EIP and the hidden pointer,
  // which the caller has pushed.
  const LAYOUT := Layout(
    [Slot(0x0, 4), Slot(0x4, 2), Slot(0xc, 4), Slot(0x10, 4), Slot(0x14, 4), Slot(0x18, 4), Slot(0x20, 4)],
    Slot(0x1c, 4), OnStack, 0x1c, 0x24, 0x24, 0x1c, Some(HIDDEN), 8, 16, 0, 12)

  const HIDDEN := 6

  datatype Registers = Registers(
    eax: u32, ebx: u32, ecx: u32, edx: u32, esi: u32, edi: u32, ebp: u32, esp: u32,
    mxcsr: u32, x87cw: u16, eip: u32)
  {
    function With(hidden: u32): seq<int> {
      [mxcsr, x87cw, edi, esi, ebx, ebp, hidden]
    }

    /** At a call the hidden pointer is above the return address. */
    function Before(mem: Mem): Cpu {
      Cpu(With(Load(mem, esp + 4, 4)), esp, eip, mem, Transfer(0, 0))
    }

    /** A call returns it in EAX; the transfer lies where it points. */
    function After(mem: Mem): Cpu {
      Cpu(With(eax), esp, eip, mem, Transfer(Load(mem, eax, 4), Load(mem, eax + 4, 4)))
    }
  }

  method SavePreserved(r0: Registers, m0: Mem) returns (r: Registers, mem: Mem)
    requires r0.esp >= 0x1c
    ensures r == r0.(esp := r0.esp - 0x1c)
    ensures FrameHolds(LAYOUT, mem, r.esp, r0.Before(m0).regs, Load(m0, r0.esp, 4))
    ensures SameOutside(m0, mem, r.esp, r0.esp)
  {
    r, mem := r0.(esp := r0.esp - 0x1c), m0;
    ghost var regs, k := r0.Before(m0).regs, 0;
    mem := Store(mem, r.esp, 4, r.mxcsr); k := k + 1;
    assert mem == StoreFields(LAYOUT, m0, r.esp, regs, k);
    mem := Store(mem, r.esp + 0x4, 2, r.x87cw); k := k + 1;
    assert mem == StoreFields(LAYOUT, m0, r.esp, regs, k);
    mem := Store(mem, r.esp + 0xc, 4, r.edi); k := k + 1;
    assert mem == StoreFields(LAYOUT, m0, r.esp, regs, k);
    mem := Store(mem, r.esp + 0x10, 4, r.esi); k := k + 1;
    assert mem == StoreFields(LAYOUT, m0, r.esp, regs, k);
    mem := Store(mem, r.esp + 0x14, 4, r.ebx); k := k + 1;
    assert mem == StoreFields(LAYOUT, m0, r.esp, regs, k);
    mem := Store(mem, r.esp + 0x18, 4, r.ebp); k := k + 1;
    assert mem == StoreFields(LAYOUT, m0, r.esp, regs, k);
    SavedFrame(r0, m0);
  }

  lemma SavedFrame(r: Registers, m: Mem)
    ensures var regs, f := r.Before(m).regs, r.esp - 0x1c;
            && FrameHolds(LAYOUT, StoreFields(LAYOUT, m, f, regs, 6), f, regs, Load(m, r.esp, 4))
            && SameOutside(m, StoreFields(LAYOUT, m, f, regs, 6), f, r.esp)
  {
    var regs := r.Before(m).regs;
    forall i | 0 <= i < 6 ensures Sized(regs[i], LAYOUT.slots[i].width) {
    }
    StoredFrame(LAYOUT, 6, m, r.esp - 0x1c, regs);
  }

  /** Where a frame holds which register; its last word is the hidden pointer. */
  lemma FieldsOf(m: Mem, f: int, r: Registers, h: u32, pc: int)
    requires FrameHolds(LAYOUT, m, f, r.With(h), pc)
    ensures Load(m, f, 4) == r.mxcsr && Load(m, f + 0x4, 2) == r.x87cw
    ensures Load(m, f + 0xc, 4) == r.edi && Load(m, f + 0x10, 4) == r.esi
    ensures Load(m, f + 0x14, 4) == r.ebx && Load(m, f + 0x18, 4) == r.ebp
    ensures Load(m, f + 0x1c, 4) == pc && Load(m, f + 0x20, 4) == h
  {
    assert Field(m, f, LAYOUT.slots[0]) == r.mxcsr && Field(m, f, LAYOUT.slots[1]) == r.x87cw;
    assert Field(m, f, LAYOUT.slots[2]) == r.edi && Field(m, f, LAYOUT.slots[3]) == r.esi;
    assert Field(m, f, LAYOUT.slots[4]) == r.ebx && Field(m, f, LAYOUT.slots[5]) == r.ebp;
    assert Field(m, f, LAYOUT.slots[6]) == h;
  }

  // The arguments of jump_fcontext, all on the caller's stack, and the target's hidden pointer.
  function To(r: Registers, m: Mem): u32 { Load(m, r.esp + 8, 4) }
  function Data(r: Registers, m: Mem): u32 { Load(m, r.esp + 12, 4) }
  function Hidden(r: Registers, m: Mem): u32 { Load(m, To(r, m) + 0x20, 4) }

  /** The target frame and its transfer record are clear of the frame that is built.  The
      record lies in the target's stack outside its frame or, for a made context, in the
      EDI and ESI slots of the frame itself. */
  predicate TargetOk(r: Registers, m: Mem) {
    var to, h := To(r, m), Hidden(r, m);
    && r.esp >= 0x1c && r.esp + 0x10 < LIMIT32 && to + 0x24 < LIMIT32
    && (h + 8 <= to || to + 0x24 <= h || h == to + 0xc)
    && (to + 0x24 <= r.esp - 0x1c || r.esp + 8 <= to)
    && (h + 8 <= r.esp - 0x1c || r.esp + 8 <= h)
  }

  /** The registers were loaded from the frame at `to`. */
  predicate LoadedFrom(r: Registers, m: Mem, to: int) {
    && r.mxcsr == Load(m, to, 4) && r.x87cw == Load(m, to + 4, 2)
    && r.edi == Load(m, to + 0xc, 4) && r.esi == Load(m, to + 0x10, 4)
    && r.ebx == Load(m, to + 0x14, 4) && r.ebp == Load(m, to + 0x18, 4)
    && r.eip == Load(m, to + 0x1c, 4) && r.esp == to + 0x24
  }

  /** jump_fcontext(hidden, to, data). */
  method JumpFcontext(r0: Registers, m0: Mem) returns (r: Registers, mem: Mem)
    requires TargetOk(r0, m0)
    ensures Hidden(r0, m0) != To(r0, m0) + 0xc ==> Jumped(LAYOUT, r0.Before(m0), To(r0, m0), Data(r0, m0), r.After(mem))
    ensures Hidden(r0, m0) == To(r0, m0) + 0xc ==> EnteredFrame(r0.Before(m0), To(r0, m0), Data(r0, m0), r, mem)
    ensures var to := Load(m0, r0.esp + 8, 4);
            && r.eax == Load(m0, to + 0x20, 4) && r.esp == to + 0x24 && r.eip == Load(m0, to + 0x1c, 4)
            && Load(mem, r.eax, 4) == r0.esp - 0x1c && Load(mem, r.eax + 4, 4) == Load(m0, r0.esp + 12, 4)
  {
    LayoutIsOk();
    r, mem := SavePreserved(r0, m0);
    ghost var saved := mem;
    ArgumentsStay(r0, m0, saved);
    r, mem := Deliver(r, mem);
    ghost var d := r;
    r := LoadFrame(r, mem);
    StepsTaken(r0, m0, saved, d, r, mem);
    Concluded(r0, m0, saved, r, mem);
  }

  /** From the saved frame on: fetches the arguments, switches to the target's frame and
      writes the transfer through its hidden pointer. */
  method Deliver(r0: Registers, m0: Mem) returns (r: Registers, mem: Mem)
    ensures var to := Load(m0, r0.esp + 0x24, 4); var h := Load(m0, to + 0x20, 4);
            && r.esp == to && r.eax == h
            && Load(mem, h, 4) == r0.esp && Load(mem, h + 4, 4) == Load(m0, r0.esp + 0x28, 4)
            && SameOutside(m0, mem, h, h + 8)
  {
    r, mem := r0, m0;
    r := r.(ecx := r.esp);
    r := r.(eax := Load(mem, r.esp + 0x24, 4));
    r := r.(edx := Load(mem, r.esp + 0x28, 4));
    r := r.(esp := r.eax);
    r := r.(eax := Load(mem, r.esp + 0x20, 4));
    TwoStores(mem, r.eax, 4, r.ecx, r.edx);
    mem := Store(mem, r.eax, 4, r.ecx);
    mem := Store(mem, r.eax + 4, 4, r.edx);
  }

  /** The restore sequence: everything after the transfer has been written. */
  method LoadFrame(r0: Registers, mem: Mem) returns (r: Registers)
    requires r0.esp + 0x24 < LIMIT32
    ensures LoadedFrom(r, mem, r0.esp) && r.eax == r0.eax
  {
    r := r0.(ecx := Load(mem, r0.esp + 0x1c, 4));
    r := r.(mxcsr := Load(mem, r.esp, 4));
    r := r.(x87cw := Load(mem, r.esp + 0x4, 2));
    r := r.(edi := Load(mem, r.esp + 0xc, 4));
    r := r.(esi := Load(mem, r.esp + 0x10, 4));
    r := r.(ebx := Load(mem, r.esp + 0x14, 4));
    r := r.(ebp := Load(mem, r.esp + 0x18, 4));
    r := r.(esp := r.esp + 0x24);
    r := r.(eip := r.ecx);
  }

  lemma ArgumentsStay(r: Registers, m: Mem, saved: Mem)
    requires TargetOk(r, m) && SameOutside(m, saved, r.esp - 0x1c, r.esp)
    ensures To(r, saved) == To(r, m) && Data(r, saved) == Data(r, m) && Hidden(r, saved) == Hidden(r, m)
  {
    LoadSame(m, saved, r.esp + 8, 4);
    LoadSame(m, saved, r.esp + 12, 4);
    LoadSame(m, saved, To(r, m) + 0x20, 4);
  }

  /** What entering a made context does: the transfer arrives in EDI and ESI. */
  ghost predicate EnteredFrame(a: Cpu, to: int, data: int, r: Registers, m: Mem)
    requires |a.regs| == 7
  {
    && FrameHolds(LAYOUT, m, a.sp - 0x1c, a.regs, ReturnAddress(LAYOUT, a))
    && r.edi == a.sp - 0x1c && r.esi == data
    && r.ebx == Load(a.mem, to + 0x14, 4) && r.ebp == Load(a.mem, to + 0x18, 4)
    && r.mxcsr == Load(a.mem, to, 4) && r.x87cw == Load(a.mem, to + 4, 2)
    && r.eip == Load(a.mem, to + 0x1c, 4) && r.esp == to + 0x24
    && forall x :: !(a.sp - 0x1c <= x < a.sp) && !(to + 0xc <= x < to + 0x14) ==> Peek(m, x) == Peek(a.mem, x)
  }

  /** The caller's frame was saved, then the transfer delivered, then the target loaded. */
  ghost predicate ThreeSteps(r0: Registers, m0: Mem, saved: Mem, r: Registers, m: Mem) {
    var h := Hidden(r0, m0);
    && TargetOk(r0, m0)
    && FrameHolds(LAYOUT, saved, r0.esp - 0x1c, r0.Before(m0).regs, Load(m0, r0.esp, 4))
    && SameOutside(m0, saved, r0.esp - 0x1c, r0.esp)
    && SameOutside(saved, m, h, h + 8)
    && Load(m, h, 4) == r0.esp - 0x1c && Load(m, h + 4, 4) == Data(r0, m0)
    && LoadedFrom(r, m, To(r0, m0)) && r.eax == h
  }

  lemma StepsTaken(r0: Registers, m0: Mem, saved: Mem, d: Registers, r: Registers, m: Mem)
    requires TargetOk(r0, m0)
    requires FrameHolds(LAYOUT, saved, r0.esp - 0x1c, r0.Before(m0).regs, Load(m0, r0.esp, 4))
    requires SameOutside(m0, saved, r0.esp - 0x1c, r0.esp)
    requires d.esp == To(r0, m0) && d.eax == Hidden(r0, m0) && SameOutside(saved, m, d.eax, d.eax + 8)
    requires Load(m, d.eax, 4) == r0.esp - 0x1c && Load(m, d.eax + 4, 4) == Data(r0, m0)
    requires LoadedFrom(r, m, d.esp) && r.eax == d.eax
    ensures ThreeSteps(r0, m0, saved, r, m)
  {
  }

  lemma FirstEntered(r0: Registers, m0: Mem, saved: Mem, r: Registers, m: Mem)
    requires ThreeSteps(r0, m0, saved, r, m) && Hidden(r0, m0) == To(r0, m0) + 0xc
    ensures EnteredFrame(r0.Before(m0), To(r0, m0), Data(r0, m0), r, m)
  {
    LayoutIsOk();
    var to := To(r0, m0);
    FieldsSame(LAYOUT, saved, m, r0.esp - 0x1c, r0.Before(m0).regs, Load(m0, r0.esp, 4));
    LoadSame(m0, m, to, 4);
    LoadSame(m0, m, to + 4, 2);
    LoadSame(m0, m, to + 0x14, 4);
    LoadSame(m0, m, to + 0x18, 4);
    LoadSame(m0, m, to + 0x1c, 4);
  }

  lemma Resumed(r0: Registers, m0: Mem, saved: Mem, r: Registers, m: Mem)
    requires ThreeSteps(r0, m0, saved, r, m) && Hidden(r0, m0) != To(r0, m0) + 0xc
    ensures Jumped(LAYOUT, r0.Before(m0), To(r0, m0), Data(r0, m0), r.After(m))
  {
    LayoutIsOk();
    var to, h := To(r0, m0), Hidden(r0, m0);
    FieldsSame(LAYOUT, saved, m, r0.esp - 0x1c, r0.Before(m0).regs, Load(m0, r0.esp, 4));
    assert SameOn(m, m0, to, to + 0x24);
    LoadSame(m0, m, to + 0x20, 4);
    AllFields(m, to, r, h);
    FieldsSame(LAYOUT, m, m0, to, r.With(h), r.eip);
    assert Field(m0, to, LAYOUT.slots[HIDDEN]) == h;
  }

  lemma AllFields(m: Mem, to: int, r: Registers, h: u32)
    requires LoadedFrom(r, m, to) && h == Load(m, to + 0x20, 4)
    ensures FrameHolds(LAYOUT, m, to, r.With(h), r.eip)
  {
  }

  lemma Concluded(r0: Registers, m0: Mem, saved: Mem, r: Registers, m: Mem)
    requires ThreeSteps(r0, m0, saved, r, m)
    ensures Hidden(r0, m0) != To(r0, m0) + 0xc ==> Jumped(LAYOUT, r0.Before(m0), To(r0, m0), Data(r0, m0), r.After(m))
    ensures Hidden(r0, m0) == To(r0, m0) + 0xc ==> EnteredFrame(r0.Before(m0), To(r0, m0), Data(r0, m0), r, m)
    ensures var to := Load(m0, r0.esp + 8, 4);
            && r.eax == Load(m0, to + 0x20, 4) && r.esp == to + 0x24 && r.eip == Load(m0, to + 0x1c, 4)
            && Load(m, r.eax, 4) == r0.esp - 0x1c && Load(m, r.eax + 4, 4) == Load(m0, r0.esp + 12, 4)
  {
    if Hidden(r0, m0) == To(r0, m0) + 0xc {
      FirstEntered(r0, m0, saved, r, m);
    } else {
      Resumed(r0, m0, saved, r, m);
    }
  }

  // ---------- Made contexts ----------

  /** The address of the frame that make_fcontext builds below sp: room for one argument,
      then aligned, then 0x34 bytes. */
  function MadeAt(sp: int): int {
    (sp - 8) - (sp - 8) % 16 - 0x34
  }

  lemma MadeInside(sp: int)
    ensures (MadeAt(sp) + 0x24) % 16 == 0 && sp - 8 - 16 < MadeAt(sp) + 0x34 <= sp - 8
  {
  }

  /** Only the frame at f and the word at `here` differ. */
  ghost predicate WritesAt(m: Mem, n: Mem, f: int, here: int) {
    forall x :: !(f <= x < f + 0x24) && !(here <= x < here + 4) ==> Peek(n, x) == Peek(m, x)
  }

  ghost predicate MadeFrame(m: Mem, f: int, fn: int, trampoline: int, finish: int) {
    && Load(m, f + 0x14, 4) == fn && Load(m, f + 0x18, 4) == finish && Load(m, f + 0x1c, 4) == trampoline
    && Load(m, f + 0x20, 4) == f + 0xc
  }

  /** The stores of make_fcontext; `here` is where `call` pushes the addresses l1 and l2
      of the two labels that it takes off again. */
  function Built(m: Mem, f: int, fn: u32, mxcsr: u32, x87cw: u16, record: u32, here: int, l1: u32, trampoline: u32,
                 l2: u32, finish: u32): Mem {
    var m1 := Store(Store(Store(Store(m, f + 0x14, 4, fn), f, 4, mxcsr), f + 4, 2, x87cw), f + 0x20, 4, record);
    Store(Store(Store(Store(m1, here, 4, l1), f + 0x1c, 4, trampoline), here, 4, l2), f + 0x18, 4, finish)
  }

  lemma BuiltFrame(m: Mem, f: int, fn: u32, mxcsr: u32, x87cw: u16, here: int, l1: u32, trampoline: u32, l2: u32,
                   finish: u32)
    requires 0 <= f && f + 0xc < LIMIT32 && (f + 0x24 <= here || here + 4 <= f)
    ensures var n := Built(m, f, fn, mxcsr, x87cw, f + 0xc, here, l1, trampoline, l2, finish);
            && MadeFrame(n, f, fn, trampoline, finish) && Load(n, f, 4) == mxcsr && Load(n, f + 4, 2) == x87cw
            && WritesAt(m, n, f, here)
  {
    var m1 := Store(m, f + 0x14, 4, fn);
    var m2 := Store(m1, f, 4, mxcsr);
    var m3 := Store(m2, f + 4, 2, x87cw);
    var m4 := Store(m3, f + 0x20, 4, f + 0xc);
    var m5 := Store(m4, here, 4, l1);
    var m6 := Store(m5, f + 0x1c, 4, trampoline);
    var m7 := Store(m6, here, 4, l2);
    StoreEffect(m, f + 0x14, 4, fn);
    StoreEffect(m1, f, 4, mxcsr);
    StoreEffect(m2, f + 4, 2, x87cw);
    StoreEffect(m3, f + 0x20, 4, f + 0xc);
    StoreEffect(m4, here, 4, l1);
    StoreEffect(m5, f + 0x1c, 4, trampoline);
    StoreEffect(m6, here, 4, l2);
    StoreEffect(m7, f + 0x18, 4, finish);
  }

  /** make_fcontext(sp, size, fn), with the addresses of the labels 1, trampoline, 2 and
      finish; an address is computed as the popped label plus the distance to it. */
  method MakeFcontext(r0: Registers, m0: Mem, l1: u32, trampoline: u32, l2: u32, finish: u32)
      returns (r: Registers, mem: Mem)
    requires r0.esp >= 4 && r0.esp + 0x10 < LIMIT32
    requires var sp := Load(m0, r0.esp + 4, 4);
             sp >= 0x4c && (MadeAt(sp) + 0x24 <= r0.esp - 4 || r0.esp + 0x10 <= MadeAt(sp))
    ensures var sp, fn := Load(m0, r0.esp + 4, 4), Load(m0, r0.esp + 0xc, 4); var f := MadeAt(sp);
            && r.eax == f && (f + 0x24) % 16 == 0 && sp - 8 - 16 < f + 0x34 <= sp - 8
            && MadeFrame(mem, f, fn, trampoline, finish)
            && Load(mem, f, 4) == r0.mxcsr && Load(mem, f + 4, 2) == r0.x87cw
            && WritesAt(m0, mem, f, r0.esp - 4)
    ensures r.eip == Load(m0, r0.esp, 4) && r.esp == r0.esp + 4
  {
    r, mem := r0, m0;
    r := r.(eax := Load(mem, r.esp + 4, 4));
    MadeInside(r.eax);
    r := r.(eax := r.eax - 8);
    r := r.(eax := r.eax - r.eax % 16);
    r := r.(eax := r.eax - 0x34);
    r := r.(ecx := Load(mem, r.esp + 0xc, 4));
    ghost var fn := r.ecx;
    mem := MakeStores(r, mem, l1, trampoline, l2, finish);
    BuiltFrame(m0, r.eax, fn, r.mxcsr, r.x87cw, r.esp - 4, l1, trampoline, l2, finish);
    LoadSame(m0, mem, r.esp, 4);
    r := r.(ecx := finish);
    r := r.(eip := Load(mem, r.esp, 4));
    r := r.(esp := r.esp + 4);
  }

  method MakeStores(r: Registers, m0: Mem, l1: u32, trampoline: u32, l2: u32, finish: u32) returns (mem: Mem)
    requires r.esp >= 4 && r.eax + 0xc < LIMIT32
    ensures mem == Built(m0, r.eax, r.ecx, r.mxcsr, r.x87cw, r.eax + 0xc, r.esp - 4, l1, trampoline, l2, finish)
  {
    var ecx := r.ecx;
    mem := Store(m0, r.eax + 0x14, 4, ecx);
    mem := Store(mem, r.eax, 4, r.mxcsr);
    mem := Store(mem, r.eax + 4, 2, r.x87cw);
    ecx := r.eax + 0xc;
    mem := Store(mem, r.eax + 0x20, 4, ecx);
    mem := Store(mem, r.esp - 4, 4, l1);
    ecx := (l1 + (trampoline - l1)) % LIMIT32;
    mem := Store(mem, r.eax + 0x1c, 4, ecx);
    mem := Store(mem, r.esp - 4, 4, l2);
    ecx := (l2 + (finish - l2)) % LIMIT32;
    mem := Store(mem, r.eax + 0x18, 4, ecx);
  }

  /** The code at the label trampoline. */
  method Trampoline(r0: Registers, m0: Mem) returns (r: Registers, mem: Mem)
    requires 4 <= r0.esp
    ensures r == r0.(esp := r0.esp - 4, eip := r0.ebx)
    ensures Load(mem, r.esp, 4) == r0.ebp && Load(mem, r.esp + 4, 4) == r0.edi && Load(mem, r.esp + 8, 4) == r0.esi
    ensures SameOutside(m0, mem, r.esp, r.esp + 12)
  {
    r, mem := r0, m0;
    StoreEffect(mem, r.esp, 4, r.edi);
    mem := Store(mem, r.esp, 4, r.edi);
    StoreEffect(mem, r.esp + 4, 4, r.esi);
    mem := Store(mem, r.esp + 4, 4, r.esi);
    r := r.(esp := r.esp - 4);
    StoreEffect(mem, r.esp, 4, r.ebp);
    mem := Store(mem, r.esp, 4, r.ebp);
    r := r.(eip := r.ebx);
  }

  // ---------- Whole runs ----------

  lemma LayoutIsOk()
    ensures LayoutOk(LAYOUT)
  {
  }

  /** A call of make_fcontext is a step of a run, for every stack that holds the frame; the
      word that its own calls push lies in the running context's stack. */
  lemma MakeIsAStep(s: Machine, id: Id, lo: int, hi: int, sp: int, m: Mem)
    requires s.running in s.ctxs && OwnStack(s, id, lo, hi) && lo <= MadeAt(sp) && sp <= hi
    requires s.ctxs[s.running].lo <= s.cpu.sp - 4 && s.cpu.sp <= s.ctxs[s.running].hi
    requires WritesAt(s.cpu.mem, m, MadeAt(sp), s.cpu.sp - 4)
    ensures Next(LAYOUT, s, Make(id, lo, hi, MadeAt(sp)), WithMade(s, id, lo, hi, MadeAt(sp), m))
  {
  }

  lemma MadeFrameKept(m: Mem, n: Mem, f: int, fn: int, trampoline: int, finish: int)
    requires SameOn(m, n, f, f + 0x24) && MadeFrame(m, f, fn, trampoline, finish)
    ensures MadeFrame(n, f, fn, trampoline, finish)
  {
    LoadSame(m, n, f + 0x14, 4);
    LoadSame(m, n, f + 0x18, 4);
    LoadSame(m, n, f + 0x1c, 4);
    LoadSame(m, n, f + 0x20, 4);
  }

  /** Whatever happened before, a caller that keeps the calling convention meets what
      JumpFcontext relies on, and the hidden pointer tells a made context from a resumed one. */
  lemma SwitchIsAlwaysPossible(ss: seq<Machine>, ops: seq<Op>, i: nat, t: Id, r: Registers, fn: int, trampoline: int,
                               finish: int)
    requires IsRun(LAYOUT, ss, ops) && i < |ss| && MayLeave(LAYOUT, ss[i], t)
    requires ss[i].cpu.sp == r.esp && ss[i].cpu.regs[HIDDEN] == Load(ss[i].cpu.mem, r.esp + 4, 4)
    requires r.esp >= 0x1c && r.esp + 0x10 < LIMIT32
    requires ss[i].ctxs[t].handle == Some(To(r, ss[i].cpu.mem)) && To(r, ss[i].cpu.mem) + 0x24 < LIMIT32
    requires ss[i].ctxs[t].unentered ==> MadeFrame(ss[i].cpu.mem, To(r, ss[i].cpu.mem), fn, trampoline, finish)
    ensures TargetOk(r, ss[i].cpu.mem)
    ensures Hidden(r, ss[i].cpu.mem) == To(r, ss[i].cpu.mem) + 0xc <==> ss[i].ctxs[t].unentered
  {
    LayoutIsOk();
    var s := ss[i];
    HandlesAreLinear(LAYOUT, ss, ops, i);
    assert Apart(s, t, s.running) && FrameInPlace(LAYOUT, s.cpu.mem, s.ctxs[t]);
    assert RecordAddress(LAYOUT, s.cpu.mem, To(r, s.cpu.mem)) == Hidden(r, s.cpu.mem);
  }

  /** Entering a made context is a step of a run: nothing changes but the caller's new
      frame and the stack that is entered. */
  lemma FirstEntryIsAStep(s: Machine, t: Id, data: int, r: Registers, m: Mem)
    requires Linear(LAYOUT, s) && MayLeave(LAYOUT, s, t) && s.ctxs[t].unentered
    requires EnteredFrame(s.cpu, s.ctxs[t].handle.value, data, r, m)
    ensures Next(LAYOUT, s, Jump(t, data), Machine(r.After(m), t, Exchanged(LAYOUT, s, t)))
  {
    LayoutIsOk();
    FirstEntryEnters(LAYOUT, s, t, data, r.After(m));
  }

  /** However long a made context waits, its frame is as make_fcontext left it. */
  lemma MadeFrameAtEntry(ss: seq<Machine>, ops: seq<Op>, c: Id, i: nat, j: nat, lo: int, hi: int, f: int,
                         fn: int, trampoline: int, finish: int)
    requires IsRun(LAYOUT, ss, ops) && i + 1 < j < |ss|
    requires ops[i] == Make(c, lo, hi, f)
    requires MadeFrame(ss[i + 1].cpu.mem, f, fn, trampoline, finish)
    requires forall m :: i < m < j ==> ss[m].running != c && c in ss[m].ctxs
    ensures MadeFrame(ss[j - 1].cpu.mem, f, fn, trampoline, finish) && lo <= f
  {
    LayoutIsOk();
    assert Next(LAYOUT, ss[i], ops[i], ss[i + 1]);
    assert ss[i + 1].ctxs[c].handle == Some(f);
    MadeFrameWaits(LAYOUT, ss, ops, c, i + 1, j - 1);
    MadeFrameKept(ss[i + 1].cpu.mem, ss[j - 1].cpu.mem, f, fn, trampoline, finish);
  }

  /** Entering a made frame followed by the trampoline calls the function. */
  lemma EntersFunction(a: Cpu, f: int, data: int, r: Registers, m: Mem, e: Registers, n: Mem, fn: int, trampoline: int,
                       finish: int)
    requires |a.regs| == 7 && EnteredFrame(a, f, data, r, m)
    requires MadeFrame(a.mem, f, fn, trampoline, finish)
    requires r.esp >= 4 && e == r.(esp := r.esp - 4, eip := r.ebx)
    requires Load(n, e.esp, 4) == r.ebp && Load(n, e.esp + 4, 4) == r.edi && Load(n, e.esp + 8, 4) == r.esi
    ensures r.eip == trampoline && e.eip == fn && e.esp == f + 0x20 && Load(n, e.esp, 4) == finish
    ensures Load(n, e.esp + 4, 4) == a.sp - 0x1c && Load(n, e.esp + 8, 4) == data
  {
  }

  /** A context made at step i waits in its frame until it is first entered at step j; then
      the trampoline calls `fn` with the frame of the jumper and its data as the two words
      of its argument, `finish` as return address, and ESP + 4 a multiple of 16, all
      inside the stack below sp. */
  lemma FirstEntry(ss: seq<Machine>, ops: seq<Op>, c: Id, i: nat, j: nat, sp: int, lo: int, hi: int, data: int,
                   fn: int, trampoline: int, finish: int, r: Registers, m: Mem, e: Registers, n: Mem)
    requires IsRun(LAYOUT, ss, ops) && i + 1 < j < |ss|
    requires ops[i] == Make(c, lo, hi, MadeAt(sp))
    requires MadeFrame(ss[i + 1].cpu.mem, MadeAt(sp), fn, trampoline, finish)
    requires forall m :: i < m < j ==> ss[m].running != c && c in ss[m].ctxs
    requires |ss[j - 1].cpu.regs| == 7 && EnteredFrame(ss[j - 1].cpu, MadeAt(sp), data, r, m)
    requires r.esp >= 4 && e == r.(esp := r.esp - 4, eip := r.ebx)
    requires Load(n, e.esp, 4) == r.ebp && Load(n, e.esp + 4, 4) == r.edi && Load(n, e.esp + 8, 4) == r.esi
    ensures r.eip == trampoline && e.eip == fn
    ensures Load(n, e.esp, 4) == finish && (e.esp + 4) % 16 == 0
    ensures Load(n, e.esp + 4, 4) == ss[j - 1].cpu.sp - 0x1c && Load(n, e.esp + 8, 4) == data
    ensures lo <= e.esp && e.esp + 12 <= sp
  {
    LayoutIsOk();
    MadeFrameAtEntry(ss, ops, c, i, j, lo, hi, MadeAt(sp), fn, trampoline, finish);
    EntersFunction(ss[j - 1].cpu, MadeAt(sp), data, r, m, e, n, fn, trampoline, finish);
    MadeInside(sp);
  }

  /** In a run without ontop switches a resumed context gets back EDI, ESI, EBX, EBP, MXCSR
      and the x87 control word, its hidden pointer in EAX, and returns with the return
      address and the hidden pointer taken off its stack. */
  lemma I386Isolation(ss: seq<Machine>, ops: seq<Op>, c: Id, i: nat, j: nat)
    requires IsRun(LAYOUT, ss, ops) && 0 < j < |ss|
    requires forall k :: 0 <= k < |ops| ==> !ops[k].Ontop?
    requires AwaySince(ss, c, i, j - 1) && ss[j].running == c
    ensures ss[j].cpu.regs == ss[i].cpu.regs
    ensures ss[j].cpu.sp == ss[i].cpu.sp + 8 && ss[j].cpu.pc == Load(ss[i].cpu.mem, ss[i].cpu.sp, 4)
    ensures ss[j].cpu.got == Transfer(ss[j - 1].cpu.sp - 0x1c, ops[j - 1].data)
  {
    LayoutIsOk();
    FiberIsolation(LAYOUT, ss, ops, c, i, j);
  }

  /** I386Isolation in terms of the registers: r as context c leaves and r' as it is resumed. */
  lemma RegistersComeBack(ss: seq<Machine>, ops: seq<Op>, c: Id, i: nat, j: nat, r: Registers, r': Registers)
    requires IsRun(LAYOUT, ss, ops) && 0 < j < |ss|
    requires forall k :: 0 <= k < |ops| ==> !ops[k].Ontop?
    requires AwaySince(ss, c, i, j - 1) && ss[j].running == c
    requires ss[i].cpu == r.Before(ss[i].cpu.mem) && ss[j].cpu == r'.After(ss[j].cpu.mem)
    ensures r'.edi == r.edi && r'.esi == r.esi && r'.ebx == r.ebx && r'.ebp == r.ebp
    ensures r'.mxcsr == r.mxcsr && r'.x87cw == r.x87cw
    ensures r'.eax == Load(ss[i].cpu.mem, r.esp + 4, 4)
    ensures Load(ss[j].cpu.mem, r'.eax, 4) == ss[j - 1].cpu.sp - 0x1c
    ensures Load(ss[j].cpu.mem, r'.eax + 4, 4) == ops[j - 1].data
    ensures r'.esp == r.esp + 8 && r'.eip == Load(ss[i].cpu.mem, r.esp, 4)
  {
    I386Isolation(ss, ops, c, i, j);
    var regs := ss[i].cpu.regs;
    assert regs[0] == r.mxcsr && regs[1] == r.x87cw && regs[2] == r.edi && regs[3] == r.esi;
    assert regs[4] == r.ebx && regs[5] == r.ebp && regs[6] == Load(ss[i].cpu.mem, r.esp + 4, 4);
  }
}
