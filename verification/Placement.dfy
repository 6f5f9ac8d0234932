/** Where MakeWorkerContext and CreateFiberWithPreallocated put the context, the fiber
    record and the first frame on a new stack. */
module Placement {
  import SysV64
  import MsX64

  /** A StackContext: the memory [sp - size, sp). */
  datatype Stack = Stack(sp: int, size: nat)

  /** x & ~0xff */
  function Down256(x: int): int {
    x - x % 256
  }

  lemma Down256Is(x: int)
    ensures Down256(x) % 256 == 0 && (Down256(x) - 64) % 16 == 0 && x - 255 <= Down256(x) <= x
  {
    assert Down256(x) == 256 * (x / 256);
    assert Down256(x) - 64 == 16 * (16 * (x / 256) - 4);
  }

  /** The context object, the fiber record, and what is left as sp and size for make_fcontext. */
  datatype Placed = Placed(context: int, record: int, top: int, size: int)

  function Place(st: Stack, contextSize: nat, recordSize: nat): Placed {
    var context := Down256(st.sp - contextSize);
    var record := Down256(context - recordSize);
    var top := record - 64;
    Placed(context, record, top, top - (st.sp - st.size))
  }

  /** The objects are aligned to 256 bytes, at most 255 bytes are lost above each, and
      neither meets the other or the 64 bytes below the record. */
  lemma ObjectsArePlaced(st: Stack, contextSize: nat, recordSize: nat)
    ensures var p := Place(st, contextSize, recordSize);
            && p.context % 256 == 0 && p.record % 256 == 0 && p.top % 16 == 0
            && p.top + 64 == p.record && p.record + recordSize <= p.context && p.context + contextSize <= st.sp
            && st.sp - (p.context + contextSize) <= 255 && p.context - (p.record + recordSize) <= 255
            && p.top - p.size == st.sp - st.size
  {
    Down256Is(st.sp - contextSize);
    Down256Is(Place(st, contextSize, recordSize).context - recordSize);
  }

  /** A stack of this size has room for both objects and a first frame of `frame` bytes. */
  predicate Roomy(st: Stack, contextSize: nat, recordSize: nat, frame: nat) {
    st.size >= contextSize + recordSize + 2 * 255 + 64 + frame
  }

  /** On a roomy stack the first frame of either x86-64 switch lies inside the stack and
      below the record, with no byte lost to alignment, and the Microsoft switch takes the
      bottom of the stack as its limit. */
  lemma FirstFrameFits(st: Stack, contextSize: nat, recordSize: nat)
    ensures var p := Place(st, contextSize, recordSize);
            && SysV64.MadeAt(p.top) + 0x48 == p.top
            && (Roomy(st, contextSize, recordSize, 0x48) ==> st.sp - st.size <= SysV64.MadeAt(p.top))
            && MsX64.MadeAt(p.top) + 0x150 == p.top
            && (Roomy(st, contextSize, recordSize, 0x150) ==> st.sp - st.size <= MsX64.MadeAt(p.top))
  {
    ObjectsArePlaced(st, contextSize, recordSize);
  }

  /** The bound cannot be lowered: on a stack one byte smaller both objects can lose 255
      bytes each, and then the frame starts below the stack. */
  lemma RoomIsNeeded(contextSize: nat, recordSize: nat, frame: nat, size: nat)
    requires recordSize % 256 == 1 && size + 1 == contextSize + recordSize + 2 * 255 + 64 + frame
    ensures var st := Stack(contextSize + 255, size);
            && Roomy(Stack(st.sp, st.size + 1), contextSize, recordSize, frame)
            && Place(st, contextSize, recordSize).top < st.sp - st.size + frame
  {
    var minus: int := 0 - recordSize;
    assert minus == 256 * -(recordSize / 256) - 1 && minus % 256 == 255;
  }
}
