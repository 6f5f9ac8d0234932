/** Byte-addressed memory with little-endian multi-byte accesses. */
module Memory {
  type byte = b: int | 0 <= b < 256

  /** Contents of memory; an address that was never written reads as zero. */
  type Mem = map<int, byte>

  function Peek(m: Mem, a: int): byte {
    if a in m then m[a] else 0
  }

  // Register widths.
  const LIMIT16 := 0x1_0000
  const LIMIT32 := 0x1_0000_0000
  const LIMIT64 := 0x1_0000_0000_0000_0000
  const LIMIT128 := 0x1_0000_0000_0000_0000_0000_0000_0000_0000

  type u16 = x: int | 0 <= x < LIMIT16
  type u32 = x: int | 0 <= x < LIMIT32
  type u64 = x: int | 0 <= x < LIMIT64
  type u128 = x: int | 0 <= x < LIMIT128

  /** v is a number of w bytes, for the access widths that occur. */
  predicate Sized(v: int, w: nat) {
    0 <= v && ((w == 2 && v < LIMIT16) || (w == 4 && v < LIMIT32) || (w == 8 && v < LIMIT64)
               || (w == 16 && v < LIMIT128))
  }

  function Pow256(n: nat): int {
    if n == 0 then 1 else 256 * Pow256(n - 1)
  }

  lemma Widths()
    ensures Pow256(2) == LIMIT16 && Pow256(4) == LIMIT32 && Pow256(8) == LIMIT64 && Pow256(16) == LIMIT128
  {
    assert Pow256(8) == LIMIT64;
    assert Pow256(12) == 256 * 256 * 256 * 256 * Pow256(8);
  }

  /** The little-endian number in the bytes [a, b). */
  function Number(m: Mem, a: int, b: int): int
    decreases b - a
  {
    if b <= a then 0 else Peek(m, a) + 256 * Number(m, a + 1, b)
  }

  /** Memory with the little-endian digits of v in the bytes [a, b). */
  function WithNumber(m: Mem, a: int, b: int, v: int): Mem
    decreases b - a
  {
    if b <= a then m else WithNumber(m[a := v % 256], a + 1, b, v / 256)
  }

  function Load(m: Mem, a: int, w: nat): (v: int)
    ensures 0 <= v
    ensures w == 2 ==> v < LIMIT16
    ensures w == 4 ==> v < LIMIT32
    ensures w == 8 ==> v < LIMIT64
    ensures w == 16 ==> v < LIMIT128
  {
    NumberFits(m, a, w);
    Widths();
    Number(m, a, a + w)
  }

  function Store(m: Mem, a: int, w: nat, v: int): Mem {
    WithNumber(m, a, a + w, v)
  }

  lemma {:induction false} NumberFits(m: Mem, a: int, w: nat)
    ensures 0 <= Number(m, a, a + w) < Pow256(w)
    decreases w
  {
    if w > 0 {
      NumberFits(m, a + 1, w - 1);
    }
  }

  /** Two memories hold the same bytes at every address in [lo, hi). */
  ghost predicate SameOn(m: Mem, n: Mem, lo: int, hi: int) {
    forall x :: lo <= x < hi ==> Peek(m, x) == Peek(n, x)
  }

  /** Two memories hold the same bytes at every address outside [lo, hi). */
  ghost predicate SameOutside(m: Mem, n: Mem, lo: int, hi: int) {
    forall x :: x < lo || hi <= x ==> Peek(m, x) == Peek(n, x)
  }

  lemma {:induction false} StoreElsewhere(m: Mem, a: int, w: nat, v: int)
    ensures SameOutside(m, Store(m, a, w, v), a, a + w)
    decreases w
  {
    if w > 0 {
      var m1 := m[a := v % 256];
      StoreElsewhere(m1, a + 1, w - 1, v / 256);
      forall x | x < a || a + w <= x ensures Peek(m, x) == Peek(Store(m, a, w, v), x) {
        assert Peek(m1, x) == Peek(m, x);
      }
    }
  }

  lemma {:induction false} LoadSame(m: Mem, n: Mem, a: int, w: nat)
    requires SameOn(m, n, a, a + w)
    ensures Load(m, a, w) == Load(n, a, w)
    decreases w
  {
    if w > 0 {
      assert Peek(m, a) == Peek(n, a);
      LoadSame(m, n, a + 1, w - 1);
    }
  }

  lemma {:induction false} NumberOfDigits(m: Mem, a: int, w: nat, v: int)
    requires 0 <= v < Pow256(w)
    ensures Number(WithNumber(m, a, a + w, v), a, a + w) == v
    decreases w
  {
    if w > 0 {
      var m1 := m[a := v % 256];
      NumberOfDigits(m1, a + 1, w - 1, v / 256);
      StoreElsewhere(m1, a + 1, w - 1, v / 256);
      assert Peek(m1, a) == v % 256;
    }
  }

  /** The byte at the lowest address counts least. */
  lemma LittleEndian(m: Mem, a: int)
    ensures Load(m, a, 2) == Peek(m, a) + 0x100 * Peek(m, a + 1)
    ensures Load(m, a, 4) == Load(m, a, 2) + LIMIT16 * Load(m, a + 2, 2)
    ensures Load(m, a, 8) == Load(m, a, 4) + LIMIT32 * Load(m, a + 4, 4)
  {
    Split(m, a, a + 1, a + 2);
    Split(m, a, a + 2, a + 4);
    Split(m, a, a + 4, a + 8);
    assert Pow256(1) == 256;
    Widths();
  }

  lemma {:induction false} Split(m: Mem, a: int, b: int, c: int)
    requires a <= b <= c
    ensures Number(m, a, c) == Number(m, a, b) + Pow256(b - a) * Number(m, b, c)
    decreases b - a
  {
    if a < b {
      Split(m, a + 1, b, c);
      Regroup(Peek(m, a), Number(m, a + 1, b), Pow256(b - a - 1), Number(m, b, c));
    }
  }

  lemma Regroup(x: int, y: int, p: int, n: int)
    ensures x + 256 * (y + p * n) == (x + 256 * y) + (256 * p) * n
  {
    assert 256 * (p * n) == (256 * p) * n;
  }

  /** A stored value that fits its width is read back unchanged. */
  lemma LoadStore(m: Mem, a: int, w: nat, v: int)
    requires Sized(v, w)
    ensures Load(Store(m, a, w, v), a, w) == v
  {
    Widths();
    NumberOfDigits(m, a, w, v);
  }

  /** A store is read back, and changes no other location. */
  lemma StoreEffect(m: Mem, a: int, w: nat, v: int)
    requires Sized(v, w)
    ensures Load(Store(m, a, w, v), a, w) == v
    ensures forall b: int, n: nat {:trigger Load(Store(m, a, w, v), b, n)} :: b + n <= a || a + w <= b ==>
              Load(Store(m, a, w, v), b, n) == Load(m, b, n)
    ensures SameOutside(m, Store(m, a, w, v), a, a + w)
  {
    LoadStore(m, a, w, v);
    StoreElsewhere(m, a, w, v);
    forall b: int, n: nat | b + n <= a || a + w <= b ensures Load(Store(m, a, w, v), b, n) == Load(m, b, n) {
      LoadSame(Store(m, a, w, v), m, b, n);
    }
  }

  /** The two stores of a transfer record. */
  lemma TwoStores(m: Mem, a: int, w: nat, u: int, v: int)
    requires Sized(u, w) && Sized(v, w)
    ensures var n := Store(Store(m, a, w, u), a + w, w, v);
            Load(n, a, w) == u && Load(n, a + w, w) == v && SameOutside(m, n, a, a + 2 * w)
  {
    StoreEffect(m, a, w, u);
    StoreEffect(Store(m, a, w, u), a + w, w, v);
  }
}
