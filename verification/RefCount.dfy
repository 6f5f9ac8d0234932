/** intrusive_ptr and the counts it maintains. */
module RefCount {
  /** An object with an intrusive count. */
  class Counted {
    var useCount: int

    constructor (initial: int)
      ensures useCount == initial
    {
      useCount := initial;
    }

    method AddRef()
      modifies this
      ensures useCount == old(useCount) + 1
    {
      useCount := useCount + 1;
    }

    /** Reports whether this was the last reference. */
    method Release() returns (last: bool)
      modifies this
      ensures useCount == old(useCount) - 1 && (last <==> useCount == 0)
    {
      last := useCount == 1;
      useCount := useCount - 1;
    }
  }

  class IntrusivePtr {
    var px: Counted?

    constructor ()
      ensures px == null
    {
      px := null;
    }

    constructor FromRaw(p: Counted?, addRef: bool)
      modifies p
      ensures px == p
      ensures p != null ==> p.useCount == old(p.useCount) + if addRef then 1 else 0
    {
      px := p;
      new;
      if px != null && addRef { px.AddRef(); }
    }

    constructor Copy(rhs: IntrusivePtr)
      modifies rhs.px
      ensures px == rhs.px && rhs.px == old(rhs.px)
      ensures px != null ==> px.useCount == old(rhs.px.useCount) + 1
    {
      px := rhs.px;
      new;
      if px != null { px.AddRef(); }
    }

    constructor Move(rhs: IntrusivePtr)
      modifies rhs
      ensures px == old(rhs.px) && rhs.px == null
    {
      px := rhs.px;
      new;
      rhs.px := null;
    }

    /** The destructor; reports whether it released the last reference. */
    method Destroy() returns (last: bool)
      modifies px
      ensures px != null ==> px.useCount == old(px.useCount) - 1 && (last <==> px.useCount == 0)
      ensures px == null ==> !last
    {
      last := false;
      if px != null { last := px.Release(); }
    }

    method Swap(rhs: IntrusivePtr)
      modifies this, rhs
      ensures px == old(rhs.px) && rhs.px == old(px)
    {
      var tmp := px;
      px := rhs.px;
      rhs.px := tmp;
    }

    /** Copy assignment: copy, swap, destroy.  Assigning a pointer to itself, or to one
        with the same target, never drops the count to zero on the way. */
    method CopyAssign(rhs: IntrusivePtr) returns (last: bool)
      requires px != null ==> px.useCount > 0
      modifies this, px, rhs.px
      ensures px == old(rhs.px) && rhs.px == old(rhs.px)
      ensures old(px) != null && old(px) != px ==> old(px).useCount == old(px.useCount) - 1
      ensures px != null && px != old(px) ==> px.useCount == old(rhs.px.useCount) + 1
      ensures px != null && px == old(px) ==> px.useCount == old(px.useCount)
      ensures last <==> old(px) != null && old(px) != px && old(px).useCount == 0
    {
      var tmp := new IntrusivePtr.Copy(rhs);
      tmp.Swap(this);
      last := tmp.Destroy();
    }

    /** Move assignment, also from itself. */
    method MoveAssign(rhs: IntrusivePtr) returns (last: bool)
      requires px != null ==> px.useCount > 0
      modifies this, rhs, px
      ensures px == old(rhs.px) && (rhs != this ==> rhs.px == null)
      ensures old(px) != null ==> old(px).useCount == old(px.useCount) - if rhs == this then 0 else 1
      ensures last <==> old(px) != null && rhs != this && old(px).useCount == 0
    {
      var tmp := new IntrusivePtr.Move(rhs);
      tmp.Swap(this);
      last := tmp.Destroy();
    }

    method Reset() returns (last: bool)
      requires px != null ==> px.useCount > 0
      modifies this, px
      ensures px == null
      ensures old(px) != null ==> old(px).useCount == old(px.useCount) - 1
      ensures last <==> old(px) != null && old(px).useCount == 0
    {
      var tmp := new IntrusivePtr();
      tmp.Swap(this);
      last := tmp.Destroy();
    }

    method ResetRaw(p: Counted?, addRef: bool) returns (last: bool)
      requires px != null ==> px.useCount > 0
      modifies this, px, p
      ensures px == p
      ensures old(px) != null && old(px) != p ==> old(px).useCount == old(px.useCount) - 1
      ensures p != null && p != old(px) ==> p.useCount == old(p.useCount) + if addRef then 1 else 0
      ensures p != null && p == old(px) ==> p.useCount == old(p.useCount) - if addRef then 0 else 1
      ensures last <==> old(px) != null && old(px).useCount == 0
    {
      var tmp := new IntrusivePtr.FromRaw(p, addRef);
      tmp.Swap(this);
      last := tmp.Destroy();
    }

    /** Gives the reference up without releasing it. */
    method Detach() returns (p: Counted?)
      modifies this
      ensures p == old(px) && px == null
    {
      p := px;
      px := null;
    }
  }

  // ---------- Any number of handles ----------

  type Obj = nat
  type Handle = nat

  /** `raw` counts the references of an object that no handle stands for, such as the
      initial one of a Context; `used` says that it has had a reference, which a SharedState
      has not before its first pointer; `zeroed` counts how often its count dropped to zero. */
  datatype Counts = Counts(count: int, raw: int, used: bool, zeroed: nat)

  /** `ptr` has the handles that exist and what they point to (None for null). */
  datatype Target = Null | To(o: Obj)

  datatype World = World(ptr: map<Handle, Target>, obj: map<Obj, Counts>)

  /** The steps that all operations are composed of. */
  datatype Step =
    | New(o: Obj, initial: nat)
    | MakeNull(h: Handle)
    | FromRaw(h: Handle, o: Obj, addRef: bool)
    | Copy(h: Handle, g: Handle)
    | Move(h: Handle, g: Handle)
    | Swap(h: Handle, g: Handle)
    | Detach(h: Handle)
    | Destroy(h: Handle)

  /** A raw pointer is good while its object has not been released; taking it over
      without a new reference needs a reference that no handle stands for. */
  predicate Enabled(w: World, step: Step) {
    match step
    case New(o, _) => o !in w.obj
    case MakeNull(h) => h !in w.ptr
    case FromRaw(h, o, addRef) => h !in w.ptr && o in w.obj && w.obj[o].zeroed == 0 && (addRef || w.obj[o].raw > 0)
    case Copy(h, g) => h !in w.ptr && g in w.ptr
    case Move(h, g) => h !in w.ptr && g in w.ptr
    case Swap(h, g) => h in w.ptr && g in w.ptr
    case Detach(h) => h in w.ptr
    case Destroy(h) => h in w.ptr
  }

  function AddRef(w: World, t: Target): World {
    if t.To? && t.o in w.obj then
      w.(obj := w.obj[t.o := w.obj[t.o].(count := w.obj[t.o].count + 1, used := true)])
    else w
  }

  function Release(w: World, t: Target): World {
    if t.To? && t.o in w.obj then
      var c := w.obj[t.o];
      w.(obj := w.obj[t.o := c.(count := c.count - 1, zeroed := c.zeroed + if c.count == 1 then 1 else 0)])
    else w
  }

  function Owe(w: World, t: Target, n: int): World {
    if t.To? && t.o in w.obj then w.(obj := w.obj[t.o := w.obj[t.o].(raw := w.obj[t.o].raw + n)]) else w
  }

  function Do(w: World, step: Step): World
    requires Enabled(w, step)
  {
    match step
    case New(o, initial) => w.(obj := w.obj[o := Counts(initial, initial, initial > 0, 0)])
    case MakeNull(h) => w.(ptr := w.ptr[h := Null])
    case FromRaw(h, o, addRef) =>
      var w1 := w.(ptr := w.ptr[h := To(o)]);
      if addRef then AddRef(w1, To(o)) else Owe(w1, To(o), -1)
    case Copy(h, g) => AddRef(w.(ptr := w.ptr[h := w.ptr[g]]), w.ptr[g])
    case Move(h, g) => w.(ptr := w.ptr[h := w.ptr[g]][g := Null])
    case Swap(h, g) => w.(ptr := w.ptr[h := w.ptr[g]][g := w.ptr[h]])
    case Detach(h) => Owe(w.(ptr := w.ptr[h := Null]), w.ptr[h], 1)
    case Destroy(h) => Release(w.(ptr := w.ptr - {h}), w.ptr[h])
  }

  function Handles(ptr: map<Handle, Target>, o: Obj): set<Handle> {
    set h | h in ptr && ptr[h] == To(o)
  }

  /** The count of an object is the number of its handles plus its raw references; once it
      has had a reference, it has dropped to zero exactly if it is zero, and just once. */
  ghost predicate CountOk(ptr: map<Handle, Target>, o: Obj, c: Counts) {
    && c.count == |Handles(ptr, o)| + c.raw && c.raw >= 0
    && c.zeroed == (if c.used && c.count == 0 then 1 else 0)
    && (c.count > 0 ==> c.used)
  }

  ghost predicate Balanced(w: World) {
    && (forall h :: h in w.ptr && w.ptr[h].To? ==> w.ptr[h].o in w.obj)
    && (forall o :: o in w.obj ==> CountOk(w.ptr, o, w.obj[o]))
  }

  function One(t: Target, o: Obj): int {
    if t == To(o) then 1 else 0
  }

  lemma HandleSet(ptr: map<Handle, Target>, h: Handle, t: Target, o: Obj)
    ensures |Handles(ptr[h := t], o)| == |Handles(ptr, o)| + One(t, o) - if h in ptr then One(ptr[h], o) else 0
  {
    var rest := Handles(ptr, o) - {h};
    assert Handles(ptr, o) == if h in ptr && ptr[h] == To(o) then rest + {h} else rest;
    assert Handles(ptr[h := t], o) == if t == To(o) then rest + {h} else rest;
  }

  lemma HandleGone(ptr: map<Handle, Target>, h: Handle, o: Obj)
    requires h in ptr
    ensures |Handles(ptr - {h}, o)| == |Handles(ptr, o)| - One(ptr[h], o)
  {
    assert Handles(ptr - {h}, o) == Handles(ptr, o) - {h};
  }

  lemma CountStep(w: World, step: Step, o: Obj)
    requires Balanced(w) && Enabled(w, step) && o in w.obj
    ensures CountOk(Do(w, step).ptr, o, Do(w, step).obj[o])
  {
    assert CountOk(w.ptr, o, w.obj[o]);
    match step
    case New(_, _) =>
    case MakeNull(h) => HandleSet(w.ptr, h, Null, o);
    case FromRaw(h, p, _) => HandleSet(w.ptr, h, To(p), o);
    case Copy(h, g) => HandleSet(w.ptr, h, w.ptr[g], o); HandleCounted(w, g, o);
    case Move(h, g) => HandleSet(w.ptr, h, w.ptr[g], o); HandleSet(w.ptr[h := w.ptr[g]], g, Null, o);
    case Swap(h, g) => HandleSet(w.ptr, h, w.ptr[g], o); HandleSet(w.ptr[h := w.ptr[g]], g, w.ptr[h], o);
    case Detach(h) => HandleSet(w.ptr, h, Null, o); HandleCounted(w, h, o);
    case Destroy(h) => HandleGone(w.ptr, h, o); HandleCounted(w, h, o);
  }

  /** An object that a handle points to is counted and has never been released. */
  lemma HandleCounted(w: World, h: Handle, o: Obj)
    requires Balanced(w) && h in w.ptr && o in w.obj
    ensures w.ptr[h] == To(o) ==> w.obj[o].count > 0 && w.obj[o].zeroed == 0
  {
    assert CountOk(w.ptr, o, w.obj[o]);
    if w.ptr[h] == To(o) {
      assert h in Handles(w.ptr, o);
    }
  }

  lemma BalancedStep(w: World, step: Step)
    requires Balanced(w) && Enabled(w, step)
    ensures Balanced(Do(w, step))
  {
    var w' := Do(w, step);
    forall o | o in w'.obj ensures CountOk(w'.ptr, o, w'.obj[o]) {
      if o in w.obj {
        CountStep(w, step, o);
      } else {
        assert Handles(w'.ptr, o) == {};
      }
    }
  }

  ghost predicate Path(w: World, steps: seq<Step>, w': World)
    decreases |steps|
  {
    if steps == [] then w == w'
    else Enabled(w, steps[0]) && Path(Do(w, steps[0]), steps[1..], w')
  }

  /** Over every sequence of operations on any number of handles and objects the counts
      are exact, and each object is released once, when the last reference to it goes. */
  lemma {:induction false} CountsAreExact(w: World, steps: seq<Step>, w': World)
    requires Balanced(w) && Path(w, steps, w')
    ensures Balanced(w')
    decreases |steps|
  {
    if steps != [] {
      BalancedStep(w, steps[0]);
      CountsAreExact(Do(w, steps[0]), steps[1..], w');
    }
  }

  /** From no objects and no handles: the count is the number of handles and raw
      references, and an object that has had a reference was released, once, if and only if
      no handle and no raw reference is left. */
  lemma CountIsHandles(steps: seq<Step>, w: World, o: Obj)
    requires Path(World(map[], map[]), steps, w) && o in w.obj
    ensures w.obj[o].count == |Handles(w.ptr, o)| + w.obj[o].raw
    ensures w.obj[o].zeroed <= 1 && (w.obj[o].zeroed == 1 ==> w.obj[o].used)
    ensures w.obj[o].used ==> (w.obj[o].zeroed == 1 <==> Handles(w.ptr, o) == {} && w.obj[o].raw == 0)
  {
    CountsAreExact(World(map[], map[]), steps, w);
    assert CountOk(w.ptr, o, w.obj[o]);
  }

  /** How often a raw reference to o was taken over by a new handle. */
  function Adoptions(steps: seq<Step>, o: Obj): nat {
    if steps == [] then 0
    else (if steps[0].FromRaw? && steps[0].o == o && !steps[0].addRef then 1 else 0) + Adoptions(steps[1..], o)
  }

  /** How often a handle gave a reference to o up without releasing it. */
  function Detachments(w: World, steps: seq<Step>, o: Obj): nat
    decreases |steps|
  {
    if steps == [] || !Enabled(w, steps[0]) then 0
    else (if steps[0].Detach? && w.ptr[steps[0].h] == To(o) then 1 else 0) + Detachments(Do(w, steps[0]), steps[1..], o)
  }

  lemma RawStep(w: World, step: Step, o: Obj)
    requires Enabled(w, step) && o in w.obj
    ensures o in Do(w, step).obj
    ensures Do(w, step).obj[o].raw == w.obj[o].raw
              + (if step.Detach? && w.ptr[step.h] == To(o) then 1 else 0)
              - (if step.FromRaw? && step.o == o && !step.addRef then 1 else 0)
    ensures w.obj[o].used ==> Do(w, step).obj[o].used
  {
  }

  lemma {:induction false} RawReferences(w: World, steps: seq<Step>, w': World, o: Obj)
    requires Path(w, steps, w') && o in w.obj
    ensures o in w'.obj && (w.obj[o].used ==> w'.obj[o].used)
    ensures w'.obj[o].raw == w.obj[o].raw + Detachments(w, steps, o) - Adoptions(steps, o)
    decreases |steps|
  {
    if steps != [] {
      RawStep(w, steps[0], o);
      RawReferences(Do(w, steps[0]), steps[1..], w', o);
    }
  }

  /** A context, which starts with one reference that no handle stands for, is released if
      and only if that reference and every detached one were adopted and no handle is left. */
  lemma ContextReleasedIff(w: World, o: Obj, steps: seq<Step>, w': World)
    requires Balanced(w) && o !in w.obj && Path(Do(w, New(o, 1)), steps, w')
    ensures o in w'.obj
    ensures w'.obj[o].zeroed == 1 <==>
              Handles(w'.ptr, o) == {} && Adoptions(steps, o) == 1 + Detachments(Do(w, New(o, 1)), steps, o)
  {
    var w1 := Do(w, New(o, 1));
    BalancedStep(w, New(o, 1));
    CountsAreExact(w1, steps, w');
    RawReferences(w1, steps, w', o);
    assert CountOk(w'.ptr, o, w'.obj[o]);
  }

  /** MakeWorkerContext adds a reference to the initial one; when its only handle goes, the
      context stays.  Had the handle adopted the initial reference, it would be released. */
  lemma LastHandleGone(addRef: bool) returns (steps: seq<Step>, w: World)
    ensures Path(World(map[], map[]), steps, w) && steps == [New(0, 1), FromRaw(0, 0, addRef), Destroy(0)]
    ensures w.ptr == map[] && 0 in w.obj && w.obj[0].zeroed == if addRef then 0 else 1
  {
    steps := [New(0, 1), FromRaw(0, 0, addRef), Destroy(0)];
    var w0: World := World(map[], map[]);
    var w1 := Do(w0, steps[0]);
    var w2 := Do(w1, steps[1]);
    w := Do(w2, steps[2]);
    assert Path(w2, steps[2..], w) by { assert steps[2..][1..] == []; }
    assert Path(w1, steps[1..], w) by { assert steps[1..][1..] == steps[2..]; }
  }

  /** A context starts with a count of one that no handle stands for.  As long as nobody
      adopts that reference, its count stays positive and it is never released, whatever
      happens to the handles. */
  lemma {:induction false} ContextOutlivesHandles(w: World, steps: seq<Step>, w': World, o: Obj)
    requires Balanced(w) && o in w.obj && w.obj[o].raw > 0 && w.obj[o].zeroed == 0
    requires Path(w, steps, w')
    requires forall k :: 0 <= k < |steps| ==> !(steps[k].FromRaw? && steps[k].o == o && !steps[k].addRef)
    ensures o in w'.obj && w'.obj[o].raw > 0 && w'.obj[o].zeroed == 0 && w'.obj[o].count > 0
    decreases |steps|
  {
    assert CountOk(w.ptr, o, w.obj[o]);
    if steps != [] {
      BalancedStep(w, steps[0]);
      assert CountOk(Do(w, steps[0]).ptr, o, Do(w, steps[0]).obj[o]);
      ContextOutlivesHandles(Do(w, steps[0]), steps[1..], w', o);
    }
  }

  // ---------- Assignments as sequences of steps ----------

  lemma PathFirst(w: World, step: Step, rest: seq<Step>, w': World)
    requires Enabled(w, step) && Path(Do(w, step), rest, w')
    ensures Path(w, [step] + rest, w')
  {
    assert ([step] + rest)[1..] == rest;
  }

  /** Copy, swap, destroy: afterwards h points where g does, and every other handle where it
      did; also for h == g. */
  lemma CopyAssignment(w: World, h: Handle, g: Handle, tmp: Handle) returns (w': World)
    requires h in w.ptr && g in w.ptr && tmp !in w.ptr
    ensures Path(w, [Copy(tmp, g), Swap(tmp, h), Destroy(tmp)], w') && w'.ptr == w.ptr[h := w.ptr[g]]
  {
    var w1 := Do(w, Copy(tmp, g));
    var w2 := Do(w1, Swap(tmp, h));
    assert w2.ptr == w.ptr[tmp := w.ptr[h]][h := w.ptr[g]];
    w' := Do(w2, Destroy(tmp));
    PathFirst(w2, Destroy(tmp), [], w');
    PathFirst(w1, Swap(tmp, h), [Destroy(tmp)], w');
    PathFirst(w, Copy(tmp, g), [Swap(tmp, h), Destroy(tmp)], w');
  }

  /** Move, swap, destroy: afterwards h points where g did and g nowhere; nothing changes for
      h == g. */
  lemma MoveAssignment(w: World, h: Handle, g: Handle, tmp: Handle) returns (w': World)
    requires h in w.ptr && g in w.ptr && tmp !in w.ptr
    ensures Path(w, [Move(tmp, g), Swap(tmp, h), Destroy(tmp)], w')
    ensures w'.ptr == if g == h then w.ptr else w.ptr[h := w.ptr[g]][g := Null]
  {
    var w1 := Do(w, Move(tmp, g));
    var w2 := Do(w1, Swap(tmp, h));
    assert w2.ptr == w.ptr[tmp := if g == h then Null else w.ptr[h]][g := Null][h := w.ptr[g]];
    w' := Do(w2, Destroy(tmp));
    PathFirst(w2, Destroy(tmp), [], w');
    PathFirst(w1, Swap(tmp, h), [Destroy(tmp)], w');
    PathFirst(w, Move(tmp, g), [Swap(tmp, h), Destroy(tmp)], w');
  }

  /** A null pointer, swap, destroy: afterwards h is null. */
  lemma ResetHandle(w: World, h: Handle, tmp: Handle) returns (w': World)
    requires h in w.ptr && tmp !in w.ptr
    ensures Path(w, [MakeNull(tmp), Swap(tmp, h), Destroy(tmp)], w') && w'.ptr == w.ptr[h := Null]
  {
    var w1 := Do(w, MakeNull(tmp));
    var w2 := Do(w1, Swap(tmp, h));
    assert w2.ptr == w.ptr[tmp := w.ptr[h]][h := Null];
    w' := Do(w2, Destroy(tmp));
    PathFirst(w2, Destroy(tmp), [], w');
    PathFirst(w1, Swap(tmp, h), [Destroy(tmp)], w');
    PathFirst(w, MakeNull(tmp), [Swap(tmp, h), Destroy(tmp)], w');
  }

  /** Detach leaves a null handle and a reference that no handle stands for, which FromRaw
      can take back: the counts are as before. */
  lemma DetachAndAdopt(w: World, h: Handle, g: Handle) returns (w': World)
    requires Balanced(w) && h in w.ptr && w.ptr[h].To? && g !in w.ptr
    ensures Path(w, [Detach(h), FromRaw(g, w.ptr[h].o, false)], w')
    ensures w'.ptr == w.ptr[h := Null][g := w.ptr[h]] && w'.obj == w.obj
  {
    var o := w.ptr[h].o;
    HandleCounted(w, h, o);
    assert CountOk(w.ptr, o, w.obj[o]);
    var w1 := Do(w, Detach(h));
    assert w1.obj == w.obj[o := w.obj[o].(raw := w.obj[o].raw + 1)];
    w' := Do(w1, FromRaw(g, o, false));
    assert w'.obj[o] == w.obj[o] && w'.obj == w.obj;
    PathFirst(w1, FromRaw(g, o, false), [], w');
    PathFirst(w, Detach(h), [FromRaw(g, o, false)], w');
  }
}
