/** example/fcontext_test.cpp: three fibers that resume each other through the handles f1,
    f2 and f3 for ever. */
module Rotation {
  datatype Fiber = Main | One | Two | Three

  /** A FiberContext owns the suspended fiber it names, or nothing. */
  datatype Handle = Empty | Of(fiber: Fiber)

  class Program {
    var f1: Handle
    var f2: Handle
    var f3: Handle
    var running: Fiber
    var came: Fiber                // whose handle the running fiber has just been given
    var lines: seq<Fiber>
    var unwound: set<Fiber>        // suspended fibers that an assignment has destroyed

    /** What the program is like whenever the running fiber has printed its line: its own
        handle is empty, the others own their fibers. */
    ghost predicate Printed()
      reads this
    {
      && unwound == {}
      && lines != [] && lines[|lines| - 1] == running
      && match running
         case One => f1 == Empty && f2 == Of(Two) && f3 == Of(Three)
         case Two => f1 == Of(One) && f2 == Empty && f3 == Of(Three)
         case Three => f1 == Of(One) && f2 == Of(Two) && f3 == Empty
         case Main => false
    }

    /** Main has built the three fibers and resumes the first, which prints. */
    constructor ()
      ensures Printed() && lines == [One]
    {
      f3 := Of(Three);
      f2 := Of(Two);
      f1 := Empty;
      running, came, lines, unwound := One, Main, [One], {};
    }

    /** Move assignment destroys the fiber that the target owned, if it owned one. */
    method Overwrites(h: Handle)
      modifies this`unwound
      ensures unwound == old(unwound) + if h.Of? then {h.fiber} else {}
    {
      if h.Of? {
        unwound := unwound + {h.fiber};
      }
    }

    /** `std::move(h).Resume()`: the running fiber is suspended and its handle goes to the
        fiber that runs next.  A fiber resumed for the first time moves that handle out of
        its parameter, a later time out of the result of its own Resume; either way it
        then prints. */
    method Resume()
      requires Printed()
      modifies this
      ensures Printed()
      ensures lines == old(lines) + [running] && running == Successor(old(running))
      ensures running == if old(running) == One then Two else if old(running) == Two then Three else One
      ensures unwound == old(unwound)
    {
      came := running;
      if running == One {
        running, f2 := f2.fiber, Empty;
      } else if running == Two {
        running, f3 := f3.fiber, Empty;
      } else {
        running, f1 := f1.fiber, Empty;
      }
      if running == One {
        Overwrites(f3);
        f3 := Of(came);
      } else if running == Two {
        Overwrites(f1);
        f1 := Of(came);
      } else {
        Overwrites(f2);
        f2 := Of(came);
      }
      lines := lines + [running];
    }
  }

  function Successor(f: Fiber): Fiber {
    match f
    case One => Two
    case Two => Three
    case _ => One
  }

  /** The k-th line of the program. */
  function Line(k: nat): Fiber {
    if k % 3 == 0 then One else if k % 3 == 1 then Two else Three
  }

  lemma LineAfter(k: nat)
    ensures Line(k + 1) == Successor(Line(k))
  {
  }

  /** However long it runs, the program prints f1, f2, f3 in turn, never destroys a
      suspended fiber, and at each line the running fiber's handle is the empty one. */
  method Run(n: nat) returns (p: Program)
    ensures p.Printed() && |p.lines| == n + 1
    ensures forall k :: 0 <= k <= n ==> p.lines[k] == if k % 3 == 0 then One else if k % 3 == 1 then Two else Three
    ensures p.unwound == {} && p.running == p.lines[n]
    ensures p.running == One ==> p.f1 == Empty && p.f2 == Of(Two) && p.f3 == Of(Three)
    ensures p.running == Two ==> p.f1 == Of(One) && p.f2 == Empty && p.f3 == Of(Three)
    ensures p.running == Three ==> p.f1 == Of(One) && p.f2 == Of(Two) && p.f3 == Empty
  {
    p := new Program();
    var i := 0;
    while i < n
      invariant 0 <= i <= n && fresh(p)
      invariant p.Printed() && |p.lines| == i + 1
      invariant forall k :: 0 <= k <= i ==> p.lines[k] == Line(k)
    {
      LineAfter(i);
      p.Resume();
      i := i + 1;
    }
  }
}
