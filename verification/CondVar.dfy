/** ConditionVariableAny and the WaitQueue under it. */
module CondVar {
  type Id = nat

  /** WaitQueue: contexts in the order in which they began to wait.  `Wake` hands a
      context to its scheduler; the model lists the contexts woken, in order. */
  class WaitQueue {
    var waits: seq<Id>

    constructor ()
      ensures waits == []
    {
      waits := [];
    }

    /** The part of SuspendAndWait before the context suspends. */
    method Enqueue(ctx: Id)
      modifies this
      ensures waits == old(waits) + [ctx]
    {
      waits := waits + [ctx];
    }

    /** Tries to wake waiting contexts, longest waiting first, up to and including the
        first for which `wake` reports success. */
    method NotifyOne(wake: Id -> bool) returns (tried: seq<Id>)
      modifies this
      ensures old(waits) == tried + waits
      ensures forall k :: 0 <= k < |tried| - 1 ==> !wake(tried[k])
      ensures waits != [] ==> tried != [] && wake(tried[|tried| - 1])
    {
      tried := [];
      while waits != []
        invariant tried + waits == old(waits)
        invariant forall k :: 0 <= k < |tried| ==> !wake(tried[k])
        decreases |waits|
      {
        var ctx := waits[0];
        waits := waits[1..];
        tried := tried + [ctx];
        if wake(ctx) { break; }
      }
    }

    /** Wakes every waiting context once, longest waiting first. */
    method NotifyAll() returns (woken: seq<Id>)
      modifies this
      ensures waits == [] && woken == old(waits)
    {
      woken := [];
      while waits != []
        invariant woken + waits == old(waits)
        decreases |waits|
      {
        var ctx := waits[0];
        waits := waits[1..];
        woken := woken + [ctx];
      }
    }

    method IsEmpty() returns (empty: bool)
      ensures empty <==> waits == []
    {
      return |waits| == 0;
    }
  }

  // ---------- The protocol ----------

  /** Where a context is between two points at which another one can act.  `user` is the
      caller's lock, `m` the mutex inside the condition variable. */
  datatype At =
    | Away        // holds nothing
    | Locked      // holds user; may test its predicate, change what predicates read, or leave
    | Failed      // holds user; in Wait, after its predicate was false
    | Both        // holds user and m
    | Entering    // holds m; has released user
    | Queued      // holds m; is in the queue, its state not yet saved
    | Parked      // suspended; the context that runs next has released m for it
    | Ready       // woken, to reacquire user
    | Changed     // holds user; has changed what predicates read
    | Owing       // has released user after a change, NotifyAll still to be called
    | Notifying   // holds m; in NotifyAll
    | NotifyingLocked  // holds user and m; in NotifyAll, called before releasing user

  predicate HoldsUser(a: At) { a.Locked? || a.Failed? || a.Both? || a.Changed? || a.NotifyingLocked? }
  predicate HoldsM(a: At) { a.Both? || a.Entering? || a.Queued? || Notifies(a) }
  predicate Notifies(a: At) { a.Notifying? || a.NotifyingLocked? }

  datatype Owner = Free | By(c: Id)

  /** `pred[c]` is the predicate that c passes to Wait; all of them read data that user
      protects. */
  datatype State = State(at: seq<At>, user: Owner, m: Owner, waits: seq<Id>, pred: seq<bool>)

  datatype Step =
    | Lock(c: Id) | Leave(c: Id) | TestFalse(c: Id) | TakeM(c: Id) | UnlockUser(c: Id)
    | Enqueue(c: Id) | Park(c: Id)
    | Change(c: Id, to: seq<bool>) | UnlockChanged(c: Id) | BeginNotify(c: Id) | WakeFirst(c: Id) | EndNotify(c: Id)

  predicate Enabled(s: State, step: Step) {
    step.c < |s.at| == |s.pred| && var a := s.at[step.c];
    match step
    case Lock(_) => (a.Away? || a.Ready?) && s.user.Free?
    case Leave(_) => a.Locked?
    case TestFalse(_) => a.Locked? && !s.pred[step.c]
    case TakeM(_) => a.Failed? && s.m.Free?
    case UnlockUser(_) => a.Both?
    case Enqueue(_) => a.Entering?
    case Park(_) => a.Queued?
    case Change(_, to) => a.Locked? && |to| == |s.pred|
    case UnlockChanged(_) => a.Changed?
    case BeginNotify(_) => (a.Owing? || a.Changed?) && s.m.Free?
    case WakeFirst(_) => Notifies(a) && s.waits != [] && s.waits[0] < |s.at|
    case EndNotify(_) => Notifies(a) && s.waits == []
  }

  function Do(s: State, step: Step): State
    requires Enabled(s, step)
  {
    var c := step.c;
    match step
    case Lock(_) => s.(at := s.at[c := Locked], user := By(c))
    case Leave(_) => s.(at := s.at[c := Away], user := Free)
    case TestFalse(_) => s.(at := s.at[c := Failed])
    case TakeM(_) => s.(at := s.at[c := Both], m := By(c))
    case UnlockUser(_) => s.(at := s.at[c := Entering], user := Free)
    case Enqueue(_) => s.(at := s.at[c := Queued], waits := s.waits + [c])
    case Park(_) => s.(at := s.at[c := Parked], m := Free)
    case Change(_, to) => s.(at := s.at[c := Changed], pred := to)
    case UnlockChanged(_) => s.(at := s.at[c := Owing], user := Free)
    case BeginNotify(_) => s.(at := s.at[c := if s.at[c].Changed? then NotifyingLocked else Notifying], m := By(c))
    case WakeFirst(_) => s.(at := s.at[s.waits[0] := Ready], waits := s.waits[1..])
    case EndNotify(_) => s.(at := s.at[c := if s.at[c].NotifyingLocked? then Locked else Away], m := Free)
  }

  ghost predicate Path(s: State, steps: seq<Step>, s': State)
    decreases |steps|
  {
    if steps == [] then s == s'
    else Enabled(s, steps[0]) && Path(Do(s, steps[0]), steps[1..], s')
  }

  function Start(pred: seq<bool>): State {
    State(seq(|pred|, i => Away), Free, Free, [], pred)
  }

  // ---------- What every step keeps ----------

  /** A lock is owned by the one context whose position says so. */
  ghost predicate LocksExact(s: State) {
    forall c :: 0 <= c < |s.at| ==> (HoldsUser(s.at[c]) <==> s.user == By(c)) && (HoldsM(s.at[c]) <==> s.m == By(c))
  }

  /** The queue holds exactly the contexts that wait, once each. */
  ghost predicate QueueExact(s: State) {
    && (forall k, l :: 0 <= k < l < |s.waits| ==> s.waits[k] != s.waits[l])
    && (forall k :: 0 <= k < |s.waits| ==> s.waits[k] < |s.at|)
    && (forall c :: 0 <= c < |s.at| ==> (c in s.waits <==> s.at[c].Queued? || s.at[c].Parked?))
  }

  /** Whoever holds the user lock after a failed test still finds its predicate false. */
  ghost predicate StillFalse(s: State)
    requires |s.pred| == |s.at|
  {
    forall c :: 0 <= c < |s.at| && (s.at[c].Failed? || s.at[c].Both?) ==> !s.pred[c]
  }

  ghost predicate Ordered(s: State) {
    |s.pred| == |s.at| && LocksExact(s) && QueueExact(s) && StillFalse(s)
  }

  /** Somebody who changed what predicates read has not finished NotifyAll. */
  ghost predicate NotificationDue(s: State) {
    exists p :: 0 <= p < |s.at| && Owes(s.at[p])
  }

  predicate Owes(a: At) { a.Changed? || a.Owing? || Notifies(a) }

  /** A waiter that has given up the user lock and whose predicate holds will be notified. */
  ghost predicate NothingLost(s: State)
    requires |s.pred| == |s.at|
  {
    forall c :: 0 <= c < |s.at| && (s.at[c].Entering? || s.at[c].Queued? || s.at[c].Parked?) && s.pred[c] ==>
        NotificationDue(s)
  }

  lemma EnqueueStep(s: State, c: Id)
    requires QueueExact(s) && Enabled(s, Enqueue(c))
    ensures QueueExact(Do(s, Enqueue(c)))
  {
    var s' := Do(s, Enqueue(c));
    assert c !in s.waits;
    forall d | 0 <= d < |s'.at| ensures d in s'.waits <==> s'.at[d].Queued? || s'.at[d].Parked? {
      assert d in s.waits + [c] <==> d in s.waits || d == c;
    }
  }

  lemma WakeStep(s: State, c: Id)
    requires QueueExact(s) && Enabled(s, WakeFirst(c))
    ensures QueueExact(Do(s, WakeFirst(c)))
  {
    var s' := Do(s, WakeFirst(c));
    assert s.waits == [s.waits[0]] + s'.waits;
    forall d | 0 <= d < |s'.at| ensures d in s'.waits <==> s'.at[d].Queued? || s'.at[d].Parked? {
      assert d in s.waits <==> d == s.waits[0] || d in s'.waits;
    }
  }

  lemma QueueStep(s: State, step: Step)
    requires QueueExact(s) && Enabled(s, step)
    ensures QueueExact(Do(s, step))
  {
    if step.Enqueue? {
      EnqueueStep(s, step.c);
    } else if step.WakeFirst? {
      assert s.waits[0] in s.waits;
      WakeStep(s, step.c);
    }
  }

  lemma LocksStep(s: State, step: Step)
    requires LocksExact(s) && Enabled(s, step) && (step.WakeFirst? ==> s.waits[0] in s.waits && QueueExact(s))
    ensures LocksExact(Do(s, step))
  {
  }

  lemma OrderedStep(s: State, step: Step)
    requires Ordered(s) && Enabled(s, step)
    ensures Ordered(Do(s, step))
  {
    QueueStep(s, step);
    if step.WakeFirst? {
      assert s.waits[0] in s.waits;
    }
    LocksStep(s, step);
  }

  lemma NothingLostStep(s: State, step: Step)
    requires Ordered(s) && NothingLost(s) && Enabled(s, step)
    ensures NothingLost(Do(s, step))
  {
    var s' := Do(s, step);
    forall c | 0 <= c < |s'.at| && (s'.at[c].Entering? || s'.at[c].Queued? || s'.at[c].Parked?) && s'.pred[c]
      ensures NotificationDue(s')
    {
      if step.Change? {
        assert s'.at[step.c].Changed?;
      } else if step.EndNotify? {
        // m is held, so nobody is entering; the queue is empty, so nobody waits.
        assert false;
      } else if !(step.UnlockUser? && c == step.c) {
        var p :| 0 <= p < |s.at| && Owes(s.at[p]);
        assert Owes(s'.at[p]);
      }
    }
  }

  lemma {:induction false} KeptOnPath(s: State, steps: seq<Step>, s': State)
    requires Ordered(s) && NothingLost(s) && Path(s, steps, s')
    ensures Ordered(s') && NothingLost(s')
    decreases |steps|
  {
    if steps != [] {
      OrderedStep(s, steps[0]);
      NothingLostStep(s, steps[0]);
      KeptOnPath(Do(s, steps[0]), steps[1..], s');
    }
  }

  /** No lost wakeup: in every reachable state of any number of contexts, each with a
      predicate of its own, if one is parked while its predicate holds then a notification
      is still due. */
  lemma NoLostWakeup(pred: seq<bool>, steps: seq<Step>, s: State, c: Id)
    requires Path(Start(pred), steps, s)
    requires c < |s.at| == |s.pred| && s.at[c].Parked? && s.pred[c]
    ensures exists p :: 0 <= p < |s.at| &&
              (s.at[p].Changed? || s.at[p].Owing? || s.at[p].Notifying? || s.at[p].NotifyingLocked?)
  {
    KeptOnPath(Start(pred), steps, s);
  }

  /** NotifyAll wakes the longest waiting first, only contexts that are completely suspended,
      and when it ends nobody is parked. */
  lemma NotifyWakesTheParked(pred: seq<bool>, steps: seq<Step>, s: State, step: Step)
    requires Path(Start(pred), steps, s) && Enabled(s, step)
    ensures step.WakeFirst? ==>
              && s.at[s.waits[0]].Parked? && Do(s, step).at == s.at[s.waits[0] := Ready]
              && Do(s, step).waits == s.waits[1..]
    ensures step.EndNotify? ==> forall c :: 0 <= c < |s.at| ==> !s.at[c].Parked?
  {
    KeptOnPath(Start(pred), steps, s);
    if step.WakeFirst? {
      assert s.waits[0] in s.waits;
    }
  }

  // ---------- Waiting and waking go through ----------

  lemma PathFirst(s: State, step: Step, rest: seq<Step>, s': State)
    requires Enabled(s, step) && Path(Do(s, step), rest, s')
    ensures Path(s, [step] + rest, s')
  {
    assert ([step] + rest)[1..] == rest;
  }

  /** Wait, called by the owner of the user lock whose predicate is false, parks it at the end
      of the queue with both locks free. */
  lemma WaitParks(s: State, c: Id) returns (s': State)
    requires c < |s.at| == |s.pred| && s.at[c].Locked? && !s.pred[c] && s.m.Free?
    ensures Path(s, [TestFalse(c), TakeM(c), UnlockUser(c), Enqueue(c), Park(c)], s')
    ensures s' == State(s.at[c := Parked], Free, Free, s.waits + [c], s.pred)
  {
    var s1 := Do(s, TestFalse(c));
    var s2 := Do(s1, TakeM(c));
    var s3 := Do(s2, UnlockUser(c));
    var s4 := Do(s3, Enqueue(c));
    s' := Do(s4, Park(c));
    PathFirst(s4, Park(c), [], s');
    PathFirst(s3, Enqueue(c), [Park(c)], s');
    PathFirst(s2, UnlockUser(c), [Enqueue(c), Park(c)], s');
    PathFirst(s1, TakeM(c), [UnlockUser(c), Enqueue(c), Park(c)], s');
    PathFirst(s, TestFalse(c), [TakeM(c), UnlockUser(c), Enqueue(c), Park(c)], s');
  }

  /** After a change whoever holds the user lock gives it up and gets into NotifyAll. */
  lemma ChangeNotifies(s: State, c: Id, to: seq<bool>) returns (s': State)
    requires c < |s.at| == |s.pred| == |to| && s.at[c].Locked? && s.m.Free?
    ensures Path(s, [Change(c, to), UnlockChanged(c), BeginNotify(c)], s')
    ensures s' == State(s.at[c := Notifying], Free, By(c), s.waits, to)
  {
    var s1 := Do(s, Change(c, to));
    var s2 := Do(s1, UnlockChanged(c));
    s' := Do(s2, BeginNotify(c));
    PathFirst(s2, BeginNotify(c), [], s');
    PathFirst(s1, UnlockChanged(c), [BeginNotify(c)], s');
    PathFirst(s, Change(c, to), [UnlockChanged(c), BeginNotify(c)], s');
  }

  /** Once in NotifyAll a context can wake all that wait, and they then are ready to take the
      user lock again. */
  lemma {:induction false} NotifierFinishes(s: State, c: Id) returns (steps: seq<Step>, s': State)
    requires Ordered(s) && c < |s.at| && s.at[c].Notifying?
    ensures Path(s, steps, s') && s'.waits == [] && s'.m.Free? && s'.user == s.user && s'.pred == s.pred
    ensures |s'.at| == |s.at| && s'.at[c].Away?
    ensures forall d :: 0 <= d < |s.at| && d != c ==> s'.at[d] == if d in s.waits then Ready else s.at[d]
    decreases |s.waits|
  {
    if s.waits == [] {
      steps, s' := [EndNotify(c)], Do(s, EndNotify(c));
      PathFirst(s, EndNotify(c), [], s');
    } else {
      var s1 := Do(s, WakeFirst(c));
      assert s.waits[0] in s.waits && s.waits == [s.waits[0]] + s1.waits;
      OrderedStep(s, WakeFirst(c));
      steps, s' := NotifierFinishes(s1, c);
      PathFirst(s, WakeFirst(c), steps, s');
      steps := [WakeFirst(c)] + steps;
    }
  }

  /** A wait and its notification: context 0 waits, 1 makes its predicate true and notifies,
      and 0 owns the user lock again, with nothing left to wait for. */
  lemma WaitReturns() returns (steps: seq<Step>, s: State)
    ensures Path(Start([false, true]), steps, s)
    ensures s.at == [Locked, Away] && s.user == By(0) && s.pred == [true, true] && s.waits == []
  {
    var waits, s1 := ZeroWaits();
    var s2 := Do(s1, Lock(1));
    var s3 := ChangeNotifies(s2, 1, [true, true]);
    var wakes, s4 := NotifierWakesZero(s3);
    s := Do(s4, Lock(0));
    PathFirst(s4, Lock(0), [], s);
    PathAppend(s3, wakes, s4, [Lock(0)], s);
    steps := [Change(1, [true, true]), UnlockChanged(1), BeginNotify(1)];
    PathAppend(s2, steps, s3, wakes + [Lock(0)], s);
    steps := steps + (wakes + [Lock(0)]);
    PathFirst(s1, Lock(1), steps, s);
    PathAppend(Start([false, true]), waits, s1, [Lock(1)] + steps, s);
    steps := waits + ([Lock(1)] + steps);
  }

  lemma ZeroWaits() returns (steps: seq<Step>, s: State)
    ensures Path(Start([false, true]), steps, s)
    ensures s == State([Parked, Away], Free, Free, [0], [false, true])
  {
    var s0 := Do(Start([false, true]), Lock(0));
    s := WaitParks(s0, 0);
    steps := [TestFalse(0), TakeM(0), UnlockUser(0), Enqueue(0), Park(0)];
    PathFirst(Start([false, true]), Lock(0), steps, s);
    steps := [Lock(0)] + steps;
  }

  lemma NotifierWakesZero(s: State) returns (steps: seq<Step>, s': State)
    requires s == State([Parked, Notifying], Free, By(1), [0], [true, true])
    ensures Path(s, steps, s') && s' == State([Ready, Away], Free, Free, [], [true, true])
  {
    OrderedAtNotify(s);
    steps, s' := NotifierFinishes(s, 1);
  }

  lemma OrderedAtNotify(s: State)
    requires s == State([Parked, Notifying], Free, By(1), [0], [true, true])
    ensures Ordered(s)
  {
  }

  lemma {:induction false} PathAppend(s: State, steps: seq<Step>, s1: State, more: seq<Step>, s2: State)
    requires Path(s, steps, s1) && Path(s1, more, s2)
    ensures Path(s, steps + more, s2)
    decreases |steps|
  {
    if steps == [] {
      assert steps + more == more;
    } else {
      PathAppend(Do(s, steps[0]), steps[1..], s1, more, s2);
      PathFirst(s, steps[0], steps[1..] + more, s2);
      assert steps + more == [steps[0]] + (steps[1..] + more);
    }
  }
}
