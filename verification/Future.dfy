/** SharedState and TaskObject: the one-shot cell behind a future. */
module Future {
  import opened Wrappers

  /** How a call ended, or how Get ends. */
  datatype Outcome<V, E> = Value(v: V) | Exception(e: E)

  datatype Status = Done | AlreadySatisfied

  /** The members of SharedState that the mutex protects. */
  datatype Cell<V, E> = Cell(ready: bool, except: Option<E>, storage: Option<V>)
  {
    predicate Valid() {
      ready ==> except.Some? || storage.Some?
    }

    /** What Get reports; None while it would wait. */
    function Outcome(): Option<Outcome<V, E>>
      requires Valid()
    {
      if !ready then None
      else if except.Some? then Some(Exception(except.value))
      else Some(Value(storage.value))
    }
  }

  /** The section of SetValue or SetException under the mutex. */
  function Stored<V, E>(c: Cell<V, E>, r: Outcome<V, E>): Cell<V, E> {
    if c.ready then c
    else match r
      case Value(v) => c.(ready := true, storage := Some(v))
      case Exception(e) => c.(ready := true, except := Some(e))
  }

  class SharedState<V, E> {
    var ready: bool
    var except: Option<E>
    var storage: Option<V>

    function View(): Cell<V, E>
      reads this
    {
      Cell(ready, except, storage)
    }

    constructor ()
      ensures View() == Cell(false, None, None)
    {
      ready, except, storage := false, None, None;
    }

    /** The rvalue overload of SetValue, up to the notification. */
    method SetValue(value: V) returns (r: Status)
      requires View().Valid() && (!ready ==> except.None?)
      modifies this
      ensures View().Valid() && (!ready ==> except.None?)
      ensures View() == Stored(old(View()), Value(value)) && r == (if old(ready) then AlreadySatisfied else Done)
      ensures !old(ready) ==> ready && storage == Some(value) && except == None
      ensures old(ready) ==> ready && storage == old(storage) && except == old(except)
      ensures !old(ready) ==> View().Outcome() == Some(Value(value))
    {
      if ready {
        return AlreadySatisfied;
      }
      storage := Some(value);
      ready := true;
      return Done;
    }

    method SetException(e: E) returns (r: Status)
      requires View().Valid() && (!ready ==> except.None?)
      modifies this
      ensures View().Valid() && (!ready ==> except.None?)
      ensures View() == Stored(old(View()), Exception(e)) && r == (if old(ready) then AlreadySatisfied else Done)
      ensures !old(ready) ==> ready && except == Some(e) && storage == old(storage)
      ensures old(ready) ==> ready && storage == old(storage) && except == old(except)
      ensures !old(ready) ==> View().Outcome() == Some(Exception(e))
    {
      if ready {
        return AlreadySatisfied;
      }
      except := Some(e);
      ready := true;
      return Done;
    }

    /** Get after its wait: returns the stored value or rethrows the stored exception. */
    method Take() returns (r: Outcome<V, E>)
      requires View().Valid() && ready
      ensures except.Some? ==> r == Exception(except.value)
      ensures except.None? ==> storage.Some? && r == Value(storage.value)
      ensures View().Outcome() == Some(r)
    {
      if except.Some? {
        return Exception(except.value);
      }
      return Value(storage.value);
    }

    /** TaskObject::Run when the function ends with `result`.  A SetValue that throws
        lands in the same catch block as the function, with `already` as the exception;
        the exception of the SetException there leaves Run. */
    method Run(result: Outcome<V, E>, already: E) returns (threw: bool)
      requires View().Valid() && (!ready ==> except.None?)
      modifies this
      ensures View().Valid() && (!ready ==> except.None?)
      ensures threw <==> old(ready)
      ensures View().Outcome() == if old(ready) then old(View()).Outcome() else Some(result)
    {
      var caught := already;
      if result.Value? {
        var r := SetValue(result.v);
        if r == Done {
          return false;
        }
      } else {
        caught := result.e;
      }
      var r := SetException(caught);
      return r == AlreadySatisfied;
    }
  }

  // ---------- Many runners and getters ----------

  /** A thread that uses the cell. */
  datatype Agent<V, E> =
    | Idle
    | Applied(result: Outcome<V, E>)    // the function has ended; nothing is stored yet
    | Refused                           // its SetValue threw; in the catch block
    | Notifying(result: Outcome<V, E>)  // has stored and unlocked, notify_all still to come
    | Returned(result: Outcome<V, E>)
    | Threw                             // Run was left by TaskAlreadySatisfied
    | Asleep                            // in Wait
    | Awake                             // notified or spuriously awake
    | Got(result: Outcome<V, E>)

  /** `stores` lists the results that were stored, in order. */
  datatype State<V, E> = State(cell: Cell<V, E>, agents: seq<Agent<V, E>>, stores: seq<Outcome<V, E>>)

  datatype Step<V, E> =
    | Call(t: nat, result: Outcome<V, E>)
    | Store(t: nat)
    | Notify(t: nat)
    | Get(t: nat)
    | Wake(t: nat)
    | Again(t: nat)     // an agent that is done starts over

  predicate Enabled<V, E>(s: State<V, E>, step: Step<V, E>) {
    step.t < |s.agents| && var a := s.agents[step.t];
    match step
    case Call(_, _) => a.Idle?
    case Store(_) => a.Applied? || a.Refused?
    case Notify(_) => a.Notifying?
    case Get(_) => a.Idle? || a.Awake?
    case Wake(_) => a.Asleep?
    case Again(_) => a.Returned? || a.Threw? || a.Got?
  }

  function Roused<V, E>(a: Agent<V, E>): Agent<V, E> {
    if a.Asleep? then Awake else a
  }

  function Do<V, E>(s: State<V, E>, step: Step<V, E>): State<V, E>
    requires s.cell.Valid() && Enabled(s, step)
  {
    var t, a := step.t, s.agents[step.t];
    match step
    case Call(_, result) => s.(agents := s.agents[t := Applied(result)])
    case Store(_) =>
      if !s.cell.ready && a.Applied? then
        State(Stored(s.cell, a.result), s.agents[t := Notifying(a.result)], s.stores + [a.result])
      else s.(agents := s.agents[t := if a.Applied? && a.result.Value? then Refused else Threw])
    case Notify(_) =>
      s.(agents := seq(|s.agents|, i requires 0 <= i < |s.agents| =>
                       if i == t then Returned(a.result) else Roused(s.agents[i])))
    case Get(_) =>
      s.(agents := s.agents[t := if s.cell.ready then Got(s.cell.Outcome().value) else Asleep])
    case Wake(_) => s.(agents := s.agents[t := Awake])
    case Again(_) => s.(agents := s.agents[t := Idle])
  }

  /** What an agent was told agrees with the cell; being refused means it was ready. */
  predicate Informed<V(==), E(==)>(cell: Cell<V, E>, a: Agent<V, E>)
    requires cell.Valid()
  {
    match a
    case Notifying(r) => cell.Outcome() == Some(r)
    case Returned(r) => cell.Outcome() == Some(r)
    case Got(r) => cell.Outcome() == Some(r)
    case Refused => cell.ready
    case Threw => cell.ready
    case _ => true
  }

  ghost predicate NotifyDue<V, E>(s: State<V, E>) {
    exists u :: 0 <= u < |s.agents| && s.agents[u].Notifying?
  }

  /** At most one store ever succeeded and the cell holds it; everybody was told so; and
      nobody sleeps on a ready cell without a notification to come. */
  ghost predicate WriteOnce<V, E>(s: State<V, E>) {
    && s.cell.Valid() && (!s.cell.ready ==> s.cell.except.None?)
    && (match s.cell.Outcome() case None => s.stores == [] case Some(r) => s.stores == [r])
    && (forall t :: 0 <= t < |s.agents| ==> Informed(s.cell, s.agents[t]))
    && (forall t :: 0 <= t < |s.agents| && s.agents[t].Asleep? && s.cell.ready ==> NotifyDue(s))
  }

  lemma CellStep<V, E>(s: State<V, E>, step: Step<V, E>)
    requires WriteOnce(s) && Enabled(s, step)
    ensures var c := Do(s, step).cell;
            && c.Valid() && (!c.ready ==> c.except.None?)
            && (match c.Outcome() case None => Do(s, step).stores == [] case Some(r) => Do(s, step).stores == [r])
            && (s.cell.ready ==> c == s.cell)
            && forall t :: 0 <= t < |s.agents| ==> Informed(c, Do(s, step).agents[t])
  {
    forall t | 0 <= t < |s.agents| ensures Informed(Do(s, step).cell, Do(s, step).agents[t]) {
      assert Informed(s.cell, s.agents[t]);
    }
  }

  lemma WriteOnceStep<V, E>(s: State<V, E>, step: Step<V, E>)
    requires WriteOnce(s) && Enabled(s, step)
    ensures WriteOnce(Do(s, step))
    ensures s.cell.ready ==> Do(s, step).cell == s.cell
  {
    var s', t := Do(s, step), step.t;
    CellStep(s, step);
    if s'.cell.ready && !s.cell.ready {
      assert s'.agents[t].Notifying?;
    } else if NotifyDue(s) && !step.Notify? {
      var u :| 0 <= u < |s.agents| && s.agents[u].Notifying?;
      assert s'.agents[u].Notifying?;
    }
  }

  ghost predicate Path<V, E>(s: State<V, E>, steps: seq<Step<V, E>>, s': State<V, E>)
    decreases |steps|
  {
    s.cell.Valid() &&
    if steps == [] then s == s'
    else Enabled(s, steps[0]) && Path(Do(s, steps[0]), steps[1..], s')
  }

  /** Under every interleaving at most one call ever decides the outcome, readiness and
      outcome never change again, and every Get that returns, before or after, reports
      the winner's result. */
  lemma {:induction false} FirstWriterWins<V, E>(s: State<V, E>, steps: seq<Step<V, E>>, s': State<V, E>)
    requires WriteOnce(s) && Path(s, steps, s')
    ensures WriteOnce(s')
    ensures s.cell.ready ==> s'.cell == s.cell
    decreases |steps|
  {
    if steps != [] {
      WriteOnceStep(s, steps[0]);
      FirstWriterWins(Do(s, steps[0]), steps[1..], s');
    }
  }

  /** A new cell and n agents. */
  function Start<V, E>(n: nat): State<V, E> {
    State(Cell(false, None, None), seq(n, i => Idle), [])
  }

  /** From a new cell: at most one store succeeds, the cell is ready exactly when it has,
      and every Get or Run that returned did so with its result. */
  lemma GetReportsTheWinner<V, E>(n: nat, steps: seq<Step<V, E>>, s: State<V, E>, t: nat)
    requires Path(Start(n), steps, s) && t < |s.agents|
    ensures |s.stores| == if s.cell.ready then 1 else 0
    ensures s.agents[t].Got? || s.agents[t].Returned? ==> s.stores == [s.agents[t].result]
    ensures s.agents[t].Threw? ==> s.cell.ready
    ensures s.agents[t].Asleep? && s.cell.ready ==> exists u :: 0 <= u < |s.agents| && s.agents[u].Notifying?
  {
    FirstWriterWins(Start(n), steps, s);
    assert Informed(s.cell, s.agents[t]);
  }

  /** What Get does when it has the mutex: with a ready cell the agent gets the outcome, else
      it sleeps; nobody else and nothing stored changes. */
  lemma GetStep<V, E>(s: State<V, E>, t: nat)
    requires s.cell.Valid() && Enabled(s, Get(t))
    ensures Do(s, Get(t)) == s.(agents := s.agents[t := Do(s, Get(t)).agents[t]])
    ensures s.cell.ready && s.cell.except.Some? ==> Do(s, Get(t)).agents[t] == Got(Exception(s.cell.except.value))
    ensures s.cell.ready && s.cell.except.None? ==>
              s.cell.storage.Some? && Do(s, Get(t)).agents[t] == Got(Value(s.cell.storage.value))
    ensures !s.cell.ready ==> Do(s, Get(t)).agents[t] == Asleep
  {
  }

  lemma PathFirst<V, E>(s: State<V, E>, step: Step<V, E>, rest: seq<Step<V, E>>, s': State<V, E>)
    requires s.cell.Valid() && Enabled(s, step) && Path(Do(s, step), rest, s')
    ensures Path(s, [step] + rest, s')
  {
    assert ([step] + rest)[1..] == rest;
  }

  /** A runner on a cell that is not ready stores and notifies, and getters that slept, like
      those that come later, get its result. */
  lemma RunThenGet<V, E>(s: State<V, E>, t: nat, g: nat, result: Outcome<V, E>) returns (s': State<V, E>)
    requires WriteOnce(s) && !s.cell.ready && t < |s.agents| && g < |s.agents| && g != t
    requires s.agents[t].Idle? && (s.agents[g].Idle? || s.agents[g].Asleep?)
    ensures Path(s, [Call(t, result), Store(t), Notify(t), Get(g)], s')
    ensures t < |s'.agents| && s'.agents[t] == Returned(result)
    ensures g < |s'.agents| && s'.agents[g] == Got(result) && s'.stores == s.stores + [result]
  {
    var s1 := Do(s, Call(t, result));
    WriteOnceStep(s, Call(t, result));
    var s2 := Do(s1, Store(t));
    WriteOnceStep(s1, Store(t));
    assert s2.agents == s1.agents[t := Notifying(result)] && s2.cell.Outcome() == Some(result);
    var s3 := Do(s2, Notify(t));
    WriteOnceStep(s2, Notify(t));
    assert s3.agents[t] == Returned(result) && (s3.agents[g].Idle? || s3.agents[g].Awake?);
    s' := Do(s3, Get(g));
    GetStep(s3, g);
    WriteOnceStep(s3, Get(g));
    PathFirst(s3, Get(g), [], s');
    PathFirst(s2, Notify(t), [Get(g)], s');
    PathFirst(s1, Store(t), [Notify(t), Get(g)], s');
    PathFirst(s, Call(t, result), [Store(t), Notify(t), Get(g)], s');
  }

  /** A runner on a ready cell changes nothing and throws: its store is refused, and with it
      the store of the refusal in the catch block. */
  lemma LateRunThrows<V, E>(s: State<V, E>, t: nat, result: Outcome<V, E>) returns (s': State<V, E>)
    requires s.cell.Valid() && s.cell.ready && t < |s.agents| && s.agents[t].Idle?
    ensures Path(s, [Call(t, result), Store(t)] + if result.Value? then [Store(t)] else [], s')
    ensures s' == s.(agents := s.agents[t := Threw])
  {
    var s1 := Do(s, Call(t, result));
    var s2 := Do(s1, Store(t));
    if result.Value? {
      s' := Do(s2, Store(t));
      PathFirst(s2, Store(t), [], s');
      PathFirst(s1, Store(t), [Store(t)], s');
      PathFirst(s, Call(t, result), [Store(t), Store(t)], s');
      assert [Call(t, result), Store(t)] + [Store(t)] == [Call(t, result)] + [Store(t), Store(t)];
    } else {
      s' := s2;
      PathFirst(s1, Store(t), [], s');
      PathFirst(s, Call(t, result), [Store(t)], s');
      assert [Call(t, result), Store(t)] + [] == [Call(t, result)] + [Store(t)];
    }
  }

  /** A getter that wakes up although the cell is not ready goes back to sleep. */
  lemma SpuriousWakeup<V, E>(s: State<V, E>, t: nat)
    requires s.cell.Valid() && !s.cell.ready && t < |s.agents| && s.agents[t].Asleep?
    ensures Path(s, [Wake(t), Get(t)], s)
  {
    var s1 := Do(s, Wake(t));
    assert Do(s1, Get(t)) == s;
    PathFirst(s1, Get(t), [], s);
    PathFirst(s, Wake(t), [Get(t)], s);
  }
}
