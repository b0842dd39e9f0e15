/**
 The single-assignment cell behind every future: a value that is set once, and a queue of callbacks
 that are handed to their execution contexts when the value is there.

 The critical sections of the cell are pure functions on `Cell`; the class `Deferred` performs the
 same sections in place; `Exec` runs them in any order that clients on several threads can produce.
 */
module Deferral {
  import opened Outcomes

  datatype Cell<+T, +C> = Cell(value: Option<Try<T>>, callbacks: seq<C>)

  /** A runnable handed to an execution context: a callback with the result it will receive. */
  datatype Dispatch<+T, +C> = Dispatch(callback: C, argument: Try<T>)

  function EmptyCell<T, C>(): Cell<T, C> {
    Cell(None, [])
  }

  function Dispatches<T, C>(r: Try<T>, callbacks: seq<C>): seq<Dispatch<T, C>> {
    seq(|callbacks|, i requires 0 <= i < |callbacks| => Dispatch(callbacks[i], r))
  }

  /** What one pass of the trigger loop posts: every queued callback, oldest first, once the value is set. */
  function Posts<T, C>(c: Cell<T, C>): seq<Dispatch<T, C>> {
    if c.value.None? then [] else Dispatches(c.value.value, c.callbacks)
  }

  /** The cell after one pass of the trigger loop. */
  function Triggered<T, C>(c: Cell<T, C>): Cell<T, C> {
    if c.value.None? then c else c.(callbacks := [])
  }

  function Stored<T, C>(c: Cell<T, C>, r: Try<T>): Cell<T, C> {
    c.(value := Some(r))
  }

  function Queued<T, C>(c: Cell<T, C>, callback: C): Cell<T, C> {
    c.(callbacks := c.callbacks + [callback])
  }

  // ---------------------------------------------------------------------------------------------
  // The cell in place
  // ---------------------------------------------------------------------------------------------

  /** `posted` records, in order, the calls of `execute` that the cell has made on execution contexts. */
  class Deferred<T, C> {
    var value: Option<Try<T>>
    var callbacks: seq<C>
    var posted: seq<Dispatch<T, C>>

    ghost function View(): Cell<T, C>
      reads this
    {
      Cell(value, callbacks)
    }

    constructor ()
      ensures View() == EmptyCell() && posted == []
    {
      value, callbacks, posted := None, [], [];
    }

    /** The private trigger loop; every caller holds the lock. */
    method DrainCallbacks()
      modifies this
      ensures View() == Triggered(old(View()))
      ensures posted == old(posted) + Posts(old(View()))
    {
      if value.None? || callbacks == [] {
        return;
      }
      ghost var n := 0;
      while callbacks != []
        invariant n <= |old(callbacks)| && callbacks == old(callbacks)[n..]
        invariant value == old(value)
        invariant posted == old(posted) + Posts(old(View()))[..n]
        decreases |callbacks|
      {
        var callback := callbacks[0];
        posted := posted + [Dispatch(callback, value.value)];
        callbacks := callbacks[1..];
        n := n + 1;
      }
    }

    /** The locked block of `setResult`: refuse a second result, store the first. */
    method StoreResult(r: Try<T>) returns (accepted: bool)
      modifies this
      ensures accepted == old(value).None?
      ensures posted == old(posted)
      ensures View() == if accepted then Stored(old(View()), r) else old(View())
    {
      accepted := value.None?;
      if accepted {
        value := Some(r);
      }
    }

    method Trigger()
      modifies this
      ensures View() == Triggered(old(View()))
      ensures posted == old(posted) + Posts(old(View()))
    {
      DrainCallbacks();
    }

    /** `setResult` when nobody interferes between its two critical sections. */
    method SetResult(r: Try<T>) returns (accepted: bool)
      modifies this
      ensures accepted == old(value).None?
      ensures View() == if accepted then Triggered(Stored(old(View()), r)) else old(View())
      ensures posted == old(posted) + if accepted then Posts(Stored(old(View()), r)) else []
    {
      accepted := StoreResult(r);
      if accepted {
        Trigger();
      }
    }

    /** `setValue` and `setError`: one critical section both stores and drains. */
    method SetNow(r: Try<T>) returns (accepted: bool)
      modifies this
      ensures accepted == old(value).None?
      ensures View() == if accepted then Triggered(Stored(old(View()), r)) else old(View())
      ensures posted == old(posted) + if accepted then Posts(Stored(old(View()), r)) else []
    {
      accepted := value.None?;
      if accepted {
        value := Some(r);
        DrainCallbacks();
      }
    }

    method AddCallback(callback: C)
      modifies this
      ensures View() == Triggered(Queued(old(View()), callback))
      ensures posted == old(posted) + Posts(Queued(old(View()), callback))
    {
      callbacks := callbacks + [callback];
      DrainCallbacks();
    }
  }

  /** The write side of a cell. `false` stands for the thrown ALREADY_COMPLETED. */
  class Promise<T, C> {
    const cell: Deferred<T, C>

    constructor ()
      ensures fresh(cell) && cell.View() == EmptyCell() && cell.posted == []
    {
      cell := new Deferred();
    }

    method Complete(r: Try<T>) returns (returned: bool)
      modifies cell
      ensures returned == old(cell.value).None?
      ensures cell.value == if returned then Some(r) else old(cell.value)
      ensures returned ==> cell.callbacks == [] && cell.posted == old(cell.posted) + Dispatches(r, old(cell.callbacks))
      ensures !returned ==> cell.View() == old(cell.View()) && cell.posted == old(cell.posted)
    {
      returned := cell.SetResult(r);
    }

    method TryComplete(r: Try<T>) returns (won: bool)
      modifies cell
      ensures won == old(cell.value).None?
      ensures cell.value == if won then Some(r) else old(cell.value)
      ensures won ==> cell.callbacks == [] && cell.posted == old(cell.posted) + Dispatches(r, old(cell.callbacks))
      ensures !won ==> cell.View() == old(cell.View()) && cell.posted == old(cell.posted)
    {
      won := Complete(r);
    }

    method TrySuccess(v: T) returns (won: bool)
      modifies cell
      ensures won == old(cell.value).None?
      ensures cell.value == if won then Some(Success(v)) else old(cell.value)
      ensures won ==> cell.callbacks == [] && cell.posted == old(cell.posted) + Dispatches(Success(v), old(cell.callbacks))
      ensures !won ==> cell.View() == old(cell.View()) && cell.posted == old(cell.posted)
    {
      won := cell.SetNow(Success(v));
    }

    method TryFailure(e: Exception) returns (won: bool)
      modifies cell
      ensures won == old(cell.value).None?
      ensures cell.value == if won then Some(Failure(e)) else old(cell.value)
      ensures won ==> cell.callbacks == [] && cell.posted == old(cell.posted) + Dispatches(Failure(e), old(cell.callbacks))
      ensures !won ==> cell.View() == old(cell.View()) && cell.posted == old(cell.posted)
    {
      won := cell.SetNow(Failure(e));
    }
  }

  // ---------------------------------------------------------------------------------------------
  // Every interleaving of the critical sections
  // ---------------------------------------------------------------------------------------------

  /** One atomic step taken by some thread. `RunNext` is the thread of a single-thread FIFO context
      taking the oldest runnable posted to it. */
  datatype Op<+T, +C> =
    | StoreFirst(r: Try<T>)
    | TriggerLater
    | StoreAndTrigger(r: Try<T>)
    | Register(callback: C)
    | RunNext

  /** `owed` counts the calls of `setResult` that have stored and not yet triggered. */
  datatype Machine<+T, +C> = Machine(
    cell: Cell<T, C>,
    owed: nat,
    queue: seq<Dispatch<T, C>>,
    executed: seq<Dispatch<T, C>>)
  {
    function Posted(): seq<Dispatch<T, C>> {
      executed + queue
    }
  }

  function Start<T, C>(): Machine<T, C> {
    Machine(EmptyCell(), 0, [], [])
  }

  predicate IsCompletion<T, C>(op: Op<T, C>) {
    op.StoreFirst? || op.StoreAndTrigger?
  }

  /** A trigger happens only on behalf of a `setResult` that has stored; the context runs only what it holds. */
  predicate Enabled<T, C>(m: Machine<T, C>, op: Op<T, C>) {
    && (op.TriggerLater? ==> m.owed > 0)
    && (op.RunNext? ==> m.queue != [])
  }

  function Drain<T, C>(m: Machine<T, C>): Machine<T, C> {
    m.(cell := Triggered(m.cell), queue := m.queue + Posts(m.cell))
  }

  function Step<T, C>(m: Machine<T, C>, op: Op<T, C>): Machine<T, C>
    requires Enabled(m, op)
  {
    match op
    case StoreFirst(r) => if m.cell.value.Some? then m else m.(cell := Stored(m.cell, r), owed := m.owed + 1)
    case TriggerLater => Drain(m.(owed := m.owed - 1))
    case StoreAndTrigger(r) => if m.cell.value.Some? then m else Drain(m.(cell := Stored(m.cell, r)))
    case Register(callback) => Drain(m.(cell := Queued(m.cell, callback)))
    case RunNext => m.(queue := m.queue[1..], executed := m.executed + [m.queue[0]])
  }

  /** Steps are consumed from the end, so that `ops` is the history of the resulting machine. */
  predicate Feasible<T, C>(ops: seq<Op<T, C>>)
    decreases |ops|, 0
  {
    |ops| == 0 || (Feasible(ops[..|ops| - 1]) && Enabled(Exec(ops[..|ops| - 1]), ops[|ops| - 1]))
  }

  function Exec<T, C>(ops: seq<Op<T, C>>): Machine<T, C>
    requires Feasible(ops)
    decreases |ops|, 1
  {
    if |ops| == 0 then Start() else Step(Exec(ops[..|ops| - 1]), ops[|ops| - 1])
  }

  /** The callbacks registered by a history, in the order in which they took the lock. */
  function RegisteredIn<T, C>(ops: seq<Op<T, C>>): seq<C> {
    if |ops| == 0 then []
    else
      var op := ops[|ops| - 1];
      RegisteredIn(ops[..|ops| - 1]) + if op.Register? then [op.callback] else []
  }

  function CallbacksOf<T, C>(ds: seq<Dispatch<T, C>>): seq<C> {
    seq(|ds|, i requires 0 <= i < |ds| => ds[i].callback)
  }

  lemma CallbacksOfConcat<T, C>(ds: seq<Dispatch<T, C>>, es: seq<Dispatch<T, C>>)
    ensures CallbacksOf(ds + es) == CallbacksOf(ds) + CallbacksOf(es)
  {
  }

  lemma CallbacksOfDispatches<T, C>(r: Try<T>, callbacks: seq<C>)
    ensures CallbacksOf(Dispatches(r, callbacks)) == callbacks
  {
  }

  lemma DrainKeepsOrder<T, C>(m: Machine<T, C>)
    ensures CallbacksOf(Drain(m).Posted()) + Drain(m).cell.callbacks == CallbacksOf(m.Posted()) + m.cell.callbacks
  {
    assert Drain(m).Posted() == m.Posted() + Posts(m.cell);
    CallbacksOfConcat(m.Posted(), Posts(m.cell));
    if m.cell.value.Some? {
      CallbacksOfDispatches(m.cell.value.value, m.cell.callbacks);
    } else {
      assert CallbacksOf(m.Posted()) + [] == CallbacksOf(m.Posted());
    }
  }

  /** Exactly once and in order: whatever the interleaving, the callbacks run so far, then those waiting
      in the context, then those still queued in the cell, are the registrations in lock order. */
  lemma {:induction false} ExactlyOnceInOrder<T, C>(ops: seq<Op<T, C>>)
    requires Feasible(ops)
    ensures var m := Exec(ops);
      CallbacksOf(m.executed) + CallbacksOf(m.queue) + m.cell.callbacks == RegisteredIn(ops)
  {
    var m := Exec(ops);
    if |ops| > 0 {
      var before, op := Exec(ops[..|ops| - 1]), ops[|ops| - 1];
      ExactlyOnceInOrder(ops[..|ops| - 1]);
      CallbacksOfConcat(before.executed, before.queue);
      CallbacksOfConcat(m.executed, m.queue);
      match op
      case StoreFirst(r) =>
      case TriggerLater => DrainKeepsOrder(before.(owed := before.owed - 1));
      case StoreAndTrigger(r) =>
        if before.cell.value.None? {
          DrainKeepsOrder(before.(cell := Stored(before.cell, r)));
        }
      case Register(callback) => DrainKeepsOrder(before.(cell := Queued(before.cell, callback)));
      case RunNext => assert m.Posted() == before.Posted();
    }
  }

  /** A callback is dispatched only when the value is set, and with that value. A queued callback can
      face a set value only while a `setResult` still owes its trigger, and at most one ever does. */
  lemma {:induction false} DispatchedWithTheValue<T, C>(ops: seq<Op<T, C>>)
    requires Feasible(ops)
    ensures var m := Exec(ops);
      && (forall d :: d in m.executed || d in m.queue ==> m.cell.value == Some(d.argument))
      && m.owed <= 1
      && (m.owed == 1 ==> m.cell.value.Some?)
      && (m.cell.value.Some? && m.cell.callbacks != [] ==> m.owed == 1)
  {
    if |ops| > 0 {
      DispatchedWithTheValue(ops[..|ops| - 1]);
    }
  }

  /** At rest, with the value set, nothing is lost: every registered callback has been dispatched. */
  lemma AllDispatchedAtRest<T, C>(ops: seq<Op<T, C>>)
    requires Feasible(ops)
    requires Exec(ops).cell.value.Some? && Exec(ops).owed == 0
    ensures CallbacksOf(Exec(ops).Posted()) == RegisteredIn(ops)
  {
    ExactlyOnceInOrder(ops);
    DispatchedWithTheValue(ops);
    CallbacksOfConcat(Exec(ops).executed, Exec(ops).queue);
  }

  /** The result carried by the first completion of a history, if there is one. */
  function FirstCompletion<T, C>(ops: seq<Op<T, C>>): Option<Try<T>> {
    if |ops| == 0 then None
    else if IsCompletion(ops[0]) then Some(ops[0].r)
    else FirstCompletion(ops[1..])
  }

  lemma {:induction false} FirstCompletionSnoc<T, C>(ops: seq<Op<T, C>>, op: Op<T, C>)
    ensures FirstCompletion(ops + [op]) ==
            if FirstCompletion(ops).Some? then FirstCompletion(ops)
            else if IsCompletion(op) then Some(op.r) else None
  {
    if |ops| > 0 {
      assert (ops + [op])[1..] == ops[1..] + [op];
      FirstCompletionSnoc(ops[1..], op);
    }
  }

  /** Single winner: the value is always that of the first completion to take the lock, however many
      `setResult`, `setValue`, `setError` and promise calls race, and it never changes. */
  lemma {:induction false} FirstCompletionWins<T, C>(ops: seq<Op<T, C>>)
    requires Feasible(ops)
    ensures Exec(ops).cell.value == FirstCompletion(ops)
  {
    if |ops| > 0 {
      assert ops == ops[..|ops| - 1] + [ops[|ops| - 1]];
      FirstCompletionSnoc(ops[..|ops| - 1], ops[|ops| - 1]);
      FirstCompletionWins(ops[..|ops| - 1]);
    }
  }

  /** A later completion is refused without any effect. */
  lemma LaterCompletionsChangeNothing<T, C>(ops: seq<Op<T, C>>, op: Op<T, C>)
    requires Feasible(ops) && IsCompletion(op)
    ensures Enabled(Exec(ops), op)
    ensures FirstCompletion(ops).Some? <==> Step(Exec(ops), op) == Exec(ops)
  {
    FirstCompletionWins(ops);
  }
}
