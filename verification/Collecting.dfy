/**
 The two ways of turning a vector of futures into a future of a vector: `executeAll`, whose callbacks race
 on a shared container, and `sequence`, which visits the futures one after the other.
 */
module Collecting {
  import opened Outcomes
  import opened Deferral

  predicate AllSucceed<T>(rs: seq<Try<T>>) {
    forall i :: 0 <= i < |rs| ==> rs[i].Success?
  }

  function Values<T>(rs: seq<Try<T>>): (vs: seq<T>)
    requires AllSucceed(rs)
  {
    seq(|rs|, i requires 0 <= i < |rs| => rs[i].value)
  }

  /** The lowest failing index. */
  function FirstFailing<T>(rs: seq<Try<T>>): (i: nat)
    requires !AllSucceed(rs)
    ensures i < |rs| && rs[i].Failure? && AllSucceed(rs[..i])
  {
    if rs[0].Failure? then 0
    else
      assert !AllSucceed(rs[1..]) by {
        assert forall i :: 1 <= i < |rs| ==> rs[i] == rs[1..][i - 1];
      }
      var i := FirstFailing(rs[1..]);
      assert rs[..i + 1] == [rs[0]] + rs[1..][..i];
      i + 1
  }

  lemma FirstFailingIs<T>(rs: seq<Try<T>>, i: nat)
    requires i < |rs| && rs[i].Failure? && AllSucceed(rs[..i])
    ensures !AllSucceed(rs) && FirstFailing(rs) == i
  {
    var j := FirstFailing(rs);
    assert forall k :: 0 <= k < i ==> rs[k] == rs[..i][k];
    assert forall k :: 0 <= k < j ==> rs[k] == rs[..j][k];
  }

  /** All values in order, or the failure of the lowest failing index. */
  function InOrder<T>(rs: seq<Try<T>>): Try<seq<T>> {
    if AllSucceed(rs) then Success(Values(rs)) else Failure(rs[FirstFailing(rs)].error)
  }

  // ---------------------------------------------------------------------------------------------
  // sequence
  // ---------------------------------------------------------------------------------------------

  /** The heap buffer that `sequence` allocates, shared by all its callbacks. */
  class SequenceBuffer<T> {
    var buffer: seq<T>
    var deleted: bool

    constructor ()
      ensures buffer == [] && !deleted
    {
      buffer, deleted := [], false;
    }

    /** `rs[i]` is the result that future `i` gives to its callback. On entry at `index` the buffer holds
        exactly the first `index` values. */
    method SequenceGo(index: nat, rs: seq<Try<T>>) returns (r: Try<()>)
      requires index <= |rs| && AllSucceed(rs[..index]) && buffer == Values(rs[..index])
      modifies this`buffer
      ensures r.Success? <==> AllSucceed(rs)
      ensures r.Success? ==> buffer == Values(rs)
      ensures r.Failure? ==> InOrder(rs) == Failure(r.error) && buffer == Values(rs[..FirstFailing(rs)])
      decreases |rs| - index
    {
      if index >= |rs| {
        assert rs[..index] == rs;
        return Success(());
      }
      match rs[index]
      case Success(v) =>
        assert rs[..index + 1] == rs[..index] + [rs[index]];
        buffer := buffer + [v];
        r := SequenceGo(index + 1, rs);
      case Failure(e) =>
        FirstFailingIs(rs, index);
        r := Failure(e);
    }

    /** The final `map` copies and deletes the buffer, but runs only on success: the buffer of a failed
        sequence is never deleted. */
    method Sequence(rs: seq<Try<T>>) returns (r: Try<seq<T>>)
      requires buffer == [] && !deleted
      modifies this
      ensures r == InOrder(rs)
      ensures deleted <==> AllSucceed(rs)
    {
      var done := SequenceGo(0, rs);
      if done.Success? {
        r := Success(buffer);
        deleted := true;
      } else {
        r := Failure(done.error);
      }
    }
  }

  // ---------------------------------------------------------------------------------------------
  // executeAll
  // ---------------------------------------------------------------------------------------------

  /** The counter is a 32-bit unsigned integer, and the futures are numbered by a 32-bit signed one. */
  const COUNTER_MODULUS := 0x1_0000_0000
  const MAX_FUTURES := 0x7FFF_FFFF

  datatype Collected<T> = Collected(result: seq<T>, count: nat, outcome: Option<Try<seq<T>>>)

  /** The container after the callback of future `i` has run with `r`. */
  function Deliver<T>(c: Collected<T>, i: nat, r: Try<T>): Collected<T>
    requires i < |c.result|
  {
    if c.outcome.Some? then c
    else if r.Failure? then c.(outcome := Some(Failure(r.error)))
    else
      var result, count := c.result[i := r.value], (c.count + 1) % COUNTER_MODULUS;
      Collected(result, count, if count == |result| then Some(Success(result)) else None)
  }

  /** The container shared by the callbacks of `executeAll`, and the future it completes. */
  class Container<T, C> {
    const result: array<T>
    var count: nat
    const deferred: Deferred<seq<T>, C>

    ghost function View(): Collected<T>
      reads this, result, deferred
    {
      Collected(result[..], count, deferred.value)
    }

    constructor (n: nat, blank: T)
      ensures fresh(result) && fresh(deferred)
      ensures result.Length == n
      ensures View() == Collected(seq(n, _ => blank), 0, None)
    {
      result := new T[n](_ => blank);
      count := 0;
      deferred := new Deferred();
    }

    /** The callback, under the container's lock. `refused` is the ALREADY_COMPLETED that would escape. */
    method OnComplete(i: nat, r: Try<T>) returns (refused: bool)
      requires i < result.Length
      modifies this, result, deferred
      ensures !refused
      ensures View() == Deliver(old(View()), i, r)
    {
      refused := false;
      if deferred.value.Some? {
        return;
      }
      match r
      case Success(v) =>
        result[i] := v;
        count := (count + 1) % COUNTER_MODULUS;
        if count == result.Length {
          var accepted := deferred.SetNow(Success(result[..]));
          refused := !accepted;
        }
      case Failure(e) =>
        var accepted := deferred.SetNow(Failure(e));
        refused := !accepted;
    }
  }

  // ---------------------------------------------------------------------------------------------
  // Registering the callbacks of executeAll
  // ---------------------------------------------------------------------------------------------

  /** The positions below `n` at which future `d` stands; the same future may stand at several. */
  function Slots<T>(futures: seq<Deferred<T, nat>>, d: Deferred<T, nat>, n: nat): seq<nat>
    requires n <= |futures|
  {
    if n == 0 then []
    else
      var before := Slots(futures, d, n - 1);
      if futures[n - 1] == d then before + [n - 1] else before
  }

  /** Every position is registered exactly once, on the future that stands there, in ascending order. */
  lemma {:induction false} SlotsArePositions<T>(futures: seq<Deferred<T, nat>>, d: Deferred<T, nat>, n: nat)
    requires n <= |futures|
    ensures var slots := Slots(futures, d, n);
      && (forall i: nat :: i in slots <==> i < n && futures[i] == d)
      && (forall p, q :: 0 <= p < q < |slots| ==> slots[p] < slots[q])
  {
    if n > 0 {
      SlotsArePositions(futures, d, n - 1);
      var before, slots := Slots(futures, d, n - 1), Slots(futures, d, n);
      forall p, q | 0 <= p < q < |slots| ensures slots[p] < slots[q] {
        assert slots[p] == before[p] && before[p] in before;
      }
    }
  }

  /** A cell, and all that it has posted. */
  datatype Log<T> = Log(cell: Cell<T, nat>, posted: seq<Dispatch<T, nat>>)

  ghost function LogOf<T>(d: Deferred<T, nat>): Log<T>
    reads d
  {
    Log(d.View(), d.posted)
  }

  function RegisteredOne<T>(l: Log<T>, i: nat): Log<T> {
    Log(Triggered(Queued(l.cell, i)), l.posted + Posts(Queued(l.cell, i)))
  }

  /** After the registration of all `slots` at once. */
  function Registered<T>(l: Log<T>, slots: seq<nat>): Log<T> {
    if |slots| == 0 then l
    else
      var full := l.cell.(callbacks := l.cell.callbacks + slots);
      Log(Triggered(full), l.posted + Posts(full))
  }

  lemma RegisterOneMore<T>(l: Log<T>, slots: seq<nat>, i: nat)
    ensures Registered(l, slots + [i]) == RegisteredOne(Registered(l, slots), i)
  {
    var all := l.cell.callbacks + slots;
    assert l.cell.callbacks + (slots + [i]) == all + [i];
    if slots == [] {
      assert all == l.cell.callbacks;
    } else if l.cell.value.Some? {
      var r := l.cell.value.value;
      assert [] + [i] == [i];
      assert Dispatches(r, all + [i]) == Dispatches(r, all) + Dispatches(r, [i]);
      assert l.posted + (Dispatches(r, all) + Dispatches(r, [i])) == l.posted + Dispatches(r, all) + Dispatches(r, [i]);
    } else {
      assert l.posted + [] == l.posted;
    }
  }

  /** One after the other: what the first `n` registrations leave of future `d`. */
  function RegisteredUpTo<T>(futures: seq<Deferred<T, nat>>, d: Deferred<T, nat>, l: Log<T>, n: nat): Log<T>
    requires n <= |futures|
  {
    if n == 0 then l
    else
      var before := RegisteredUpTo(futures, d, l, n - 1);
      if futures[n - 1] == d then RegisteredOne(before, n - 1) else before
  }

  /** The loop of `executeAll`: one callback, knowing its position, on every future of the vector. */
  method RegisterAll<T>(futures: seq<Deferred<T, nat>>)
    modifies futures
    ensures forall d :: d in futures ==> LogOf(d) == RegisteredUpTo(futures, d, old(LogOf(d)), |futures|)
  {
    for i := 0 to |futures|
      invariant forall d :: d in futures ==> LogOf(d) == RegisteredUpTo(futures, d, old(LogOf(d)), i)
    {
      futures[i].AddCallback(i);
    }
  }

  /** All in all, every future has taken its old callbacks and then those of its positions, in order. */
  lemma {:induction false} RegisteredInOrder<T>(futures: seq<Deferred<T, nat>>, d: Deferred<T, nat>, l: Log<T>, n: nat)
    requires n <= |futures|
    ensures RegisteredUpTo(futures, d, l, n) == Registered(l, Slots(futures, d, n))
  {
    if n > 0 {
      RegisteredInOrder(futures, d, l, n - 1);
      if futures[n - 1] == d {
        RegisterOneMore(l, Slots(futures, d, n - 1), n - 1);
      }
    }
  }

  // ---------------------------------------------------------------------------------------------
  // executeAll under every delivery order
  // ---------------------------------------------------------------------------------------------

  ghost predicate Distinct(order: seq<nat>) {
    forall i, j :: 0 <= i < j < |order| ==> order[i] != order[j]
  }

  /** Each future delivers at most once; the scheduler decides in which order. */
  ghost predicate Deliveries(order: seq<nat>, n: nat) {
    Distinct(order) && forall p :: 0 <= p < |order| ==> order[p] < n
  }

  ghost function ExecuteAll<T>(rs: seq<Try<T>>, order: seq<nat>, blank: T): (c: Collected<T>)
    requires Deliveries(order, |rs|)
    ensures |c.result| == |rs|
  {
    if |order| == 0 then Collected(seq(|rs|, _ => blank), 0, None)
    else
      var i := order[|order| - 1];
      Deliver(ExecuteAll(rs, order[..|order| - 1], blank), i, rs[i])
  }

  /** The results in the order of their delivery. */
  ghost function Delivered<T>(rs: seq<Try<T>>, order: seq<nat>): seq<Try<T>>
    requires Deliveries(order, |rs|)
  {
    seq(|order|, p requires 0 <= p < |order| => rs[order[p]])
  }

  ghost function Numbers(n: nat): set<nat> {
    if n == 0 then {} else Numbers(n - 1) + {n - 1}
  }

  lemma {:induction false} NumbersBelow(n: nat)
    ensures |Numbers(n)| == n && forall i: nat :: i in Numbers(n) <==> i < n
  {
    if n > 0 {
      NumbersBelow(n - 1);
    }
  }

  ghost function Elements(order: seq<nat>): set<nat> {
    set i | i in order
  }

  lemma {:induction false} DistinctCardinality(order: seq<nat>)
    requires Distinct(order)
    ensures |Elements(order)| == |order|
  {
    if |order| > 0 {
      var before, i := order[..|order| - 1], order[|order| - 1];
      DistinctCardinality(before);
      assert order == before + [i];
      assert Elements(order) == Elements(before) + {i};
    }
  }

  lemma SubsetCardinality(a: set<nat>, b: set<nat>)
    requires a <= b
    ensures |a| <= |b| && (|a| == |b| ==> a == b)
  {
    assert b == a + (b - a);
  }

  /** There are at most as many deliveries as futures; with that many, every future has delivered. */
  lemma DeliveriesFit(order: seq<nat>, n: nat)
    requires Deliveries(order, n)
    ensures |order| <= n
    ensures |order| == n ==> forall i: nat :: i < n ==> i in order
  {
    DistinctCardinality(order);
    NumbersBelow(n);
    SubsetCardinality(Elements(order), Numbers(n));
    if |order| == n {
      forall i: nat | i < n ensures i in order {
        assert i in Elements(order);
      }
    }
  }

  /** The slots of the delivered futures hold their values, the others are blank. */
  ghost predicate Filled<T>(result: seq<T>, rs: seq<Try<T>>, order: seq<nat>, blank: T)
    requires |result| == |rs|
  {
    forall i: nat :: i < |rs| ==>
      if i in order then rs[i] == Success(result[i]) else result[i] == blank
  }

  lemma FillSlot<T>(result: seq<T>, rs: seq<Try<T>>, order: seq<nat>, i: nat, blank: T)
    requires |result| == |rs| && i < |rs| && rs[i].Success? && Filled(result, rs, order, blank)
    ensures Filled(result[i := rs[i].value], rs, order + [i], blank)
  {
  }

  lemma SucceedBefore<T>(rs: seq<Try<T>>, order: seq<nat>)
    requires Deliveries(order, |rs|) && |order| > 0 && AllSucceed(Delivered(rs, order))
    ensures AllSucceed(Delivered(rs, order[..|order| - 1])) && rs[order[|order| - 1]].Success?
  {
    assert Delivered(rs, order[..|order| - 1]) == Delivered(rs, order)[..|order| - 1];
    assert Delivered(rs, order)[|order| - 1] == rs[order[|order| - 1]];
  }

  /** As long as every delivery succeeds, the counter is the number of deliveries, and the outcome stays
      open until the last delivery. */
  lemma {:induction false} OpenContainer<T>(rs: seq<Try<T>>, order: seq<nat>, blank: T)
    requires Deliveries(order, |rs|) && 0 < |rs| <= MAX_FUTURES
    requires AllSucceed(Delivered(rs, order))
    ensures var c := ExecuteAll(rs, order, blank);
      c.count == |order| && c.outcome == if |order| == |rs| then Some(Success(c.result)) else None
  {
    if |order| > 0 {
      SucceedBefore(rs, order);
      DeliveriesFit(order, |rs|);
      OpenContainer(rs, order[..|order| - 1], blank);
    }
  }

  /** Meanwhile exactly the delivered slots are filled. */
  lemma {:induction false} OpenContainerFilled<T>(rs: seq<Try<T>>, order: seq<nat>, blank: T)
    requires Deliveries(order, |rs|) && 0 < |rs| <= MAX_FUTURES
    requires AllSucceed(Delivered(rs, order))
    ensures Filled(ExecuteAll(rs, order, blank).result, rs, order, blank)
  {
    if |order| > 0 {
      var before, i := order[..|order| - 1], order[|order| - 1];
      SucceedBefore(rs, order);
      DeliveriesFit(order, |rs|);
      OpenContainer(rs, before, blank);
      OpenContainerFilled(rs, before, blank);
      FillSlot(ExecuteAll(rs, before, blank).result, rs, before, i, blank);
      assert order == before + [i];
    }
  }

  lemma {:induction false} FailedContainer<T>(rs: seq<Try<T>>, order: seq<nat>, blank: T)
    requires Deliveries(order, |rs|) && 0 < |rs| <= MAX_FUTURES
    requires !AllSucceed(Delivered(rs, order))
    ensures var delivered := Delivered(rs, order);
      ExecuteAll(rs, order, blank).outcome == Some(Failure(delivered[FirstFailing(delivered)].error))
  {
    var before, i := order[..|order| - 1], order[|order| - 1];
    var delivered, earlier := Delivered(rs, order), Delivered(rs, before);
    assert earlier == delivered[..|before|];
    DeliveriesFit(order, |rs|);
    if AllSucceed(earlier) {
      OpenContainer(rs, before, blank);
      FirstFailingIs(delivered, |before|);
    } else {
      FailedContainer(rs, before, blank);
      assert delivered[..FirstFailing(earlier)] == earlier[..FirstFailing(earlier)];
      FirstFailingIs(delivered, FirstFailing(earlier));
    }
  }

  lemma AllDelivered<T>(rs: seq<Try<T>>, order: seq<nat>)
    requires Deliveries(order, |rs|) && |order| == |rs|
    ensures AllSucceed(Delivered(rs, order)) <==> AllSucceed(rs)
  {
    DeliveriesFit(order, |rs|);
    var delivered := Delivered(rs, order);
    if AllSucceed(delivered) {
      forall i: nat | i < |rs| ensures rs[i].Success? {
        assert i in order;
        var p :| 0 <= p < |order| && order[p] == i;
        assert delivered[p].Success?;
      }
    }
  }

  /** `executeAll` under every delivery order of at least one future: it fails with the first failure
      delivered, or completes with all values in their places when the last future has delivered, and is
      incomplete otherwise. */
  lemma ExecuteAllOutcome<T>(rs: seq<Try<T>>, order: seq<nat>, blank: T)
    requires Deliveries(order, |rs|) && 0 < |rs| <= MAX_FUTURES
    ensures var outcome, delivered := ExecuteAll(rs, order, blank).outcome, Delivered(rs, order);
      outcome == if !AllSucceed(delivered) then Some(Failure(delivered[FirstFailing(delivered)].error))
                 else if |order| == |rs| && AllSucceed(rs) then Some(Success(Values(rs)))
                 else None
  {
    if AllSucceed(Delivered(rs, order)) {
      OpenContainer(rs, order, blank);
      DeliveriesFit(order, |rs|);
      if |order| == |rs| {
        AllDelivered(rs, order);
        OpenContainerFilled(rs, order, blank);
        assert ExecuteAll(rs, order, blank).result == Values(rs);
      }
    } else {
      FailedContainer(rs, order, blank);
    }
  }

  /** With no future at all, `executeAll` never completes, while `sequence` yields the empty vector. */
  lemma NoFutures<T>(order: seq<nat>, blank: T)
    requires Deliveries(order, 0)
    ensures ExecuteAll<T>([], order, blank).outcome.None? && InOrder<T>([]) == Success([])
  {
    DeliveriesFit(order, 0);
    assert Values<T>([]) == [];
  }

  /** All failures are the same: their order does not matter. */
  ghost predicate OneFailureAtMost<T>(rs: seq<Try<T>>) {
    forall i, j :: 0 <= i < |rs| && 0 <= j < |rs| && rs[i].Failure? && rs[j].Failure? ==> rs[i].error == rs[j].error
  }

  /** The two algorithms agree under this order of delivery. */
  ghost predicate Agrees<T>(rs: seq<Try<T>>, order: seq<nat>, blank: T)
    requires Deliveries(order, |rs|)
  {
    ExecuteAll(rs, order, blank).outcome == Some(InOrder(rs))
  }

  /** The natural order, with the delivery of `i` moved to the front. */
  ghost function FrontFirst(n: nat, i: nat): (order: seq<nat>)
    requires i < n
    ensures Deliveries(order, n) && |order| == n && order[0] == i
  {
    seq(n, p requires 0 <= p < n => if p == 0 then i else if p == i then 0 else p)
  }

  lemma FrontFails<T>(rs: seq<Try<T>>, i: nat, blank: T)
    requires i < |rs| <= MAX_FUTURES && rs[i].Failure?
    ensures ExecuteAll(rs, FrontFirst(|rs|, i), blank).outcome == Some(Failure(rs[i].error))
  {
    var order := FrontFirst(|rs|, i);
    assert Delivered(rs, order)[0] == rs[i];
    FirstFailingIs(Delivered(rs, order), 0);
    ExecuteAllOutcome(rs, order, blank);
  }

  /** The algorithms agree under every order in which the futures can complete exactly if all failures among
      them are the same. */
  lemma AgreeUnderEveryOrderExactlyWhen<T>(rs: seq<Try<T>>, blank: T)
    requires 0 < |rs| <= MAX_FUTURES
    ensures (forall order :: Deliveries(order, |rs|) && |order| == |rs| ==> Agrees(rs, order, blank)) <==> OneFailureAtMost(rs)
  {
    if OneFailureAtMost(rs) {
      forall order | Deliveries(order, |rs|) && |order| == |rs| ensures Agrees(rs, order, blank) {
        ExecuteAllOutcome(rs, order, blank);
        AllDelivered(rs, order);
      }
    } else {
      var i, j :| 0 <= i < |rs| && 0 <= j < |rs| && rs[i].Failure? && rs[j].Failure? && rs[i].error != rs[j].error;
      FrontFails(rs, i, blank);
      FrontFails(rs, j, blank);
      assert !Agrees(rs, FrontFirst(|rs|, i), blank) || !Agrees(rs, FrontFirst(|rs|, j), blank);
    }
  }

  /** Two failures delivered in reverse order tell the algorithms apart. */
  lemma FailuresCanDiffer<T>(a: Exception, b: Exception, blank: T)
    requires a != b
    ensures Deliveries([1, 0], 2)
    ensures ExecuteAll<T>([Failure(a), Failure(b)], [1, 0], blank).outcome == Some(Failure(b))
    ensures InOrder<T>([Failure(a), Failure(b)]) == Failure(a)
  {
    var rs: seq<Try<T>> := [Failure(a), Failure(b)];
    assert [1, 0][..1] == [1];
    assert ExecuteAll(rs, [1], blank) == Deliver(ExecuteAll(rs, [], blank), 1, rs[1]);
    FirstFailingIs(rs, 0);
  }
}
