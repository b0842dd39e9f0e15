/**
 `executeAll` from its registration loop to its outcome, with the futures completed, the callbacks posted and
 the runnables taken by any threads in any order.
 */
module ExecuteAllRuns {
  import opened Outcomes
  import opened Collecting
  import S = Sources

  /** `next` is the loop index of the registering thread; `order` records the positions delivered. */
  datatype State<T> = State(sources: S.State<T>, next: nat, order: seq<nat>, container: Collected<T>)

  /** `Run` is a thread that takes the posted runnable `p` and runs its callback under the lock of the
      container. */
  datatype Move = Outside(o: S.Outside) | RegisterNext | Run(p: nat)

  ghost function Begin<T>(w: S.Setting<T>, blank: T): (s: State<T>)
    requires w.Valid()
    ensures Sound(w, s)
  {
    S.BeginSound(w);
    State(S.Begin(w), 0, [], Collected(seq(|w.futures|, _ => blank), 0, None))
  }

  ghost predicate Enabled<T>(w: S.Setting<T>, s: State<T>, m: Move) {
    match m
    case Outside(o) => S.Allowed(s.sources, o)
    case RegisterNext => s.next < |w.futures|
    case Run(p) => p < |s.sources.posted|
  }

  ghost function Step<T>(w: S.Setting<T>, s: State<T>, m: Move): (s': State<T>)
    requires Sound(w, s) && Enabled(w, s, m)
    ensures Sound(w, s')
  {
    match m
    case Outside(o) =>
      S.MovedSound(w, s.sources, o);
      s.(sources := S.Moved(w, s.sources, o))
    case RegisterNext =>
      S.RegisterSound(w, s.sources, s.next);
      s.(sources := S.Register(w, s.sources, s.next), next := s.next + 1)
    case Run(p) =>
      S.TakenSound(w, s.sources, p);
      var d := s.sources.posted[p];
      State(S.Taken(s.sources, p), s.next, s.order + [d.callback], Deliver(s.container, d.callback, d.argument))
  }

  ghost predicate Sound<T>(w: S.Setting<T>, s: State<T>) {
    S.Sound(w, s.sources) && |s.container.result| == |w.futures|
  }

  /** Each registered callback is on its way, or has been delivered: once in all. */
  ghost predicate OnceEach<T>(w: S.Setting<T>, s: State<T>) {
    && s.next <= |w.futures|
    && forall i: nat :: S.Pending(s.sources, i) + S.Times(s.order, i) == if i < s.next then 1 else 0
  }

  ghost predicate Inv<T>(w: S.Setting<T>, s: State<T>, blank: T) {
    && Sound(w, s) && OnceEach(w, s)
    && Deliveries(s.order, |w.futures|)
    && s.container == ExecuteAll(w.ByPosition(), s.order, blank)
  }

  /** No position occurs twice, or beyond `n`. */
  lemma OnceIsDeliveries(order: seq<nat>, n: nat)
    requires forall i: nat :: S.Times(order, i) <= if i < n then 1 else 0
    ensures Deliveries(order, n)
  {
    forall p | 0 <= p < |order| ensures order[p] < n {
      assert S.Times(order, order[p]) > 0;
    }
    forall p, q | 0 <= p < q < |order| ensures order[p] != order[q] {
      if order[p] == order[q] {
        S.TimesTwice(order, p, q);
        assert false;
      }
    }
  }

  lemma BeginInv<T>(w: S.Setting<T>, blank: T)
    requires w.Valid()
    ensures Inv(w, Begin(w, blank), blank)
  {
    S.BeginSound(w);
  }

  lemma RunOnceEach<T>(w: S.Setting<T>, s: State<T>, p: nat)
    requires Sound(w, s) && OnceEach(w, s) && p < |s.sources.posted|
    ensures OnceEach(w, Step(w, s, Run(p)))
  {
    var s', c := Step(w, s, Run(p)), s.sources.posted[p].callback;
    forall i: nat ensures S.Pending(s'.sources, i) + S.Times(s'.order, i) == if i < s.next then 1 else 0 {
      S.TakenPending(s.sources, p, i);
      S.TimesSnoc(s.order, c, i);
    }
  }

  lemma StepOnceEach<T>(w: S.Setting<T>, s: State<T>, m: Move)
    requires Sound(w, s) && OnceEach(w, s) && Enabled(w, s, m)
    ensures OnceEach(w, Step(w, s, m))
  {
    var s' := Step(w, s, m);
    if m.Run? {
      RunOnceEach(w, s, m.p);
    } else if m.Outside? {
      forall i: nat ensures S.Pending(s'.sources, i) == S.Pending(s.sources, i) {
        S.MovedPending(w, s.sources, m.o, i);
      }
    } else {
      forall i: nat ensures S.Pending(s'.sources, i) == S.Pending(s.sources, i) + if i == s.next then 1 else 0 {
        S.RegisterPending(w, s.sources, s.next, i);
      }
    }
  }

  lemma StepInv<T>(w: S.Setting<T>, s: State<T>, m: Move, blank: T)
    requires Inv(w, s, blank) && Enabled(w, s, m)
    ensures Inv(w, Step(w, s, m), blank)
  {
    var s' := Step(w, s, m);
    StepOnceEach(w, s, m);
    OnceIsDeliveries(s'.order, |w.futures|);
    if m.Run? {
      var d := s.sources.posted[m.p];
      assert S.PostSound(w, d);
      assert s'.order[..|s.order|] == s.order;
    }
  }

  ghost predicate Possible<T>(w: S.Setting<T>, s: State<T>, moves: seq<Move>)
    requires Sound(w, s)
    decreases |moves|
  {
    |moves| == 0 || (Enabled(w, s, moves[0]) && Possible(w, Step(w, s, moves[0]), moves[1..]))
  }

  ghost function Exec<T>(w: S.Setting<T>, s: State<T>, moves: seq<Move>): (s': State<T>)
    requires Sound(w, s) && Possible(w, s, moves)
    ensures Sound(w, s')
    decreases |moves|
  {
    if |moves| == 0 then s else Exec(w, Step(w, s, moves[0]), moves[1..])
  }

  lemma {:induction false} RunKeepsInv<T>(w: S.Setting<T>, s: State<T>, moves: seq<Move>, blank: T)
    requires Inv(w, s, blank) && Possible(w, s, moves)
    ensures Inv(w, Exec(w, s, moves), blank)
    decreases |moves|
  {
    if |moves| > 0 {
      StepInv(w, s, moves[0], blank);
      RunKeepsInv(w, Step(w, s, moves[0]), moves[1..], blank);
    }
  }

  /** The callbacks that `executeAll` registers are delivered at most once each, whatever the threads do, and
      the container is always what these deliveries make of it. */
  lemma DeliveredAtMostOnce<T>(w: S.Setting<T>, moves: seq<Move>, blank: T)
    requires w.Valid() && Possible(w, Begin(w, blank), moves)
    ensures var s := Exec(w, Begin(w, blank), moves);
      && Deliveries(s.order, |w.futures|)
      && s.container == ExecuteAll(w.ByPosition(), s.order, blank)
  {
    BeginInv(w, blank);
    RunKeepsInv(w, Begin(w, blank), moves, blank);
  }

  /** Once the loop is over, all futures are set and no thread has a step left, every callback has been
      delivered, and `executeAll` has completed: with all values in place, or the first failure delivered. */
  lemma CompletesAtRest<T>(w: S.Setting<T>, moves: seq<Move>, blank: T)
    requires w.Valid() && 0 < |w.futures| <= MAX_FUTURES
    requires Possible(w, Begin(w, blank), moves)
    requires Complete(w, Exec(w, Begin(w, blank), moves))
    ensures var s, rs := Exec(w, Begin(w, blank), moves), w.ByPosition();
      && |s.order| == |rs| && Deliveries(s.order, |rs|)
      && (AllSucceed(rs) ==> s.container.outcome == Some(Success(Values(rs))))
      && (!AllSucceed(rs) ==>
            && !AllSucceed(Delivered(rs, s.order))
            && s.container.outcome == Some(Failure(Delivered(rs, s.order)[FirstFailing(Delivered(rs, s.order))].error)))
  {
    BeginInv(w, blank);
    RunKeepsInv(w, Begin(w, blank), moves, blank);
    var s, rs := Exec(w, Begin(w, blank), moves), w.ByPosition();
    forall i: nat | i < |w.futures| ensures i in s.order {
      S.SettledPending(w, s.sources, i);
      assert S.Times(s.order, i) == 1;
    }
    AllPositions(s.order, |w.futures|);
    AllDelivered(rs, s.order);
    ExecuteAllOutcome(rs, s.order, blank);
  }

  lemma AllPositions(order: seq<nat>, n: nat)
    requires Deliveries(order, n) && forall i: nat :: i < n ==> i in order
    ensures |order| == n
  {
    DistinctCardinality(order);
    NumbersBelow(n);
    assert Elements(order) == Numbers(n);
  }

  // ---------------------------------------------------------------------------------------------
  // Every run comes to an end
  // ---------------------------------------------------------------------------------------------

  /** The moves that do something: all but the refused completions. */
  ghost predicate Effective<T>(w: S.Setting<T>, s: State<T>, m: Move) {
    Enabled(w, s, m) && (m.Outside? ==> S.Effective(s.sources, m.o))
  }

  /** Every position has to be registered and delivered. */
  ghost function Left<T>(w: S.Setting<T>, s: State<T>): int {
    (|w.futures| - s.next) + (|w.futures| - |s.order|) + S.Left(s.sources)
  }

  lemma LeftIsNatural<T>(w: S.Setting<T>, s: State<T>, blank: T)
    requires Inv(w, s, blank)
    ensures Left(w, s) >= 0
  {
    DeliveriesFit(s.order, |w.futures|);
  }

  lemma EffectiveTakesOff<T>(w: S.Setting<T>, s: State<T>, m: Move, blank: T)
    requires Inv(w, s, blank) && Effective(w, s, m)
    ensures Left(w, Step(w, s, m)) < Left(w, s)
  {
    if m.Outside? {
      S.MovedLeft(w, s.sources, m.o);
    } else if m.RegisterNext? {
      S.RegisterLeft(w, s.sources, s.next);
    }
  }

  ghost predicate AllEffective<T>(w: S.Setting<T>, s: State<T>, moves: seq<Move>)
    requires Sound(w, s) && Possible(w, s, moves)
    decreases |moves|
  {
    |moves| == 0 || (Effective(w, s, moves[0]) && AllEffective(w, Step(w, s, moves[0]), moves[1..]))
  }

  lemma {:induction false} MovesTakeOff<T>(w: S.Setting<T>, s: State<T>, moves: seq<Move>, blank: T)
    requires Inv(w, s, blank) && Possible(w, s, moves) && AllEffective(w, s, moves)
    ensures |moves| + Left(w, Exec(w, s, moves)) <= Left(w, s)
    decreases |moves|
  {
    if |moves| > 0 {
      StepInv(w, s, moves[0], blank);
      EffectiveTakesOff(w, s, moves[0], blank);
      MovesTakeOff(w, Step(w, s, moves[0]), moves[1..], blank);
    }
  }

  /** The loop is over, all futures are set, and no thread has a step left. */
  ghost predicate Complete<T>(w: S.Setting<T>, s: State<T>)
    requires Sound(w, s)
  {
    s.next == |w.futures| && S.Settled(w, s.sources)
  }

  lemma Stuck<T>(w: S.Setting<T>, s: State<T>, blank: T)
    requires Inv(w, s, blank) && forall m :: !Effective(w, s, m)
    ensures Complete(w, s)
  {
    assert !Effective(w, s, RegisterNext);
    assert !Effective(w, s, Run(0));
    var o := S.NextOutside(w, s.sources);
    if o.Some? {
      assert Effective(w, s, Outside(o.value));
    }
  }

  /** Every run with nothing but effective moves has at most two for every future and every cell, and one that
      cannot go on is complete. */
  lemma EveryRunEnds<T>(w: S.Setting<T>, moves: seq<Move>, blank: T)
    requires w.Valid() && Possible(w, Begin(w, blank), moves) && AllEffective(w, Begin(w, blank), moves)
    ensures |moves| <= 2 * |w.futures| + 2 * |w.results|
    ensures var s := Exec(w, Begin(w, blank), moves);
      (forall m :: !Effective(w, s, m)) ==> Complete(w, s)
  {
    BeginInv(w, blank);
    RunKeepsInv(w, Begin(w, blank), moves, blank);
    MovesTakeOff(w, Begin(w, blank), moves, blank);
    S.BeginLeft(w);
    var s := Exec(w, Begin(w, blank), moves);
    LeftIsNatural(w, s, blank);
    if forall m :: !Effective(w, s, m) {
      Stuck(w, s, blank);
    }
  }

  // ---------------------------------------------------------------------------------------------
  // Every order of delivery is that of some run
  // ---------------------------------------------------------------------------------------------

  /** The next move towards the order: register all, complete all, then run the callbacks as ordered. */
  lemma NextTowards<T>(w: S.Setting<T>, s: State<T>, order: seq<nat>, blank: T) returns (m: Move)
    requires Inv(w, s, blank) && Deliveries(order, |w.futures|) && |order| == |w.futures| && s.order <= order
    requires !(Complete(w, s) && s.order == order)
    ensures Effective(w, s, m) && Step(w, s, m).order <= order
  {
    if s.next < |w.futures| {
      return RegisterNext;
    }
    var o := S.NextOutside(w, s.sources);
    if o.Some? {
      return Outside(o.value);
    }
    if s.order == order {
      AllRun(w, s, blank);
      assert false;
    }
    var i := order[|s.order|];
    NotYet(order, |s.order|);
    assert s.order == order[..|s.order|];
    assert S.Pending(s.sources, i) + S.Times(s.order, i) == 1;
    var p := S.PendingIsPosted(w, s.sources, i);
    return Run(p);
  }

  /** An ordered position does not occur before its place. */
  lemma NotYet(order: seq<nat>, k: nat)
    requires Distinct(order) && k < |order|
    ensures S.Times(order[..k], order[k]) == 0
  {
    assert order[k] !in order[..k];
  }

  /** When all positions have been delivered, nothing is posted. */
  lemma AllRun<T>(w: S.Setting<T>, s: State<T>, blank: T)
    requires Inv(w, s, blank) && |s.order| == |w.futures|
    ensures s.sources.posted == []
  {
    DeliveriesFit(s.order, |w.futures|);
    forall i: nat ensures S.Pending(s.sources, i) == 0 {
      if i < |w.futures| {
        assert i in s.order;
        assert S.Times(s.order, i) > 0;
      }
    }
    if s.sources.posted != [] {
      S.PostedIsPending(s.sources, 0);
      assert false;
    }
  }

  lemma {:induction false} RunTowards<T>(w: S.Setting<T>, s: State<T>, order: seq<nat>, blank: T) returns (moves: seq<Move>)
    requires Inv(w, s, blank) && Deliveries(order, |w.futures|) && |order| == |w.futures| && s.order <= order
    ensures Possible(w, s, moves) && Complete(w, Exec(w, s, moves)) && Exec(w, s, moves).order == order
    decreases Left(w, s)
  {
    if Complete(w, s) && s.order == order {
      return [];
    }
    var m := NextTowards(w, s, order, blank);
    StepInv(w, s, m, blank);
    EffectiveTakesOff(w, s, m, blank);
    LeftIsNatural(w, s, blank);
    LeftIsNatural(w, Step(w, s, m), blank);
    var rest := RunTowards(w, Step(w, s, m), order, blank);
    moves := [m] + rest;
    assert moves[1..] == rest;
  }

  /** Whatever the order, some run registers and completes everything and delivers in this order. */
  lemma EveryOrderHappens<T>(w: S.Setting<T>, order: seq<nat>, blank: T) returns (moves: seq<Move>)
    requires w.Valid() && Deliveries(order, |w.futures|) && |order| == |w.futures|
    ensures Possible(w, Begin(w, blank), moves)
    ensures var s := Exec(w, Begin(w, blank), moves);
      && Complete(w, s) && s.order == order
      && s.container == ExecuteAll(w.ByPosition(), order, blank)
  {
    BeginInv(w, blank);
    moves := RunTowards(w, Begin(w, blank), order, blank);
    DeliveredAtMostOnce(w, moves, blank);
  }

  /** The run has the outcome of the traversal in order. */
  ghost predicate RunAgrees<T>(w: S.Setting<T>, moves: seq<Move>, blank: T)
    requires w.Valid() && Possible(w, Begin(w, blank), moves)
  {
    Exec(w, Begin(w, blank), moves).container.outcome == Some(InOrder(w.ByPosition()))
  }

  /** `executeAll` agrees with `sequence` in every complete run exactly if all failures among the futures are
      the same. */
  lemma AgreesInEveryRunExactlyWhen<T>(w: S.Setting<T>, blank: T)
    requires w.Valid() && 0 < |w.futures| <= MAX_FUTURES
    ensures (forall moves :: Possible(w, Begin(w, blank), moves) && Complete(w, Exec(w, Begin(w, blank), moves)) ==>
               RunAgrees(w, moves, blank))
            <==> OneFailureAtMost(w.ByPosition())
  {
    var rs := w.ByPosition();
    AgreeUnderEveryOrderExactlyWhen(rs, blank);
    if OneFailureAtMost(rs) {
      forall moves | Possible(w, Begin(w, blank), moves) && Complete(w, Exec(w, Begin(w, blank), moves))
        ensures RunAgrees(w, moves, blank)
      {
        CompletesAtRest(w, moves, blank);
        DeliveredAtMostOnce(w, moves, blank);
        assert Agrees(rs, Exec(w, Begin(w, blank), moves).order, blank);
      }
    } else {
      var order :| Deliveries(order, |rs|) && |order| == |rs| && !Agrees(rs, order, blank);
      var moves := EveryOrderHappens(w, order, blank);
      assert !RunAgrees(w, moves, blank);
    }
  }

  /** Two failures: some run delivers the second one first, and `executeAll` reports it. */
  lemma FailuresDifferInARun<T>(a: Exception, b: Exception, blank: T) returns (moves: seq<Move>)
    requires a != b
    ensures var w := S.Setting([0, 1], [Failure(a), Failure(b)]);
      && w.Valid() && Possible(w, Begin(w, blank), moves) && Complete(w, Exec(w, Begin(w, blank), moves))
      && Exec(w, Begin(w, blank), moves).container.outcome == Some(Failure(b))
      && InOrder(w.ByPosition()) == Failure(a)
  {
    var w: S.Setting<T> := S.Setting([0, 1], [Failure(a), Failure(b)]);
    FailuresCanDiffer(a, b, blank);
    assert w.ByPosition() == w.results;
    moves := EveryOrderHappens(w, [1, 0], blank);
  }
}
