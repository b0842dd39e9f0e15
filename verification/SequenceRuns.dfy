/**
 `sequence` with its shared heap buffer, while the futures are completed, the callbacks posted and the
 runnables taken by any threads in any order.
 */
module SequenceRuns {
  import opened Outcomes
  import opened Collecting
  import S = Sources

  /** Before the first call; waiting for the callback of some position; passing a result back through the
      `left` futures that were returned on the way; after the final `map`. */
  datatype Phase<T> =
    | Ready
    | Walking
    | Unwinding(result: Try<()>, left: nat)
    | Finished(outcome: Try<seq<T>>)

  datatype State<T> = State(sources: S.State<T>, buffer: seq<T>, deleted: bool, phase: Phase<T>)

  /** `Run` takes the posted runnable `p`; `Forward` is one future handing its result to the one before it, and
      at last to the final `map`. */
  datatype Move = Outside(o: S.Outside) | Call | Run(p: nat) | Forward

  ghost predicate Sound<T>(w: S.Setting<T>, s: State<T>) {
    S.Sound(w, s.sources)
  }

  ghost function Begin<T>(w: S.Setting<T>): (s: State<T>)
    requires w.Valid()
    ensures Sound(w, s)
  {
    S.BeginSound(w);
    State(S.Begin(w), [], false, Ready)
  }

  ghost predicate Enabled<T>(w: S.Setting<T>, s: State<T>, m: Move) {
    match m
    case Outside(o) => S.Allowed(s.sources, o)
    case Call => s.phase.Ready?
    case Run(p) => p < |s.sources.posted|
    case Forward => s.phase.Unwinding?
  }

  /** `sequence_go(index)`: a completed future at the end, else a callback on the future at `index`. */
  ghost function SequenceGo<T>(w: S.Setting<T>, s: State<T>, index: nat): (s': State<T>)
    requires Sound(w, s)
    ensures Sound(w, s')
  {
    if index >= |w.futures| then s.(phase := Unwinding(Success(()), index))
    else
      S.RegisterSound(w, s.sources, index);
      s.(sources := S.Register(w, s.sources, index), phase := Walking)
  }

  /** The callback of position `index` runs with the result of its future. */
  ghost function Callback<T>(w: S.Setting<T>, s: State<T>, index: nat, r: Try<T>): (s': State<T>)
    requires Sound(w, s)
    ensures Sound(w, s')
  {
    if r.Failure? then s.(phase := Unwinding(Failure(r.error), index))
    else SequenceGo(w, s.(buffer := s.buffer + [r.value]), index + 1)
  }

  /** The final `map` copies and deletes the buffer, on success only. */
  ghost function Forwarded<T>(s: State<T>): State<T>
    requires s.phase.Unwinding?
  {
    if s.phase.left > 0 then s.(phase := Unwinding(s.phase.result, s.phase.left - 1))
    else if s.phase.result.Success? then s.(phase := Finished(Success(s.buffer)), deleted := true)
    else s.(phase := Finished(Failure(s.phase.result.error)))
  }

  ghost function Step<T>(w: S.Setting<T>, s: State<T>, m: Move): (s': State<T>)
    requires Sound(w, s) && Enabled(w, s, m)
    ensures Sound(w, s')
  {
    match m
    case Outside(o) =>
      S.MovedSound(w, s.sources, o);
      s.(sources := S.Moved(w, s.sources, o))
    case Call => SequenceGo(w, s, 0)
    case Run(p) =>
      S.TakenSound(w, s.sources, p);
      var d := s.sources.posted[p];
      Callback(w, s.(sources := S.Taken(s.sources, p)), d.callback, d.argument)
    case Forward => Forwarded(s)
  }

  ghost predicate Possible<T>(w: S.Setting<T>, s: State<T>, moves: seq<Move>)
    requires Sound(w, s)
    decreases |moves|
  {
    |moves| == 0 || (Enabled(w, s, moves[0]) && Possible(w, Step(w, s, moves[0]), moves[1..]))
  }

  ghost function Exec<T>(w: S.Setting<T>, s: State<T>, moves: seq<Move>): (s': State<T>)
    requires Sound(w, s) && Possible(w, s, moves)
    ensures Sound(w, s')
    decreases |moves|
  {
    if |moves| == 0 then s else Exec(w, Step(w, s, moves[0]), moves[1..])
  }

  // ---------------------------------------------------------------------------------------------
  // One callback at a time, and what the buffer holds when it runs
  // ---------------------------------------------------------------------------------------------

  /** The callback that is on its way, if there is one: the first whose value is not in the buffer. */
  ghost predicate OneCallback<T>(s: State<T>) {
    forall i: nat :: S.Pending(s.sources, i) == if s.phase.Walking? && i == |s.buffer| then 1 else 0
  }

  /** The buffer holds exactly the first values. */
  ghost predicate Gathered<T>(rs: seq<Try<T>>, buffer: seq<T>) {
    |buffer| <= |rs| && forall i :: 0 <= i < |buffer| ==> rs[i] == Success(buffer[i])
  }

  /** What is being passed back is what the traversal in order yields. */
  ghost predicate Decided<T>(rs: seq<Try<T>>, buffer: seq<T>, result: Try<()>)
    requires Gathered(rs, buffer)
  {
    if result.Success? then |buffer| == |rs| else |buffer| < |rs| && rs[|buffer|] == Failure(result.error)
  }

  ghost predicate Inv<T>(w: S.Setting<T>, s: State<T>) {
    && Sound(w, s) && OneCallback(s)
    && var rs := w.ByPosition();
       (Gathered(rs, s.buffer)
        && match s.phase
           case Ready => s.buffer == [] && !s.deleted
           case Walking => |s.buffer| < |rs| && !s.deleted
           case Unwinding(result, _) => Decided(rs, s.buffer, result) && !s.deleted
           case Finished(outcome) =>
             && outcome == InOrder(rs)
             && (s.deleted <==> AllSucceed(rs))
             && (!AllSucceed(rs) ==> s.buffer == Values(rs[..FirstFailing(rs)])))
  }

  lemma GoInv<T>(w: S.Setting<T>, s: State<T>)
    requires Sound(w, s) && Gathered(w.ByPosition(), s.buffer) && !s.deleted
    requires forall i: nat :: S.Pending(s.sources, i) == 0
    ensures Inv(w, SequenceGo(w, s, |s.buffer|))
  {
    if |s.buffer| < |w.futures| {
      forall i: nat ensures S.Pending(S.Register(w, s.sources, |s.buffer|), i) == if i == |s.buffer| then 1 else 0 {
        S.RegisterPending(w, s.sources, |s.buffer|, i);
      }
    }
  }

  /** The runnable that a thread takes is that of the first position whose value is missing. */
  lemma RunIsNext<T>(w: S.Setting<T>, s: State<T>, p: nat)
    requires Inv(w, s) && p < |s.sources.posted|
    ensures s.phase.Walking? && s.sources.posted[p].callback == |s.buffer| < |w.futures|
    ensures s.sources.posted[p].argument == w.ByPosition()[|s.buffer|]
    ensures forall i: nat :: S.Pending(S.Taken(s.sources, p), i) == 0
  {
    S.PostedIsPending(s.sources, p);
    S.TakenSound(w, s.sources, p);
    forall i: nat ensures S.Pending(S.Taken(s.sources, p), i) == 0 {
      S.TakenPending(s.sources, p, i);
    }
  }

  lemma RunInv<T>(w: S.Setting<T>, s: State<T>, p: nat)
    requires Inv(w, s) && p < |s.sources.posted|
    ensures Inv(w, Step(w, s, Run(p)))
  {
    RunIsNext(w, s, p);
    S.TakenSound(w, s.sources, p);
    var r := s.sources.posted[p].argument;
    if r.Success? {
      GoInv(w, s.(sources := S.Taken(s.sources, p), buffer := s.buffer + [r.value]));
    }
  }

  /** The final `map` finds the whole traversal in the buffer. */
  lemma FinishInv<T>(w: S.Setting<T>, s: State<T>)
    requires Inv(w, s) && s.phase.Unwinding? && s.phase.left == 0
    ensures Inv(w, Forwarded(s))
  {
    var rs := w.ByPosition();
    if s.phase.result.Success? {
      assert AllSucceed(rs) && s.buffer == Values(rs);
    } else {
      FirstFailingIs(rs, |s.buffer|);
      assert s.buffer == Values(rs[..|s.buffer|]);
    }
  }

  lemma StepInv<T>(w: S.Setting<T>, s: State<T>, m: Move)
    requires Inv(w, s) && Enabled(w, s, m)
    ensures Inv(w, Step(w, s, m))
  {
    if m.Run? {
      RunInv(w, s, m.p);
    } else if m.Call? {
      GoInv(w, s);
    } else if m.Forward? {
      if s.phase.left == 0 {
        FinishInv(w, s);
      }
    } else {
      forall i: nat ensures S.Pending(S.Moved(w, s.sources, m.o), i) == S.Pending(s.sources, i) {
        S.MovedPending(w, s.sources, m.o, i);
      }
    }
  }

  lemma {:induction false} RunKeepsInv<T>(w: S.Setting<T>, s: State<T>, moves: seq<Move>)
    requires Inv(w, s) && Possible(w, s, moves)
    ensures Inv(w, Exec(w, s, moves))
    decreases |moves|
  {
    if |moves| > 0 {
      StepInv(w, s, moves[0]);
      RunKeepsInv(w, Step(w, s, moves[0]), moves[1..]);
    }
  }

  lemma BeginInv<T>(w: S.Setting<T>)
    requires w.Valid()
    ensures Inv(w, Begin(w))
  {
    S.BeginSound(w);
  }

  // ---------------------------------------------------------------------------------------------
  // Every run
  // ---------------------------------------------------------------------------------------------

  /** Under every schedule, when the callback of position `index` runs, the heap buffer holds exactly the
      first `index` values, it is not deleted, and no other callback is on its way. */
  lemma BufferWhenCallbackRuns<T>(w: S.Setting<T>, moves: seq<Move>, p: nat)
    requires w.Valid() && Possible(w, Begin(w), moves) && p < |Exec(w, Begin(w), moves).sources.posted|
    ensures var s, rs := Exec(w, Begin(w), moves), w.ByPosition();
      var index := s.sources.posted[p].callback;
      && index < |rs| && AllSucceed(rs[..index]) && s.buffer == Values(rs[..index]) && !s.deleted
      && s.sources.posted[p].argument == rs[index]
      && forall i: nat :: S.Pending(s.sources, i) == if i == index then 1 else 0
  {
    BeginInv(w);
    RunKeepsInv(w, Begin(w), moves);
    var s, rs := Exec(w, Begin(w), moves), w.ByPosition();
    RunIsNext(w, s, p);
    assert forall i :: 0 <= i < |s.buffer| ==> rs[..|s.buffer|][i] == rs[i];
  }

  /** Whenever `sequence` has an outcome, it is the traversal in order, and the buffer has been deleted exactly
      if all futures succeeded; after a failure it still holds the values before it. */
  lemma OutcomeIsInOrder<T>(w: S.Setting<T>, moves: seq<Move>)
    requires w.Valid() && Possible(w, Begin(w), moves) && Exec(w, Begin(w), moves).phase.Finished?
    ensures var s, rs := Exec(w, Begin(w), moves), w.ByPosition();
      && s.phase.outcome == InOrder(rs)
      && (s.deleted <==> AllSucceed(rs))
      && (!AllSucceed(rs) ==> s.buffer == Values(rs[..FirstFailing(rs)]))
  {
    BeginInv(w);
    RunKeepsInv(w, Begin(w), moves);
  }

  /** Called, with all futures set and no thread left with a step, `sequence` has an outcome. */
  lemma CompletesAtRest<T>(w: S.Setting<T>, moves: seq<Move>)
    requires w.Valid() && Possible(w, Begin(w), moves)
    requires var s := Exec(w, Begin(w), moves);
      S.Settled(w, s.sources) && !Enabled(w, s, Call) && !Enabled(w, s, Forward)
    ensures Exec(w, Begin(w), moves).phase.Finished?
  {
    BeginInv(w);
    RunKeepsInv(w, Begin(w), moves);
    var s := Exec(w, Begin(w), moves);
    S.SettledPending(w, s.sources, |s.buffer|);
  }

  // ---------------------------------------------------------------------------------------------
  // Every run comes to an end
  // ---------------------------------------------------------------------------------------------

  /** The moves that do something: all but the refused completions. */
  ghost predicate Effective<T>(w: S.Setting<T>, s: State<T>, m: Move) {
    Enabled(w, s, m) && (m.Outside? ==> S.Effective(s.sources, m.o))
  }

  /** At most one callback for each future, then one forward for each, and the call and the final `map`. */
  ghost function PhaseLeft<T>(n: nat, s: State<T>): int {
    match s.phase
    case Ready => 2 * n + 2
    case Walking => 2 * n + 1 - |s.buffer|
    case Unwinding(_, left) => left + 1
    case Finished(_) => 0
  }

  ghost function Left<T>(w: S.Setting<T>, s: State<T>): int {
    PhaseLeft(|w.futures|, s) + S.Left(s.sources)
  }

  lemma LeftIsNatural<T>(w: S.Setting<T>, s: State<T>)
    requires Inv(w, s)
    ensures Left(w, s) >= 0
  {
  }

  lemma SequenceGoLeft<T>(w: S.Setting<T>, s: State<T>, index: nat)
    requires Sound(w, s) && index == |s.buffer| <= |w.futures|
    ensures Left(w, SequenceGo(w, s, index)) <= 2 * |w.futures| + 1 - index + S.Left(s.sources)
  {
    if index < |w.futures| {
      S.RegisterLeft(w, s.sources, index);
    }
  }

  lemma EffectiveTakesOff<T>(w: S.Setting<T>, s: State<T>, m: Move)
    requires Inv(w, s) && Effective(w, s, m)
    ensures Left(w, Step(w, s, m)) < Left(w, s)
  {
    if m.Outside? {
      S.MovedLeft(w, s.sources, m.o);
    } else if m.Call? {
      SequenceGoLeft(w, s, 0);
    } else if m.Run? {
      RunIsNext(w, s, m.p);
      S.TakenSound(w, s.sources, m.p);
      var r := s.sources.posted[m.p].argument;
      if r.Success? {
        SequenceGoLeft(w, s.(sources := S.Taken(s.sources, m.p), buffer := s.buffer + [r.value]), |s.buffer| + 1);
      }
    }
  }

  ghost predicate AllEffective<T>(w: S.Setting<T>, s: State<T>, moves: seq<Move>)
    requires Sound(w, s) && Possible(w, s, moves)
    decreases |moves|
  {
    |moves| == 0 || (Effective(w, s, moves[0]) && AllEffective(w, Step(w, s, moves[0]), moves[1..]))
  }

  lemma {:induction false} MovesTakeOff<T>(w: S.Setting<T>, s: State<T>, moves: seq<Move>)
    requires Inv(w, s) && Possible(w, s, moves) && AllEffective(w, s, moves)
    ensures |moves| + Left(w, Exec(w, s, moves)) <= Left(w, s)
    decreases |moves|
  {
    if |moves| > 0 {
      StepInv(w, s, moves[0]);
      EffectiveTakesOff(w, s, moves[0]);
      MovesTakeOff(w, Step(w, s, moves[0]), moves[1..]);
    }
  }

  /** A run that has not finished can go on. */
  lemma NextMove<T>(w: S.Setting<T>, s: State<T>) returns (m: Move)
    requires Inv(w, s) && !s.phase.Finished?
    ensures Effective(w, s, m)
  {
    if s.phase.Ready? {
      return Call;
    } else if s.phase.Unwinding? {
      return Forward;
    }
    var o := S.NextOutside(w, s.sources);
    if o.Some? {
      return Outside(o.value);
    }
    var p := S.PendingIsPosted(w, s.sources, |s.buffer|);
    return Run(p);
  }

  /** Every run with nothing but effective moves is bounded by the futures and cells, and one that cannot go on
      has finished. */
  lemma EveryRunEnds<T>(w: S.Setting<T>, moves: seq<Move>)
    requires w.Valid() && Possible(w, Begin(w), moves) && AllEffective(w, Begin(w), moves)
    ensures |moves| <= 2 * |w.futures| + 2 + 2 * |w.results|
    ensures var s := Exec(w, Begin(w), moves);
      (forall m :: !Effective(w, s, m)) ==> s.phase.Finished?
  {
    BeginInv(w);
    RunKeepsInv(w, Begin(w), moves);
    MovesTakeOff(w, Begin(w), moves);
    S.BeginLeft(w);
    var s := Exec(w, Begin(w), moves);
    LeftIsNatural(w, s);
    if !s.phase.Finished? {
      var m := NextMove(w, s);
      assert Effective(w, s, m);
    }
  }

  lemma {:induction false} RunOn<T>(w: S.Setting<T>, s: State<T>) returns (moves: seq<Move>)
    requires Inv(w, s)
    ensures Possible(w, s, moves) && Exec(w, s, moves).phase.Finished?
    decreases Left(w, s)
  {
    if s.phase.Finished? {
      return [];
    }
    var m := NextMove(w, s);
    StepInv(w, s, m);
    EffectiveTakesOff(w, s, m);
    LeftIsNatural(w, s);
    LeftIsNatural(w, Step(w, s, m));
    var rest := RunOn(w, Step(w, s, m));
    moves := [m] + rest;
    assert moves[1..] == rest;
  }

  /** The run has finished and its buffer was never deleted. */
  ghost predicate Leaks<T>(w: S.Setting<T>, moves: seq<Move>)
    requires w.Valid()
  {
    && Possible(w, Begin(w), moves)
    && Exec(w, Begin(w), moves).phase.Finished? && !Exec(w, Begin(w), moves).deleted
  }

  /** Some run leaks the buffer exactly if some future fails; then every run that finishes does. */
  lemma LeaksExactlyWhen<T>(w: S.Setting<T>)
    requires w.Valid()
    ensures (exists moves :: Leaks(w, moves)) <==> !AllSucceed(w.ByPosition())
    ensures forall moves :: Possible(w, Begin(w), moves) && Exec(w, Begin(w), moves).phase.Finished? ==>
              (Leaks(w, moves) <==> !AllSucceed(w.ByPosition()))
  {
    forall moves | Possible(w, Begin(w), moves) && Exec(w, Begin(w), moves).phase.Finished?
      ensures Leaks(w, moves) <==> !AllSucceed(w.ByPosition())
    {
      OutcomeIsInOrder(w, moves);
    }
    BeginInv(w);
    var moves := RunOn(w, Begin(w));
    assert Leaks(w, moves) <==> !AllSucceed(w.ByPosition());
  }

  /** One future, which fails. */
  lemma FailureLeaks<T>(e: Exception) returns (moves: seq<Move>)
    ensures var w: S.Setting<T> := S.Setting([0], [Failure(e)]);
      w.Valid() && Leaks(w, moves) && Exec(w, Begin(w), moves).phase == Finished(Failure(e))
  {
    var w: S.Setting<T> := S.Setting([0], [Failure(e)]);
    BeginInv(w);
    moves := RunOn(w, Begin(w));
    assert w.ByPosition()[0] == Failure(e);
    FirstFailingIs(w.ByPosition(), 0);
    OutcomeIsInOrder(w, moves);
  }
}
