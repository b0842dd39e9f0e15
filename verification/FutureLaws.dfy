/**
 What the combinators mean, whatever the schedule, and `sequence` written as a network of futures.
 */
module FutureLaws {
  import opened Outcomes
  import opened Network
  import opened NetworkSoundness
  import opened NetworkProgress
  import C = Collecting

  // ---------------------------------------------------------------------------------------------
  // The combinators
  // ---------------------------------------------------------------------------------------------

  /** The result of the future that user code returned, or its exception. */
  ghost function Continued(env: seq<Result>, next: Try<Future>): Result {
    if next.Success? then Denote(env, next.value) else Failure(next.error)
  }

  lemma MapMeaning(env: seq<Result>, f: Future, g: Value -> Result)
    ensures var r := Denote(env, f); Denote(env, Map(f, g)) == if r.Success? then g(r.value) else r
  {
  }

  lemma FlatMapMeaning(env: seq<Result>, f: Future, g: Value -> Try<Future>)
    ensures var r := Denote(env, f); Denote(env, FlatMap(f, g)) == if r.Success? then Continued(env, g(r.value)) else r
  {
  }

  lemma RecoverMeaning(env: seq<Result>, f: Future, g: Exception -> Result, h: Exception -> Try<Future>)
    ensures var r := Denote(env, f); Denote(env, Recover(f, g)) == if r.Success? then r else g(r.error)
    ensures var r := Denote(env, f); Denote(env, RecoverWith(f, h)) == if r.Success? then r else Continued(env, h(r.error))
  {
  }

  lemma FilterMeaning(env: seq<Result>, f: Future, p: Value -> Try<bool>)
    ensures var r := Denote(env, f);
      Denote(env, Filter(f, p)) == if r.Failure? then r
                                   else if p(r.value).Failure? then Failure(p(r.value).error)
                                   else if p(r.value).value then r
                                   else Failure(REJECTED)
  {
  }

  lemma LeftIdentity(env: seq<Result>, v: Value, g: Value -> Try<Future>)
    ensures Denote(env, FlatMap(Completed(Success(v)), g)) == Continued(env, g(v))
  {
  }

  lemma RightIdentity(env: seq<Result>, f: Future)
    ensures Denote(env, FlatMap(f, v => Success(Completed(Success(v))))) == Denote(env, f)
  {
  }

  /** Continue `g`'s future with `h`, inside the continuation. */
  ghost function Nested(g: Value -> Try<Future>, h: Value -> Try<Future>): Value -> Try<Future> {
    (v: Value) => if g(v).Success? then Success(FlatMap(g(v).value, h)) else g(v)
  }

  lemma Associativity(env: seq<Result>, f: Future, g: Value -> Try<Future>, h: Value -> Try<Future>)
    ensures Denote(env, FlatMap(FlatMap(f, g), h)) == Denote(env, FlatMap(f, Nested(g, h)))
  {
    FlatMapMeaning(env, FlatMap(f, g), h);
    FlatMapMeaning(env, f, g);
    FlatMapMeaning(env, f, Nested(g, h));
    var r := Denote(env, f);
    if r.Success? && g(r.value).Success? {
      FlatMapMeaning(env, g(r.value).value, h);
    }
  }

  // ---------------------------------------------------------------------------------------------
  // The same under every schedule
  // ---------------------------------------------------------------------------------------------

  /** A future means the same whatever cells exist beyond those it may mention. */
  lemma {:induction false} DenoteLocal(env: seq<Result>, env': seq<Result>, base: nat, f: Future)
    requires Closed(base, f) && base <= |env| && base <= |env'| && env[..base] == env'[..base]
    ensures Denote(env, f) == Denote(env', f)
    decreases f
  {
    if f.Handle? {
      assert env[f.cell] == env[..base][f.cell] && env'[f.cell] == env'[..base][f.cell];
    } else if f.Then? {
      DenoteLocal(env, env', base, f.upstream);
      var t := Denote(env, f.upstream);
      if t in f.follow {
        DenoteLocal(env, env', base, f.follow[t]);
      }
    }
  }

  /** Cell `k` is that of future `f`, which was written when there were `base` cells, and evaluated then or later. */
  ghost predicate IsCellOf(s: State, k: nat, base: nat, f: Future) {
    && base <= |s.origins| && Closed(base, f)
    && if f.Handle? then k == f.cell
       else k < |s.origins| && s.origins[k].Built? && s.origins[k].base >= base && s.origins[k].future == f
  }

  /** The run has put `r` into cell `k` of future `f`. */
  ghost predicate Gives(promised: nat -> Result, moves: seq<Move>, base: nat, f: Future, k: nat, r: Result)
    requires Possible(promised, EMPTY, moves)
  {
    var s := Exec(promised, EMPTY, moves);
    IsCellOf(s, k, base, f) && k < |s.cells| && s.cells[k].value == Some(r)
  }

  /** The pure evaluator's view of the cells of a run. */
  ghost function Environment(promised: nat -> Result, moves: seq<Move>): seq<Result>
    requires Possible(promised, EMPTY, moves)
  {
    Denotations(promised, Exec(promised, EMPTY, moves).origins)
  }

  lemma BuiltMeaning(promised: nat -> Result, origins: seq<Origin>, base: nat, f: Future, k: nat)
    requires WellBuilt(origins) && k < |origins| && origins[k].Built?
    requires Closed(base, f) && base <= origins[k].base && origins[k].future == f
    ensures Denotations(promised, origins)[k] == Denote(Denotations(promised, origins), f)
  {
    var d := Denotations(promised, origins);
    BuiltDenotation(promised, origins, k);
    var env := d[..origins[k].base];
    assert env[..base] == d[..base];
    DenoteLocal(env, d, base, f);
  }

  /** Whatever a run gives for a future is the meaning of the future. */
  lemma GivesTheMeaning(promised: nat -> Result, moves: seq<Move>, base: nat, f: Future, k: nat, r: Result)
    requires Possible(promised, EMPTY, moves) && Gives(promised, moves, base, f, k, r)
    ensures base <= |Environment(promised, moves)| && Closed(base, f) && r == Denote(Environment(promised, moves), f)
  {
    ValuesAreDenotations(promised, moves, k);
    if !f.Handle? {
      RunKeepsSound(promised, EMPTY, moves);
      BuiltMeaning(promised, Exec(promised, EMPTY, moves).origins, base, f, k);
    }
  }

  /** Two futures with the same meaning over any cells, `base` or more of them. */
  ghost predicate SameMeaning(base: nat, f: Future, g: Future) {
    forall env: seq<Result> :: |env| >= base ==> Denote(env, f) == Denote(env, g)
  }

  /** Two futures with the same meaning never disagree in any run, wherever and whenever they were evaluated,
      though different callbacks in different threads compute them. */
  lemma SameMeaningSameResult(promised: nat -> Result, moves: seq<Move>,
                              b: nat, f: Future, i: nat, r: Result, c: nat, g: Future, j: nat, t: Result)
    requires Possible(promised, EMPTY, moves) && SameMeaning(b, f, g)
    requires Gives(promised, moves, b, f, i, r) && Gives(promised, moves, c, g, j, t)
    ensures r == t
  {
    GivesTheMeaning(promised, moves, b, f, i, r);
    GivesTheMeaning(promised, moves, c, g, j, t);
    assert Denote(Environment(promised, moves), f) == Denote(Environment(promised, moves), g);
  }

  /** The two ways of nesting `flatMap` never disagree. */
  lemma AssociativityInEveryRun(promised: nat -> Result, moves: seq<Move>, f: Future, g: Value -> Try<Future>, h: Value -> Try<Future>,
                                b: nat, i: nat, r: Result, c: nat, j: nat, t: Result)
    requires Possible(promised, EMPTY, moves)
    requires Gives(promised, moves, b, FlatMap(FlatMap(f, g), h), i, r)
    requires Gives(promised, moves, c, FlatMap(f, Nested(g, h)), j, t)
    ensures r == t
  {
    forall env: seq<Result> ensures Denote(env, FlatMap(FlatMap(f, g), h)) == Denote(env, FlatMap(f, Nested(g, h))) {
      Associativity(env, f, g, h);
    }
    SameMeaningSameResult(promised, moves, b, FlatMap(FlatMap(f, g), h), i, r, c, FlatMap(f, Nested(g, h)), j, t);
  }

  /** `flatMap` on a completed future never disagrees with the future that the function returns. */
  lemma LeftIdentityInEveryRun(promised: nat -> Result, moves: seq<Move>, v: Value, g: Value -> Try<Future>,
                               b: nat, i: nat, r: Result, c: nat, j: nat, t: Result)
    requires Possible(promised, EMPTY, moves)
    requires Gives(promised, moves, b, FlatMap(Completed(Success(v)), g), i, r)
    ensures g(v).Failure? ==> r == Failure(g(v).error)
    ensures g(v).Success? && Gives(promised, moves, c, g(v).value, j, t) ==> r == t
  {
    var d := Environment(promised, moves);
    GivesTheMeaning(promised, moves, b, FlatMap(Completed(Success(v)), g), i, r);
    LeftIdentity(d, v, g);
    if g(v).Success? && Gives(promised, moves, c, g(v).value, j, t) {
      GivesTheMeaning(promised, moves, c, g(v).value, j, t);
    }
  }

  /** `flatMap` with the completed future never disagrees with the future itself. */
  lemma RightIdentityInEveryRun(promised: nat -> Result, moves: seq<Move>, f: Future,
                                b: nat, i: nat, r: Result, c: nat, j: nat, t: Result)
    requires Possible(promised, EMPTY, moves)
    requires Gives(promised, moves, b, FlatMap(f, v => Success(Completed(Success(v)))), i, r)
    requires Gives(promised, moves, c, f, j, t)
    ensures r == t
  {
    var d := Environment(promised, moves);
    GivesTheMeaning(promised, moves, b, FlatMap(f, v => Success(Completed(Success(v)))), i, r);
    GivesTheMeaning(promised, moves, c, f, j, t);
    RightIdentity(d, f);
  }

  /** A future made of a result holds that result. */
  lemma CompletedInEveryRun(promised: nat -> Result, moves: seq<Move>, b: nat, i: nat, r: Result, t: Result)
    requires Possible(promised, EMPTY, moves) && Gives(promised, moves, b, Completed(r), i, t)
    ensures t == r
  {
    GivesTheMeaning(promised, moves, b, Completed(r), i, t);
  }

  /** A mapped future holds the function of what its source holds, or the source's failure. */
  lemma MapInEveryRun(promised: nat -> Result, moves: seq<Move>, f: Future, g: Value -> Result,
                      b: nat, i: nat, r: Result, c: nat, j: nat, t: Result)
    requires Possible(promised, EMPTY, moves)
    requires Gives(promised, moves, b, f, i, r) && Gives(promised, moves, c, Map(f, g), j, t)
    ensures t == if r.Success? then g(r.value) else r
  {
    GivesTheMeaning(promised, moves, b, f, i, r);
    GivesTheMeaning(promised, moves, c, Map(f, g), j, t);
    MapMeaning(Environment(promised, moves), f, g);
  }

  /** A flat-mapped future holds its source's failure, the function's exception, or what any cell of the
      returned future holds. */
  lemma FlatMapInEveryRun(promised: nat -> Result, moves: seq<Move>, f: Future, g: Value -> Try<Future>,
                          b: nat, i: nat, r: Result, c: nat, j: nat, t: Result, d: nat, k: nat, u: Result)
    requires Possible(promised, EMPTY, moves)
    requires Gives(promised, moves, b, f, i, r) && Gives(promised, moves, c, FlatMap(f, g), j, t)
    ensures r.Failure? ==> t == r
    ensures r.Success? && g(r.value).Failure? ==> t == Failure(g(r.value).error)
    ensures r.Success? && g(r.value).Success? && Gives(promised, moves, d, g(r.value).value, k, u) ==> t == u
  {
    GivesTheMeaning(promised, moves, b, f, i, r);
    GivesTheMeaning(promised, moves, c, FlatMap(f, g), j, t);
    FlatMapMeaning(Environment(promised, moves), f, g);
    if r.Success? && g(r.value).Success? && Gives(promised, moves, d, g(r.value).value, k, u) {
      GivesTheMeaning(promised, moves, d, g(r.value).value, k, u);
    }
  }

  /** A recovered future keeps a success and replaces a failure. */
  lemma RecoverInEveryRun(promised: nat -> Result, moves: seq<Move>, f: Future, g: Exception -> Result,
                          b: nat, i: nat, r: Result, c: nat, j: nat, t: Result)
    requires Possible(promised, EMPTY, moves)
    requires Gives(promised, moves, b, f, i, r) && Gives(promised, moves, c, Recover(f, g), j, t)
    ensures t == if r.Success? then r else g(r.error)
  {
    GivesTheMeaning(promised, moves, b, f, i, r);
    GivesTheMeaning(promised, moves, c, Recover(f, g), j, t);
    RecoverMeaning(Environment(promised, moves), f, g, _ => Success(f));
  }

  /** The same with a future for the replacement. */
  lemma RecoverWithInEveryRun(promised: nat -> Result, moves: seq<Move>, f: Future, g: Exception -> Try<Future>,
                              b: nat, i: nat, r: Result, c: nat, j: nat, t: Result, d: nat, k: nat, u: Result)
    requires Possible(promised, EMPTY, moves)
    requires Gives(promised, moves, b, f, i, r) && Gives(promised, moves, c, RecoverWith(f, g), j, t)
    ensures r.Success? ==> t == r
    ensures r.Failure? && g(r.error).Failure? ==> t == Failure(g(r.error).error)
    ensures r.Failure? && g(r.error).Success? && Gives(promised, moves, d, g(r.error).value, k, u) ==> t == u
  {
    GivesTheMeaning(promised, moves, b, f, i, r);
    GivesTheMeaning(promised, moves, c, RecoverWith(f, g), j, t);
    RecoverMeaning(Environment(promised, moves), f, e => Failure(e), g);
    if r.Failure? && g(r.error).Success? && Gives(promised, moves, d, g(r.error).value, k, u) {
      GivesTheMeaning(promised, moves, d, g(r.error).value, k, u);
    }
  }

  /** A fallback keeps a success and replaces a failure by its value. */
  lemma FallbackInEveryRun(promised: nat -> Result, moves: seq<Move>, f: Future, v: Value,
                           b: nat, i: nat, r: Result, c: nat, j: nat, t: Result)
    requires Possible(promised, EMPTY, moves)
    requires Gives(promised, moves, b, f, i, r) && Gives(promised, moves, c, Fallback(f, v), j, t)
    ensures t == if r.Success? then r else Success(v)
  {
    GivesTheMeaning(promised, moves, b, f, i, r);
    GivesTheMeaning(promised, moves, c, Fallback(f, v), j, t);
  }

  /** The same with what an existing future holds. */
  lemma FallbackWithInEveryRun(promised: nat -> Result, moves: seq<Move>, f: Future, other: nat,
                               b: nat, i: nat, r: Result, c: nat, j: nat, t: Result, d: nat, u: Result)
    requires Possible(promised, EMPTY, moves)
    requires Gives(promised, moves, b, f, i, r) && Gives(promised, moves, c, FallbackWith(f, other), j, t)
    requires Gives(promised, moves, d, Handle(other), other, u)
    ensures t == if r.Success? then r else u
  {
    GivesTheMeaning(promised, moves, b, f, i, r);
    GivesTheMeaning(promised, moves, c, FallbackWith(f, other), j, t);
    GivesTheMeaning(promised, moves, d, Handle(other), other, u);
  }

  /** A filtered future passes on a failure of its source and an exception of the test, keeps a value that
      passes, and rejects any other with NO_SUCH_ELEMENT. */
  lemma FilterInEveryRun(promised: nat -> Result, moves: seq<Move>, f: Future, p: Value -> Try<bool>,
                         b: nat, i: nat, r: Result, c: nat, j: nat, t: Result)
    requires Possible(promised, EMPTY, moves)
    requires Gives(promised, moves, b, f, i, r) && Gives(promised, moves, c, Filter(f, p), j, t)
    ensures t == if r.Failure? then r
                 else if p(r.value).Failure? then Failure(p(r.value).error)
                 else if p(r.value).value then r
                 else Failure(Exception(NO_SUCH_ELEMENT, "Value didn't pass the filter function."))
  {
    GivesTheMeaning(promised, moves, b, f, i, r);
    GivesTheMeaning(promised, moves, c, Filter(f, p), j, t);
    FilterMeaning(Environment(promised, moves), f, p);
  }

  /** The failed projection holds the exception of its source, or FUTURE_WAS_SUCCESSFUL. */
  lemma FailedInEveryRun(promised: nat -> Result, moves: seq<Move>, f: Future, box: Exception -> Value,
                         b: nat, i: nat, r: Result, c: nat, j: nat, t: Result)
    requires Possible(promised, EMPTY, moves)
    requires Gives(promised, moves, b, f, i, r) && Gives(promised, moves, c, Failed(f, box), j, t)
    ensures r.Failure? ==> t == Success(box(r.error))
    ensures r.Success? ==> t == Failure(Exception(FUTURE_WAS_SUCCESSFUL,
                                                  "Future was successful but rejected cause of the failed projection."))
  {
    GivesTheMeaning(promised, moves, b, f, i, r);
    GivesTheMeaning(promised, moves, c, Failed(f, box), j, t);
  }

  // ---------------------------------------------------------------------------------------------
  // sequence
  // ---------------------------------------------------------------------------------------------

  /** `sequence_go` entered with the values gathered so far. `pack` makes a vector of values a value. */
  ghost function SequenceGo(futures: seq<nat>, buffer: seq<Value>, pack: seq<Value> -> Value): Future
    decreases |futures| - |buffer|
  {
    if |buffer| >= |futures| then Completed(Success(pack(buffer)))
    else FlatMap(Handle(futures[|buffer|]), v => Success(SequenceGo(futures, buffer + [v], pack)))
  }

  /** The whole of `sequence`: a last `map` hands the gathered vector on. */
  ghost function Sequence(futures: seq<nat>, pack: seq<Value> -> Value): Future {
    Map(SequenceGo(futures, [], pack), v => Success(v))
  }

  ghost function ResultsOf(env: seq<Result>, futures: seq<nat>): seq<Result>
    requires forall i :: 0 <= i < |futures| ==> futures[i] < |env|
  {
    seq(|futures|, i requires 0 <= i < |futures| => env[futures[i]])
  }

  ghost function Packed(r: Try<seq<Value>>, pack: seq<Value> -> Value): Result {
    if r.Success? then Success(pack(r.value)) else Failure(r.error)
  }

  lemma {:induction false} SequenceClosed(base: nat, futures: seq<nat>, buffer: seq<Value>, pack: seq<Value> -> Value)
    requires forall i :: 0 <= i < |futures| ==> futures[i] < base
    ensures Closed(base, SequenceGo(futures, buffer, pack))
    decreases |futures| - |buffer|
  {
    if |buffer| < |futures| {
      var f := SequenceGo(futures, buffer, pack);
      forall t | t in f.follow ensures Closed(base, f.follow[t]) {
        SequenceClosed(base, futures, buffer + [t.value], pack);
      }
    }
  }

  /** Entered with the first values in its buffer, `sequence_go` ends with all the values in order, or
      with the failure of the lowest failing index. */
  lemma {:induction false} SequenceGoMeaning(env: seq<Result>, futures: seq<nat>, buffer: seq<Value>, pack: seq<Value> -> Value)
    requires forall i :: 0 <= i < |futures| ==> futures[i] < |env|
    requires |buffer| <= |futures|
    requires forall i :: 0 <= i < |buffer| ==> env[futures[i]] == Success(buffer[i])
    ensures Denote(env, SequenceGo(futures, buffer, pack)) == Packed(C.InOrder(ResultsOf(env, futures)), pack)
    decreases |futures| - |buffer|
  {
    var rs := ResultsOf(env, futures);
    if |buffer| == |futures| {
      assert C.AllSucceed(rs) && C.Values(rs) == buffer;
    } else {
      var r := env[futures[|buffer|]];
      if r.Success? {
        SequenceGoMeaning(env, futures, buffer + [r.value], pack);
      } else {
        C.FirstFailingIs(rs, |buffer|);
      }
    }
  }

  /** User code can evaluate `sequence` over any cells of any network; its cell is then the last one. */
  lemma SequenceCanBeEvaluated(promised: nat -> Result, s: State, futures: seq<nat>, pack: seq<Value> -> Value)
    requires |s.cells| == |s.origins| && forall i :: 0 <= i < |futures| ==> futures[i] < |s.cells|
    ensures var m := NewFuture(Sequence(futures, pack));
      && Enabled(promised, s, m)
      && var s' := Step(promised, s, m);
         |s'.cells| > |s.cells| && IsCellOf(s', |s'.cells| - 1, |s.cells|, Sequence(futures, pack))
  {
    var f := Sequence(futures, pack);
    SequenceClosed(|s.cells|, futures, [], pack);
    BuildShape(s.cells, s.origins, |s.cells|, f.upstream);
  }

  /** `sequence` over any cells of a network: under every schedule, if the network comes to rest with its
      promises kept, the sequenced future holds the values in order, or the failure of the lowest
      failing index, whatever order the futures completed in. */
  lemma SequenceUnderEverySchedule(promised: nat -> Result, moves: seq<Move>, base: nat, futures: seq<nat>, pack: seq<Value> -> Value, k: nat)
    requires Possible(promised, EMPTY, moves)
    requires var s := Exec(promised, EMPTY, moves);
      AtRest(s) && PromisesKept(s) && IsCellOf(s, k, base, Sequence(futures, pack))
    requires forall i :: 0 <= i < |futures| ==> futures[i] < base
    ensures var d := Environment(promised, moves);
      && base <= |d|
      && Gives(promised, moves, base, Sequence(futures, pack), k, Packed(C.InOrder(ResultsOf(d, futures)), pack))
      && forall i :: 0 <= i < |futures| ==> Gives(promised, moves, base, Handle(futures[i]), futures[i], d[futures[i]])
  {
    var d := Environment(promised, moves);
    RestIsCompletion(promised, moves);
    GivesTheMeaning(promised, moves, base, Sequence(futures, pack), k, d[k]);
    SequenceGoMeaning(d, futures, [], pack);
  }
}
