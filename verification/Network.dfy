/**
 Whole networks of futures under an adversarial scheduler.

 A network is a growing list of cells. User code builds futures with the combinators; every combinator
 makes a fresh cell and registers a callback on the cell it depends on. Threads take atomic steps: one
 critical section of one cell, or one run of a posted callback. The scheduler picks any thread that has
 a step left, and may interleave new futures and completions of promises anywhere.
 */
module Network {
  import opened Outcomes
  import D = Deferral

  type Value(!new, ==)
  type Result = Try<Value>
  type Cell = D.Cell<Value, Callback>

  // ---------------------------------------------------------------------------------------------
  // Futures
  // ---------------------------------------------------------------------------------------------

  /** The expression that user code evaluates to obtain a future: an existing future, a completed one,
      or one whose callback waits for `upstream`. On a result in `follow` the callback asks for another
      future and forwards its result; on any other result it settles at once. */
  datatype Future =
    | Handle(cell: nat)
    | Completed(result: Result)
    | Then(upstream: Future, settle: Result -> Result, follow: imap<Result, Future>)

  /** Only futures that existed when the expression was written, those below `base`, can be mentioned. */
  ghost predicate Closed(base: nat, f: Future)
    decreases f
  {
    match f
    case Handle(cell) => cell < base
    case Completed(_) => true
    case Then(upstream, _, follow) => Closed(base, upstream) && forall t :: t in follow ==> Closed(base, follow[t])
  }

  ghost function Map(f: Future, g: Value -> Result): Future {
    Then(f, (t: Result) => if t.Success? then g(t.value) else t, imap[])
  }

  ghost function FlatMap(f: Future, g: Value -> Try<Future>): Future {
    Then(f,
         (t: Result) => if t.Success? then (if g(t.value).Failure? then Failure(g(t.value).error) else t) else t,
         imap t: Result | t.Success? && g(t.value).Success? :: g(t.value).value)
  }

  ghost function Recover(f: Future, g: Exception -> Result): Future {
    Then(f, (t: Result) => if t.Failure? then g(t.error) else t, imap[])
  }

  ghost function RecoverWith(f: Future, g: Exception -> Try<Future>): Future {
    Then(f,
         (t: Result) => if t.Failure? && g(t.error).Failure? then Failure(g(t.error).error) else t,
         imap t: Result | t.Failure? && g(t.error).Success? :: g(t.error).value)
  }

  ghost function Fallback(f: Future, v: Value): Future {
    Recover(f, _ => Success(v))
  }

  ghost function FallbackWith(f: Future, other: nat): Future {
    RecoverWith(f, _ => Success(Handle(other)))
  }

  const REJECTED := Exception(NO_SUCH_ELEMENT, "Value didn't pass the filter function.")

  ghost function Filter(f: Future, p: Value -> Try<bool>): Future {
    Map(f, (v: Value) => match p(v)
                         case Success(true) => Success(v)
                         case Success(false) => Failure(REJECTED)
                         case Failure(e) => Failure(e))
  }

  const NOT_FAILED :=
    Exception(FUTURE_WAS_SUCCESSFUL, "Future was successful but rejected cause of the failed projection.")

  /** `box` makes the exception a value of the projected future. */
  ghost function Failed(f: Future, box: Exception -> Value): Future {
    Then(f, (t: Result) => if t.Failure? then Success(box(t.error)) else Failure(NOT_FAILED), imap[])
  }

  // ---------------------------------------------------------------------------------------------
  // What a future means, with no scheduler in sight
  // ---------------------------------------------------------------------------------------------

  /** The result of a future, given those of the existing cells. A closed future mentions no other. */
  ghost function Denote(env: seq<Result>, f: Future): Result {
    match f
    case Handle(cell) => if cell < |env| then env[cell] else Failure(Exception(RUNTIME_ERROR, ""))
    case Completed(result) => result
    case Then(upstream, settle, follow) =>
      var t := Denote(env, upstream);
      if t in follow then Denote(env, follow[t]) else settle(t)
  }

  /** Where a cell comes from: a promise kept by the outside world, or a future built over the cells
      below `base`. */
  datatype Origin = Source | Built(base: nat, future: Future)

  /** `promised(i)` is what the outside world will put, first, into source cell `i`. */
  ghost function Denotations(promised: nat -> Result, origins: seq<Origin>): (d: seq<Result>)
    ensures |d| == |origins|
  {
    if |origins| == 0 then []
    else
      var n := |origins| - 1;
      var d := Denotations(promised, origins[..n]);
      var o := origins[n];
      d + [if o.Built? && o.base <= n then Denote(d[..o.base], o.future) else promised(n)]
  }

  // ---------------------------------------------------------------------------------------------
  // The machine
  // ---------------------------------------------------------------------------------------------

  /** The closure a combinator registers: it captures the cell it will complete. */
  datatype Callback = Callback(base: nat, settle: Result -> Result, follow: imap<Result, Future>, target: nat)

  datatype Action =
    | Run(callback: Callback, argument: Result)   // a posted runnable
    | Store(target: nat, result: Result)          // first critical section of setResult
    | Trigger(cell: nat)                          // second critical section of setResult
    | Register(source: nat, callback: Callback)   // addCallback

  type Task = seq<Action>

  /** `aborted` records that some callback was refused with ALREADY_COMPLETED. */
  datatype State = State(cells: seq<Cell>, origins: seq<Origin>, tasks: seq<Task>, aborted: bool)

  const EMPTY := State([], [], [], false)

  ghost function Identity(): Result -> Result {
    (t: Result) => t
  }

  /** The callback that forwards another future's result to the cell of `cb`. */
  ghost function Forward(cb: Callback): Callback {
    Callback(cb.base, Identity(), imap[], cb.target)
  }

  datatype Construction = Construction(cells: seq<Cell>, origins: seq<Origin>, actions: seq<Action>, root: nat)

  /** Evaluating a future expression: fresh cells, and the registrations to perform, innermost first. */
  ghost function Build(cells: seq<Cell>, origins: seq<Origin>, base: nat, f: Future): Construction {
    match f
    case Handle(cell) => Construction(cells, origins, [], cell)
    case Completed(result) =>
      Construction(cells + [D.Stored(D.EmptyCell(), result)], origins + [Built(base, f)], [], |cells|)
    case Then(upstream, settle, follow) =>
      Attach(Build(cells, origins, base, upstream), base, f)
  }

  /** A combinator: a fresh cell, and the registration of its callback on the upstream cell. */
  ghost function Attach(c: Construction, base: nat, f: Future): Construction
    requires f.Then?
  {
    Construction(c.cells + [D.EmptyCell()], c.origins + [Built(base, f)],
                 c.actions + [Register(c.root, Callback(base, f.settle, f.follow, |c.cells|))], |c.cells|)
  }

  function AsTask(d: D.Dispatch<Value, Callback>): Task {
    [Run(d.callback, d.argument)]
  }

  function AsTasks(ds: seq<D.Dispatch<Value, Callback>>): seq<Task> {
    seq(|ds|, i requires 0 <= i < |ds| => AsTask(ds[i]))
  }

  /** Replace cell `j` by `c` and run the trigger loop on it. */
  ghost function Drained(s: State, j: nat, c: Cell): State
    requires j < |s.cells|
  {
    s.(cells := s.cells[j := D.Triggered(c)], tasks := s.tasks + AsTasks(D.Posts(c)))
  }

  /** Thread `i` performs its next action. */
  ghost function Perform(s: State, i: nat): State
    requires i < |s.tasks| && s.tasks[i] != []
  {
    var rest := s.tasks[i][1..];
    match s.tasks[i][0]
    case Run(cb, argument) =>
      if argument in cb.follow then
        var c := Build(s.cells, s.origins, cb.base, cb.follow[argument]);
        State(c.cells, c.origins, s.tasks[i := c.actions + [Register(c.root, Forward(cb))] + rest], s.aborted)
      else
        s.(tasks := s.tasks[i := [Store(cb.target, cb.settle(argument)), Trigger(cb.target)] + rest])
    case Store(k, r) =>
      if k >= |s.cells| || s.cells[k].value.Some? then
        s.(tasks := s.tasks[i := []], aborted := true)
      else
        s.(tasks := s.tasks[i := rest], cells := s.cells[k := D.Stored(s.cells[k], r)])
    case Trigger(k) =>
      if k >= |s.cells| then s else Drained(s.(tasks := s.tasks[i := rest]), k, s.cells[k])
    case Register(j, cb) =>
      if j >= |s.cells| then s else Drained(s.(tasks := s.tasks[i := rest]), j, D.Queued(s.cells[j], cb))
  }

  /** One move of the scheduler or of the outside world. */
  datatype Move =
    | NewPromise
    | NewFuture(future: Future)                 // user code evaluates a future expression
    | CompleteSource(cell: nat, result: Result) // first half of a promise's setResult
    | SetSource(cell: nat, result: Result)      // a promise's setValue or setError
    | Schedule(task: nat)

  ghost predicate Enabled(promised: nat -> Result, s: State, m: Move) {
    match m
    case NewPromise => true
    case NewFuture(f) => Closed(|s.cells|, f)
    case CompleteSource(c, r) => c < |s.cells| == |s.origins| && s.origins[c].Source? && (s.cells[c].value.None? ==> r == promised(c))
    case SetSource(c, r) => c < |s.cells| == |s.origins| && s.origins[c].Source? && (s.cells[c].value.None? ==> r == promised(c))
    case Schedule(i) => i < |s.tasks| && s.tasks[i] != []
  }

  ghost function Step(promised: nat -> Result, s: State, m: Move): State
    requires Enabled(promised, s, m)
  {
    match m
    case NewPromise => s.(cells := s.cells + [D.EmptyCell()], origins := s.origins + [Source])
    case NewFuture(f) =>
      var c := Build(s.cells, s.origins, |s.cells|, f);
      State(c.cells, c.origins, s.tasks + [c.actions], s.aborted)
    case CompleteSource(c, r) =>
      if s.cells[c].value.Some? then s
      else s.(cells := s.cells[c := D.Stored(s.cells[c], r)], tasks := s.tasks + [[Trigger(c)]])
    case SetSource(c, r) =>
      if s.cells[c].value.Some? then s else Drained(s, c, D.Stored(s.cells[c], r))
    case Schedule(i) => Perform(s, i)
  }

  ghost predicate Possible(promised: nat -> Result, s: State, moves: seq<Move>)
    decreases |moves|
  {
    |moves| == 0 || (Enabled(promised, s, moves[0]) && Possible(promised, Step(promised, s, moves[0]), moves[1..]))
  }

  ghost function Exec(promised: nat -> Result, s: State, moves: seq<Move>): State
    requires Possible(promised, s, moves)
    decreases |moves|
  {
    if |moves| == 0 then s else Exec(promised, Step(promised, s, moves[0]), moves[1..])
  }
}
