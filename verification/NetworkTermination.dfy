/**
 Termination of the network machine. `Work` counts, from the denotations alone, the thread steps that a
 network still has to take. Every scheduled step takes exactly one off, whichever thread is picked, so
 every schedule ends, and all complete schedules have the same length.
 */
module NetworkTermination {
  import opened Outcomes
  import opened Network
  import opened NetworkSoundness
  import opened NetworkProgress
  import opened Tallies
  import D = Deferral

  ghost function Upto(d: seq<Result>, n: nat): seq<Result> {
    if n <= |d| then d[..n] else d
  }

  ghost function At(d: seq<Result>, j: nat): Result {
    if j < |d| then d[j] else Failure(Exception(RUNTIME_ERROR, ""))
  }

  /** Steps caused by constructing `f`: its registrations, and everything its callbacks will do. Running a
      callback costs one step, then either storing and triggering, or constructing the future it follows
      and registering, running, storing and triggering the forwarding callback. */
  ghost function BuildWork(env: seq<Result>, f: Future): nat {
    match f
    case Handle(_) => 0
    case Completed(_) => 0
    case Then(upstream, settle, follow) =>
      var t := Denote(env, upstream);
      BuildWork(env, upstream) + 2 + if t in follow then BuildWork(env, follow[t]) + 4 else 2
  }

  ghost function CallbackWork(d: seq<Result>, cb: Callback, t: Result): nat {
    1 + if t in cb.follow then BuildWork(Upto(d, cb.base), cb.follow[t]) + 4 else 2
  }

  ghost function ActionWork(d: seq<Result>): Action -> nat {
    (a: Action) =>
      match a
      case Run(cb, t) => CallbackWork(d, cb, t)
      case Store(_, _) => 1
      case Trigger(_) => 1
      case Register(j, cb) => 1 + CallbackWork(d, cb, At(d, j))
  }

  ghost function TaskWork(d: seq<Result>): Task -> nat {
    (task: Task) => Sum(task, ActionWork(d))
  }

  ghost function WaitWork(d: seq<Result>, t: Result): Callback -> nat {
    (cb: Callback) => CallbackWork(d, cb, t)
  }

  ghost function QueueWork(d: seq<Result>, j: nat, c: Cell): nat {
    Sum(c.callbacks, WaitWork(d, At(d, j)))
  }

  ghost function CellsWork(d: seq<Result>, cells: seq<Cell>): nat {
    if |cells| == 0 then 0
    else CellsWork(d, cells[..|cells| - 1]) + QueueWork(d, |cells| - 1, cells[|cells| - 1])
  }

  ghost function Work(promised: nat -> Result, s: State): nat {
    var d := Denotations(promised, s.origins);
    CellsWork(d, s.cells) + Sum(s.tasks, TaskWork(d))
  }

  lemma {:induction false} CellsWorkUpdate(d: seq<Result>, cells: seq<Cell>, j: nat, c: Cell)
    requires j < |cells|
    ensures CellsWork(d, cells[j := c]) + QueueWork(d, j, cells[j]) == CellsWork(d, cells) + QueueWork(d, j, c)
  {
    var n := |cells| - 1;
    if j < n {
      assert cells[j := c][..n] == cells[..n][j := c];
      CellsWorkUpdate(d, cells[..n], j, c);
    } else {
      assert cells[j := c][..n] == cells[..n];
    }
  }

  lemma {:induction false} CellsWorkGrows(d: seq<Result>, cells: seq<Cell>, cells': seq<Cell>)
    requires cells <= cells' && forall k :: |cells| <= k < |cells'| ==> cells'[k].callbacks == []
    ensures CellsWork(d, cells') == CellsWork(d, cells)
    decreases |cells'|
  {
    if |cells| < |cells'| {
      CellsWorkGrows(d, cells, cells'[..|cells'| - 1]);
    } else {
      assert cells == cells';
    }
  }

  // ---------------------------------------------------------------------------------------------
  // New cells do not change what the old ones still have to do
  // ---------------------------------------------------------------------------------------------

  lemma CallbackWorkStable(d: seq<Result>, d': seq<Result>, cb: Callback, t: Result)
    requires d <= d' && cb.base <= |d|
    ensures CallbackWork(d', cb, t) == CallbackWork(d, cb, t)
  {
    PrefixOfPrefix(d, d', cb.base);
  }

  lemma TaskWorkStable(origins: seq<Origin>, d: seq<Result>, d': seq<Result>, task: Task)
    requires d <= d' && |origins| == |d| && TaskSound(origins, d, task)
    ensures TaskWork(d')(task) == TaskWork(d)(task)
  {
    forall a | a in task ensures ActionWork(d')(a) == ActionWork(d)(a) {
      assert ActionSound(origins, d, a);
      if a.Run? {
        CallbackWorkStable(d, d', a.callback, a.argument);
      } else if a.Register? {
        CallbackWorkStable(d, d', a.callback, d[a.source]);
      }
    }
    SumEqual(task, ActionWork(d'), ActionWork(d));
  }

  lemma {:induction false} CellsWorkStable(origins: seq<Origin>, d: seq<Result>, d': seq<Result>, cells: seq<Cell>)
    requires d <= d' && |origins| == |d| && |cells| <= |d|
    requires forall j :: 0 <= j < |cells| ==> CellSound(origins, d, j, cells[j])
    ensures CellsWork(d', cells) == CellsWork(d, cells)
  {
    if |cells| > 0 {
      var n := |cells| - 1;
      CellsWorkStable(origins, d, d', cells[..n]);
      assert CellSound(origins, d, n, cells[n]);
      forall cb | cb in cells[n].callbacks ensures WaitWork(d', d[n])(cb) == WaitWork(d, d[n])(cb) {
        assert WaitSound(origins, d, n, cb);
        CallbackWorkStable(d, d', cb, d[n]);
      }
      SumEqual(cells[n].callbacks, WaitWork(d', d[n]), WaitWork(d, d[n]));
    }
  }

  lemma TasksWorkStable(origins: seq<Origin>, d: seq<Result>, d': seq<Result>, tasks: seq<Task>)
    requires d <= d' && |origins| == |d|
    requires forall i :: 0 <= i < |tasks| ==> TaskSound(origins, d, tasks[i])
    ensures Sum(tasks, TaskWork(d')) == Sum(tasks, TaskWork(d))
  {
    forall task | task in tasks ensures TaskWork(d')(task) == TaskWork(d)(task) {
      TaskWorkStable(origins, d, d', task);
    }
    SumEqual(tasks, TaskWork(d'), TaskWork(d));
  }

  lemma AttachWork(promised: nat -> Result, u: Construction, base: nat, f: Future)
    requires f.Then? && Closed(base, f) && Constructed(promised, u, base, f.upstream)
    requires var d := Denotations(promised, u.origins); TaskWork(d)(u.actions) == BuildWork(d[..base], f.upstream)
    ensures var c := Attach(u, base, f);
      var d := Denotations(promised, c.origins);
      base <= |d| && TaskWork(d)(c.actions) == BuildWork(d[..base], f)
  {
    var c := Attach(u, base, f);
    var d, d' := Denotations(promised, u.origins), Denotations(promised, c.origins);
    AttachSound(promised, u, base, f);
    PrefixOfPrefix(d, d', base);
    TaskWorkStable(u.origins, d, d', u.actions);
    var registration := Register(u.root, Callback(base, f.settle, f.follow, |u.cells|));
    SumConcat(u.actions, [registration], ActionWork(d'));
    SumOne(registration, ActionWork(d'));
    assert At(d', u.root) == Denote(d'[..base], f.upstream);
  }

  /** The actions of a construction do the work counted for its future. */
  lemma {:induction false} BuildWorkPerformed(promised: nat -> Result, cells: seq<Cell>, origins: seq<Origin>, base: nat, f: Future)
    requires base <= |cells| && Closed(base, f)
    requires WellBuilt(origins) && CellsSound(origins, Denotations(promised, origins), cells)
    ensures var c := Build(cells, origins, base, f);
      var d := Denotations(promised, c.origins);
      base <= |d| && TaskWork(d)(c.actions) == BuildWork(d[..base], f)
    decreases f
  {
    if f.Then? {
      BuildSound(promised, cells, origins, base, f.upstream);
      BuildWorkPerformed(promised, cells, origins, base, f.upstream);
      AttachWork(promised, Build(cells, origins, base, f.upstream), base, f);
    } else {
      BuildSound(promised, cells, origins, base, f);
    }
  }

  // ---------------------------------------------------------------------------------------------
  // Every scheduled step takes exactly one off
  // ---------------------------------------------------------------------------------------------

  lemma PopWork(d: seq<Result>, task: Task)
    requires task != []
    ensures TaskWork(d)(task) == ActionWork(d)(task[0]) + TaskWork(d)(task[1..])
  {
  }

  lemma {:induction false} DispatchesWork(d: seq<Result>, r: Result, callbacks: seq<Callback>)
    ensures Sum(AsTasks(D.Dispatches(r, callbacks)), TaskWork(d)) == Sum(callbacks, WaitWork(d, r))
  {
    if |callbacks| > 0 {
      var tasks := AsTasks(D.Dispatches(r, callbacks));
      assert tasks[1..] == AsTasks(D.Dispatches(r, callbacks[1..]));
      assert tasks[0] == [Run(callbacks[0], r)];
      SumOne(Run(callbacks[0], r), ActionWork(d));
      DispatchesWork(d, r, callbacks[1..]);
    }
  }

  lemma DrainedWork(promised: nat -> Result, s: State, j: nat, c: Cell)
    requires |s.cells| == |s.origins| && j < |s.cells|
    requires c.value.Some? ==> c.value.value == Denotations(promised, s.origins)[j]
    ensures var d := Denotations(promised, s.origins);
      Work(promised, Drained(s, j, c)) + QueueWork(d, j, s.cells[j]) == Work(promised, s) + QueueWork(d, j, c)
  {
    var d := Denotations(promised, s.origins);
    CellsWorkUpdate(d, s.cells, j, D.Triggered(c));
    SumConcat(s.tasks, AsTasks(D.Posts(c)), TaskWork(d));
    if c.value.Some? {
      DispatchesWork(d, c.value.value, c.callbacks);
    } else {
      assert AsTasks(D.Posts(c)) == [];
    }
  }

  /** The task left by a callback that follows another future. */
  lemma FollowTaskWork(d: seq<Result>, actions: Task, forward: Action, rest: Task)
    requires forward.Register? && forward.callback.follow == imap[]
    ensures TaskWork(d)(actions + [forward] + rest) == TaskWork(d)(actions) + 4 + TaskWork(d)(rest)
  {
    SumConcat(actions + [forward], rest, ActionWork(d));
    SumConcat(actions, [forward], ActionWork(d));
    SumOne(forward, ActionWork(d));
  }

  ghost function WithCells(s: State, c: Construction): State {
    State(c.cells, c.origins, s.tasks, s.aborted)
  }

  lemma GrownWork(promised: nat -> Result, s: State, c: Construction)
    requires Sound(promised, s)
    requires s.cells <= c.cells && forall k :: |s.cells| <= k < |c.cells| ==> c.cells[k].callbacks == []
    requires Denotations(promised, s.origins) <= Denotations(promised, c.origins)
    ensures Work(promised, WithCells(s, c)) == Work(promised, s)
  {
    var d, d' := Denotations(promised, s.origins), Denotations(promised, c.origins);
    CellsWorkGrows(d', s.cells, c.cells);
    CellsWorkStable(s.origins, d, d', s.cells);
    TasksWorkStable(s.origins, d, d', s.tasks);
  }

  lemma BuildGrows(promised: nat -> Result, s: State, base: nat, f: Future)
    requires Sound(promised, s) && base <= |s.cells| && Closed(base, f)
    ensures Work(promised, WithCells(s, Build(s.cells, s.origins, base, f))) == Work(promised, s)
  {
    BuildSound(promised, s.cells, s.origins, base, f);
    BuildShape(s.cells, s.origins, base, f);
    GrownWork(promised, s, Build(s.cells, s.origins, base, f));
  }

  /** Thread `i` gets something else to do. */
  lemma ReplaceTaskWork(promised: nat -> Result, s: State, i: nat, task: Task)
    requires i < |s.tasks|
    ensures var d := Denotations(promised, s.origins);
      Work(promised, s.(tasks := s.tasks[i := task])) + TaskWork(d)(s.tasks[i]) == Work(promised, s) + TaskWork(d)(task)
  {
    SumUpdate(s.tasks, i, task, TaskWork(Denotations(promised, s.origins)));
  }

  lemma FollowWork(promised: nat -> Result, s: State, i: nat)
    requires Sound(promised, s) && i < |s.tasks| && s.tasks[i] != [] && s.tasks[i][0].Run?
    requires s.tasks[i][0].argument in s.tasks[i][0].callback.follow
    ensures Work(promised, Perform(s, i)) + 1 == Work(promised, s)
  {
    var cb, argument, rest := s.tasks[i][0].callback, s.tasks[i][0].argument, s.tasks[i][1..];
    var f := cb.follow[argument];
    var c := Build(s.cells, s.origins, cb.base, f);
    assert ActionSound(s.origins, Denotations(promised, s.origins), s.tasks[i][0]);
    var task := c.actions + [Register(c.root, Forward(cb))] + rest;
    BuildGrows(promised, s, cb.base, f);
    ReplaceTaskWork(promised, WithCells(s, c), i, task);
    FollowedWork(promised, s, i, c);
  }

  /** The run of the callback has turned into all that is left, but for the run itself. */
  lemma FollowedWork(promised: nat -> Result, s: State, i: nat, c: Construction)
    requires Sound(promised, s) && i < |s.tasks| && s.tasks[i] != [] && s.tasks[i][0].Run?
    requires s.tasks[i][0].argument in s.tasks[i][0].callback.follow
    requires var cb := s.tasks[i][0].callback;
      cb.base <= |s.cells| && Closed(cb.base, cb.follow[s.tasks[i][0].argument])
      && c == Build(s.cells, s.origins, cb.base, cb.follow[s.tasks[i][0].argument])
    ensures var d, cb := Denotations(promised, c.origins), s.tasks[i][0].callback;
      TaskWork(d)(c.actions + [Register(c.root, Forward(cb))] + s.tasks[i][1..]) + 1 == TaskWork(d)(s.tasks[i])
  {
    var d, cb := Denotations(promised, c.origins), s.tasks[i][0].callback;
    BuildWorkPerformed(promised, s.cells, s.origins, cb.base, cb.follow[s.tasks[i][0].argument]);
    PopWork(d, s.tasks[i]);
    FollowTaskWork(d, c.actions, Register(c.root, Forward(cb)), s.tasks[i][1..]);
  }

  lemma SettleWork(promised: nat -> Result, s: State, i: nat)
    requires i < |s.tasks| && s.tasks[i] != [] && s.tasks[i][0].Run?
    requires s.tasks[i][0].argument !in s.tasks[i][0].callback.follow
    ensures Work(promised, Perform(s, i)) + 1 == Work(promised, s)
  {
    var cb, argument, rest := s.tasks[i][0].callback, s.tasks[i][0].argument, s.tasks[i][1..];
    var d := Denotations(promised, s.origins);
    var finish := [Store(cb.target, cb.settle(argument)), Trigger(cb.target)];
    PopWork(d, s.tasks[i]);
    SumConcat(finish, rest, ActionWork(d));
    PopWork(d, finish);
    assert finish[1..] == [finish[1]];
    SumOne(finish[1], ActionWork(d));
    SumUpdate(s.tasks, i, finish + rest, TaskWork(d));
  }

  lemma StoreWork(promised: nat -> Result, s: State, i: nat)
    requires Sound(promised, s) && Live(s) && i < |s.tasks| && s.tasks[i] != [] && s.tasks[i][0].Store?
    ensures Work(promised, Perform(s, i)) + 1 == Work(promised, s)
  {
    var k, r, rest := s.tasks[i][0].target, s.tasks[i][0].result, s.tasks[i][1..];
    var d := Denotations(promised, s.origins);
    StoreFindsCellUnset(s, i);
    PopWork(d, s.tasks[i]);
    SumUpdate(s.tasks, i, rest, TaskWork(d));
    CellsWorkUpdate(d, s.cells, k, D.Stored(s.cells[k], r));
  }

  lemma DrainingWork(promised: nat -> Result, s: State, i: nat)
    requires Sound(promised, s) && i < |s.tasks| && s.tasks[i] != []
    requires s.tasks[i][0].Trigger? || s.tasks[i][0].Register?
    ensures Work(promised, Perform(s, i)) + 1 == Work(promised, s)
  {
    var a, rest := s.tasks[i][0], s.tasks[i][1..];
    var d := Denotations(promised, s.origins);
    assert ActionSound(s.origins, d, a);
    var j := if a.Trigger? then a.cell else a.source;
    var popped := s.(tasks := s.tasks[i := rest]);
    assert CellSound(s.origins, d, j, s.cells[j]);
    PopWork(d, s.tasks[i]);
    SumUpdate(s.tasks, i, rest, TaskWork(d));
    if a.Trigger? {
      DrainedWork(promised, popped, j, s.cells[j]);
    } else {
      SumConcat(s.cells[j].callbacks, [a.callback], WaitWork(d, d[j]));
      SumOne(a.callback, WaitWork(d, d[j]));
      DrainedWork(promised, popped, j, D.Queued(s.cells[j], a.callback));
    }
  }

  lemma ScheduledStepTakesOneOff(promised: nat -> Result, s: State, i: nat)
    requires Sound(promised, s) && Live(s) && i < |s.tasks| && s.tasks[i] != []
    ensures Work(promised, Perform(s, i)) + 1 == Work(promised, s)
  {
    var a := s.tasks[i][0];
    if a.Run? {
      if a.argument in a.callback.follow {
        FollowWork(promised, s, i);
      } else {
        SettleWork(promised, s, i);
      }
    } else if a.Store? {
      StoreWork(promised, s, i);
    } else {
      DrainingWork(promised, s, i);
    }
  }

  // ---------------------------------------------------------------------------------------------
  // The length of every schedule
  // ---------------------------------------------------------------------------------------------

  ghost predicate OnlySchedules(moves: seq<Move>) {
    forall i :: 0 <= i < |moves| ==> moves[i].Schedule?
  }

  lemma PerformKeepsPromises(s: State, i: nat)
    requires |s.cells| == |s.origins| && PromisesKept(s) && i < |s.tasks| && s.tasks[i] != []
    ensures PromisesKept(Perform(s, i))
  {
    var a := s.tasks[i][0];
    if a.Run? && a.argument in a.callback.follow {
      BuildShape(s.cells, s.origins, a.callback.base, a.callback.follow[a.argument]);
    }
  }

  lemma {:induction false} SchedulesSpendWork(promised: nat -> Result, s: State, moves: seq<Move>)
    requires Sound(promised, s) && Live(s)
    requires Possible(promised, s, moves) && OnlySchedules(moves)
    ensures |moves| + Work(promised, Exec(promised, s, moves)) == Work(promised, s)
    ensures PromisesKept(s) ==> PromisesKept(Exec(promised, s, moves))
    decreases |moves|
  {
    if |moves| > 0 {
      assert moves[0].Schedule?;
      var s' := Step(promised, s, moves[0]);
      ScheduledStepTakesOneOff(promised, s, moves[0].task);
      StepSound(promised, s, moves[0]);
      StepLive(promised, s, moves[0]);
      if PromisesKept(s) {
        PerformKeepsPromises(s, moves[0].task);
      }
      SchedulesSpendWork(promised, s', moves[1..]);
    }
  }

  lemma {:induction false} NoCallbacksNoWork(d: seq<Result>, cells: seq<Cell>)
    requires forall j :: 0 <= j < |cells| ==> cells[j].callbacks == []
    ensures CellsWork(d, cells) == 0
  {
    if |cells| > 0 {
      NoCallbacksNoWork(d, cells[..|cells| - 1]);
    }
  }

  lemma NoWorkIffAtRest(promised: nat -> Result, s: State)
    requires Sound(promised, s) && Live(s) && PromisesKept(s)
    ensures Work(promised, s) == 0 <==> AtRest(s)
  {
    var d := Denotations(promised, s.origins);
    if AtRest(s) {
      SumOfNothing(s.tasks, TaskWork(d));
      forall j | 0 <= j < |s.cells| ensures s.cells[j].callbacks == [] {
        SetAtRest(promised, s, j);
        assert !SomeTaskTriggers(s.tasks, j);
      }
      NoCallbacksNoWork(d, s.cells);
    } else {
      var i :| 0 <= i < |s.tasks| && s.tasks[i] != [];
      SumContains(s.tasks, TaskWork(d), i);
      PopWork(d, s.tasks[i]);
    }
  }

  /** Once its promises are kept, a network finishes under every schedule: none is longer than the work
      counted beforehand, and a schedule has left the network at rest exactly when it is that long. */
  lemma EveryScheduleFinishes(promised: nat -> Result, setup: seq<Move>, moves: seq<Move>)
    requires Possible(promised, EMPTY, setup) && PromisesKept(Exec(promised, EMPTY, setup))
    requires Possible(promised, Exec(promised, EMPTY, setup), moves) && OnlySchedules(moves)
    ensures var s := Exec(promised, EMPTY, setup);
      && |moves| <= Work(promised, s)
      && (AtRest(Exec(promised, s, moves)) <==> |moves| == Work(promised, s))
  {
    var s := Exec(promised, EMPTY, setup);
    RunKeepsSound(promised, EMPTY, setup);
    EmptyLive();
    RunKeepsLive(promised, EMPTY, setup);
    SchedulesSpendWork(promised, s, moves);
    RunKeepsSound(promised, s, moves);
    RunKeepsLive(promised, s, moves);
    NoWorkIffAtRest(promised, Exec(promised, s, moves));
  }

  // ---------------------------------------------------------------------------------------------
  // Every step of every run
  // ---------------------------------------------------------------------------------------------

  /** The thread steps that a move of the outside world brings: the trigger of a completion, or all that an
      evaluated future will do. */
  ghost function Brought(promised: nat -> Result, s: State, m: Move): nat
    requires Enabled(promised, s, m)
  {
    match m
    case NewPromise => 0
    case NewFuture(f) => BuildWork(Denotations(promised, s.origins), f)
    case CompleteSource(c, _) => if s.cells[c].value.None? then 1 else 0
    case SetSource(_, _) => 0
    case Schedule(_) => 0
  }

  lemma NewPromiseWork(promised: nat -> Result, s: State)
    requires Sound(promised, s)
    ensures Work(promised, Step(promised, s, NewPromise)) == Work(promised, s)
  {
    NewPromiseSound(promised, s);
    GrownWork(promised, s, Construction(s.cells + [D.EmptyCell()], s.origins + [Source], [], 0));
  }

  lemma AddTaskWork(promised: nat -> Result, s: State, task: Task)
    ensures Work(promised, s.(tasks := s.tasks + [task])) == Work(promised, s) + TaskWork(Denotations(promised, s.origins))(task)
  {
    SumConcat(s.tasks, [task], TaskWork(Denotations(promised, s.origins)));
    SumOne(task, TaskWork(Denotations(promised, s.origins)));
  }

  /** A future evaluated now does the work counted over the cells that there are. */
  lemma ActionsWork(promised: nat -> Result, s: State, f: Future)
    requires Sound(promised, s) && Closed(|s.cells|, f)
    ensures var c := Build(s.cells, s.origins, |s.cells|, f);
      TaskWork(Denotations(promised, c.origins))(c.actions) == BuildWork(Denotations(promised, s.origins), f)
  {
    var c := Build(s.cells, s.origins, |s.cells|, f);
    var d := Denotations(promised, s.origins);
    BuildSound(promised, s.cells, s.origins, |s.cells|, f);
    BuildWorkPerformed(promised, s.cells, s.origins, |s.cells|, f);
    PrefixOfPrefix(d, Denotations(promised, c.origins), |s.cells|);
    assert d[..|s.cells|] == d;
  }

  lemma NewFutureWork(promised: nat -> Result, s: State, f: Future)
    requires Sound(promised, s) && Closed(|s.cells|, f)
    ensures Work(promised, Step(promised, s, NewFuture(f))) == Work(promised, s) + BuildWork(Denotations(promised, s.origins), f)
  {
    var c := Build(s.cells, s.origins, |s.cells|, f);
    BuildGrows(promised, s, |s.cells|, f);
    ActionsWork(promised, s, f);
    AddTaskWork(promised, WithCells(s, c), c.actions);
  }

  lemma CompletionWork(promised: nat -> Result, s: State, m: Move)
    requires Sound(promised, s) && Enabled(promised, s, m) && (m.CompleteSource? || m.SetSource?)
    ensures Work(promised, Step(promised, s, m)) == Work(promised, s) + Brought(promised, s, m)
  {
    if s.cells[m.cell].value.None? {
      var d, c := Denotations(promised, s.origins), D.Stored(s.cells[m.cell], m.result);
      SourceDenotation(promised, s.origins, m.cell);
      if m.SetSource? {
        DrainedWork(promised, s, m.cell, c);
      } else {
        CellsWorkUpdate(d, s.cells, m.cell, c);
        SumConcat(s.tasks, [[Trigger(m.cell)]], TaskWork(d));
        SumOne([Trigger(m.cell)], TaskWork(d));
        SumOne(Trigger(m.cell), ActionWork(d));
      }
    }
  }

  ghost function ScheduledSteps(moves: seq<Move>): nat {
    if |moves| == 0 then 0 else (if moves[0].Schedule? then 1 else 0) + ScheduledSteps(moves[1..])
  }

  ghost function AllBrought(promised: nat -> Result, s: State, moves: seq<Move>): nat
    requires Possible(promised, s, moves)
    decreases |moves|
  {
    if |moves| == 0 then 0
    else Brought(promised, s, moves[0]) + AllBrought(promised, Step(promised, s, moves[0]), moves[1..])
  }

  lemma StepWork(promised: nat -> Result, s: State, m: Move)
    requires Sound(promised, s) && Live(s) && Enabled(promised, s, m)
    ensures (if m.Schedule? then 1 else 0) + Work(promised, Step(promised, s, m)) == Work(promised, s) + Brought(promised, s, m)
  {
    if m.Schedule? {
      ScheduledStepTakesOneOff(promised, s, m.task);
    } else if m.NewPromise? {
      NewPromiseWork(promised, s);
    } else if m.NewFuture? {
      NewFutureWork(promised, s, m.future);
    } else {
      CompletionWork(promised, s, m);
    }
  }

  lemma {:induction false} StepsAreAccountedFor(promised: nat -> Result, s: State, moves: seq<Move>)
    requires Sound(promised, s) && Live(s) && Possible(promised, s, moves)
    ensures ScheduledSteps(moves) + Work(promised, Exec(promised, s, moves)) == Work(promised, s) + AllBrought(promised, s, moves)
    decreases |moves|
  {
    if |moves| > 0 {
      var s' := Step(promised, s, moves[0]);
      StepWork(promised, s, moves[0]);
      StepSound(promised, s, moves[0]);
      StepLive(promised, s, moves[0]);
      StepsAreAccountedFor(promised, s', moves[1..]);
    }
  }

  /** In every run, while promises and futures are still being made and completed, the thread steps taken and
      those still to take are exactly those that the completions and the futures have brought. Once all
      promises are kept, the network is at rest exactly when all of them have been taken. */
  lemma EveryStepIsAccountedFor(promised: nat -> Result, moves: seq<Move>)
    requires Possible(promised, EMPTY, moves)
    ensures ScheduledSteps(moves) + Work(promised, Exec(promised, EMPTY, moves)) == AllBrought(promised, EMPTY, moves)
    ensures PromisesKept(Exec(promised, EMPTY, moves)) ==>
              (AtRest(Exec(promised, EMPTY, moves)) <==> ScheduledSteps(moves) == AllBrought(promised, EMPTY, moves))
  {
    EmptyLive();
    StepsAreAccountedFor(promised, EMPTY, moves);
    RunKeepsSound(promised, EMPTY, moves);
    RunKeepsLive(promised, EMPTY, moves);
    if PromisesKept(Exec(promised, EMPTY, moves)) {
      NoWorkIffAtRest(promised, Exec(promised, EMPTY, moves));
    }
  }
}
