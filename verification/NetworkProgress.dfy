/**
 Progress of the network machine. Every unfinished cell is owed by exactly one closure, wherever that
 closure is: queued in a cell, posted, being registered, or about to store. So no callback is ever refused
 with ALREADY_COMPLETED, and a network at rest whose promises are kept has finished every cell.
 */
module NetworkProgress {
  import opened Outcomes
  import opened Network
  import opened NetworkSoundness
  import opened Tallies
  import D = Deferral

  // ---------------------------------------------------------------------------------------------
  // Who owes cell k
  // ---------------------------------------------------------------------------------------------

  ghost function CallbackOwes(k: nat): Callback -> nat {
    (cb: Callback) => if cb.target == k then 1 else 0
  }

  ghost function CellOwes(k: nat): Cell -> nat {
    (c: Cell) => Sum(c.callbacks, CallbackOwes(k))
  }

  ghost function ActionOwes(k: nat): Action -> nat {
    (a: Action) =>
      match a
      case Run(cb, _) => if cb.target == k then 1 else 0
      case Store(target, _) => if target == k then 1 else 0
      case Trigger(_) => 0
      case Register(_, cb) => if cb.target == k then 1 else 0
  }

  ghost function TaskOwes(k: nat): Task -> nat {
    (task: Task) => Sum(task, ActionOwes(k))
  }

  ghost function Owed(s: State, k: nat): nat {
    Sum(s.cells, CellOwes(k)) + Sum(s.tasks, TaskOwes(k))
  }

  ghost predicate Waiting(s: State, k: nat) {
    k < |s.cells| && k < |s.origins| && s.origins[k].Built? && s.cells[k].value.None?
  }

  ghost predicate Balanced(s: State) {
    forall k: nat :: Owed(s, k) == if Waiting(s, k) then 1 else 0
  }

  lemma {:induction false} DispatchesOwed(r: Result, callbacks: seq<Callback>, k: nat)
    ensures Sum(AsTasks(D.Dispatches(r, callbacks)), TaskOwes(k)) == Sum(callbacks, CallbackOwes(k))
  {
    if |callbacks| > 0 {
      var tasks := AsTasks(D.Dispatches(r, callbacks));
      assert tasks[1..] == AsTasks(D.Dispatches(r, callbacks[1..]));
      assert tasks[0] == [Run(callbacks[0], r)];
      SumOne(Run(callbacks[0], r), ActionOwes(k));
      DispatchesOwed(r, callbacks[1..], k);
    }
  }

  /** Running the trigger loop moves obligations from the cell to new tasks, and loses none. */
  lemma DrainedOwed(s: State, j: nat, c: Cell, k: nat)
    requires j < |s.cells|
    ensures Owed(Drained(s, j, c), k) + CellOwes(k)(s.cells[j]) == Owed(s, k) + CellOwes(k)(c)
  {
    SumUpdate(s.cells, j, D.Triggered(c), CellOwes(k));
    SumConcat(s.tasks, AsTasks(D.Posts(c)), TaskOwes(k));
    if c.value.Some? {
      DispatchesOwed(c.value.value, c.callbacks, k);
    } else {
      assert AsTasks(D.Posts(c)) == [];
    }
  }

  /** What the fresh cells of a construction look like: built, with no callback yet. */
  lemma {:induction false} BuildShape(cells: seq<Cell>, origins: seq<Origin>, base: nat, f: Future)
    requires |cells| == |origins|
    ensures var c := Build(cells, origins, base, f);
      && cells <= c.cells && origins <= c.origins && |c.cells| == |c.origins|
      && (forall k :: |cells| <= k < |c.cells| ==> c.origins[k].Built? && c.cells[k].callbacks == [])
      && (forall a :: a in c.actions ==> a.Register?)
    decreases f
  {
    if f.Then? {
      BuildShape(cells, origins, base, f.upstream);
    }
  }

  ghost predicate FreshlyUnset(cells: seq<Cell>, c: Construction, k: nat) {
    |cells| <= k < |c.cells| && c.cells[k].value.None?
  }

  /** A construction owes each of its unfinished fresh cells exactly once. */
  lemma {:induction false} BuildOwed(cells: seq<Cell>, origins: seq<Origin>, base: nat, f: Future, k: nat)
    requires |cells| == |origins|
    ensures var c := Build(cells, origins, base, f);
      && Sum(c.cells, CellOwes(k)) == Sum(cells, CellOwes(k))
      && TaskOwes(k)(c.actions) == if FreshlyUnset(cells, c, k) then 1 else 0
    decreases f
  {
    if f.Completed? {
      SumConcat(cells, [D.Stored(D.EmptyCell(), f.result)], CellOwes(k));
      SumOne(D.Stored(D.EmptyCell(), f.result), CellOwes(k));
    } else if f.Then? {
      var u := Build(cells, origins, base, f.upstream);
      BuildOwed(cells, origins, base, f.upstream, k);
      BuildShape(cells, origins, base, f.upstream);
      SumConcat(u.cells, [D.EmptyCell()], CellOwes(k));
      SumOne(D.EmptyCell(), CellOwes(k));
      var registration := Register(u.root, Callback(base, f.settle, f.follow, |u.cells|));
      SumConcat(u.actions, [registration], ActionOwes(k));
      SumOne(registration, ActionOwes(k));
    }
  }

  // ---------------------------------------------------------------------------------------------
  // Who will trigger
  // ---------------------------------------------------------------------------------------------

  /** A task that is about to store triggers right after. */
  ghost predicate StoresThenTriggers(task: Task) {
    forall p :: 0 <= p < |task| && task[p].Store? ==> p + 1 < |task| && task[p + 1] == Trigger(task[p].target)
  }

  ghost predicate AllStoresTrigger(tasks: seq<Task>) {
    forall i :: 0 <= i < |tasks| ==> StoresThenTriggers(tasks[i])
  }

  ghost predicate SomeTaskTriggers(tasks: seq<Task>, j: nat) {
    exists i :: 0 <= i < |tasks| && Trigger(j) in tasks[i]
  }

  /** A callback is stranded in a finished cell only while some thread still has to trigger that cell. */
  ghost predicate TriggersPending(s: State) {
    forall j :: 0 <= j < |s.cells| && s.cells[j].value.Some? && s.cells[j].callbacks != [] ==> SomeTaskTriggers(s.tasks, j)
  }

  ghost predicate Live(s: State) {
    |s.cells| == |s.origins| && Balanced(s) && TriggersPending(s) && AllStoresTrigger(s.tasks) && !s.aborted
  }

  lemma StoresThenTriggersConcat(task: Task, more: Task)
    requires StoresThenTriggers(task) && StoresThenTriggers(more)
    ensures StoresThenTriggers(task + more)
  {
    forall p | 0 <= p < |task + more| && (task + more)[p].Store?
      ensures p + 1 < |task + more| && (task + more)[p + 1] == Trigger((task + more)[p].target)
    {
      if p >= |task| {
        assert more[p - |task|].Store?;
      }
    }
  }

  lemma OnlyRegistrations(task: Task)
    requires forall a :: a in task ==> a.Register?
    ensures StoresThenTriggers(task)
  {
    assert forall p :: 0 <= p < |task| ==> task[p] in task;
  }

  lemma PoppedTask(task: Task)
    requires task != [] && StoresThenTriggers(task)
    ensures StoresThenTriggers(task[1..])
    ensures forall j :: Trigger(j) in task ==> task[0] == Trigger(j) || Trigger(j) in task[1..]
  {
  }

  /** If no task stops triggering `j`, some task still does. */
  lemma StillTriggers(tasks: seq<Task>, tasks': seq<Task>, j: nat)
    requires SomeTaskTriggers(tasks, j) && |tasks| <= |tasks'|
    requires forall i :: 0 <= i < |tasks| && Trigger(j) in tasks[i] ==> Trigger(j) in tasks'[i]
    ensures SomeTaskTriggers(tasks', j)
  {
    var w :| 0 <= w < |tasks| && Trigger(j) in tasks[w];
    assert Trigger(j) in tasks'[w];
  }

  /** A thread about to store finds the cell unset: nobody else can have completed it. */
  lemma StoreFindsCellUnset(s: State, i: nat)
    requires Balanced(s) && i < |s.tasks| && s.tasks[i] != [] && s.tasks[i][0].Store?
    ensures Waiting(s, s.tasks[i][0].target)
  {
    var k := s.tasks[i][0].target;
    SumContains(s.tasks, TaskOwes(k), i);
    SumContains(s.tasks[i], ActionOwes(k), 0);
  }

  // ---------------------------------------------------------------------------------------------
  // Every move keeps the balance
  // ---------------------------------------------------------------------------------------------

  lemma PopOwed(task: Task, k: nat)
    requires task != []
    ensures TaskOwes(k)(task) == ActionOwes(k)(task[0]) + TaskOwes(k)(task[1..])
  {
  }

  lemma FollowOwed(s: State, i: nat, k: nat)
    requires |s.cells| == |s.origins| && i < |s.tasks| && s.tasks[i] != [] && s.tasks[i][0].Run?
    requires s.tasks[i][0].argument in s.tasks[i][0].callback.follow
    ensures var s' := Perform(s, i);
      Owed(s', k) == Owed(s, k) + if |s.cells| <= k < |s'.cells| && s'.cells[k].value.None? then 1 else 0
  {
    var cb, argument, rest := s.tasks[i][0].callback, s.tasks[i][0].argument, s.tasks[i][1..];
    PopOwed(s.tasks[i], k);
    var c := Build(s.cells, s.origins, cb.base, cb.follow[argument]);
    BuildOwed(s.cells, s.origins, cb.base, cb.follow[argument], k);
    var forward := Register(c.root, Forward(cb));
    SumConcat(c.actions + [forward], rest, ActionOwes(k));
    SumConcat(c.actions, [forward], ActionOwes(k));
    SumOne(forward, ActionOwes(k));
    SumUpdate(s.tasks, i, c.actions + [forward] + rest, TaskOwes(k));
  }

  lemma SettleOwed(s: State, i: nat, k: nat)
    requires i < |s.tasks| && s.tasks[i] != [] && s.tasks[i][0].Run?
    requires s.tasks[i][0].argument !in s.tasks[i][0].callback.follow
    ensures Owed(Perform(s, i), k) == Owed(s, k)
  {
    var cb, argument, rest := s.tasks[i][0].callback, s.tasks[i][0].argument, s.tasks[i][1..];
    PopOwed(s.tasks[i], k);
    var finish := [Store(cb.target, cb.settle(argument)), Trigger(cb.target)];
    SumConcat(finish, rest, ActionOwes(k));
    PopOwed(finish, k);
    SumOne(finish[1], ActionOwes(k));
    assert finish[1..] == [finish[1]];
    SumUpdate(s.tasks, i, finish + rest, TaskOwes(k));
  }

  lemma StoreOwed(s: State, i: nat, k: nat)
    requires i < |s.tasks| && s.tasks[i] != [] && s.tasks[i][0].Store?
    requires s.tasks[i][0].target < |s.cells| && s.cells[s.tasks[i][0].target].value.None?
    ensures Owed(s, k) == Owed(Perform(s, i), k) + if k == s.tasks[i][0].target then 1 else 0
  {
    var target, r, rest := s.tasks[i][0].target, s.tasks[i][0].result, s.tasks[i][1..];
    PopOwed(s.tasks[i], k);
    SumUpdate(s.tasks, i, rest, TaskOwes(k));
    SumUpdate(s.cells, target, D.Stored(s.cells[target], r), CellOwes(k));
  }

  lemma TriggerOwed(s: State, i: nat, k: nat)
    requires i < |s.tasks| && s.tasks[i] != [] && s.tasks[i][0].Trigger?
    ensures Owed(Perform(s, i), k) == Owed(s, k)
  {
    var j, rest := s.tasks[i][0].cell, s.tasks[i][1..];
    if j < |s.cells| {
      PopOwed(s.tasks[i], k);
      SumUpdate(s.tasks, i, rest, TaskOwes(k));
      DrainedOwed(s.(tasks := s.tasks[i := rest]), j, s.cells[j], k);
    }
  }

  lemma RegisterOwed(s: State, i: nat, k: nat)
    requires i < |s.tasks| && s.tasks[i] != [] && s.tasks[i][0].Register?
    ensures Owed(Perform(s, i), k) == Owed(s, k)
  {
    var j, cb, rest := s.tasks[i][0].source, s.tasks[i][0].callback, s.tasks[i][1..];
    if j < |s.cells| {
      PopOwed(s.tasks[i], k);
      SumUpdate(s.tasks, i, rest, TaskOwes(k));
      SumConcat(s.cells[j].callbacks, [cb], CallbackOwes(k));
      SumOne(cb, CallbackOwes(k));
      DrainedOwed(s.(tasks := s.tasks[i := rest]), j, D.Queued(s.cells[j], cb), k);
    }
  }

  lemma PerformBalanced(s: State, i: nat)
    requires |s.cells| == |s.origins| && Balanced(s) && i < |s.tasks| && s.tasks[i] != []
    ensures Balanced(Perform(s, i)) && |Perform(s, i).cells| == |Perform(s, i).origins|
    ensures Perform(s, i).aborted == s.aborted
  {
    var a, s' := s.tasks[i][0], Perform(s, i);
    if a.Run? && a.argument in a.callback.follow {
      BuildShape(s.cells, s.origins, a.callback.base, a.callback.follow[a.argument]);
    } else if a.Store? {
      StoreFindsCellUnset(s, i);
    }
    forall k: nat ensures Owed(s', k) == if Waiting(s', k) then 1 else 0 {
      assert Owed(s, k) == if Waiting(s, k) then 1 else 0;
      if a.Run? {
        if a.argument in a.callback.follow {
          FollowOwed(s, i, k);
        } else {
          SettleOwed(s, i, k);
        }
      } else if a.Store? {
        StoreOwed(s, i, k);
      } else if a.Trigger? {
        TriggerOwed(s, i, k);
      } else {
        RegisterOwed(s, i, k);
      }
    }
  }

  lemma CompletionOwed(promised: nat -> Result, s: State, m: Move, k: nat)
    requires Enabled(promised, s, m) && (m.CompleteSource? || m.SetSource?)
    ensures Owed(Step(promised, s, m), k) == Owed(s, k)
  {
    if s.cells[m.cell].value.None? {
      var c := D.Stored(s.cells[m.cell], m.result);
      if m.CompleteSource? {
        SumUpdate(s.cells, m.cell, c, CellOwes(k));
        SumConcat(s.tasks, [[Trigger(m.cell)]], TaskOwes(k));
        SumOne([Trigger(m.cell)], TaskOwes(k));
        SumOne(Trigger(m.cell), ActionOwes(k));
      } else {
        DrainedOwed(s, m.cell, c, k);
      }
    }
  }

  lemma NewCellsOwed(promised: nat -> Result, s: State, m: Move, k: nat)
    requires |s.cells| == |s.origins| && Enabled(promised, s, m) && (m.NewPromise? || m.NewFuture?)
    ensures var s' := Step(promised, s, m);
      Owed(s', k) == Owed(s, k) + if m.NewFuture? && |s.cells| <= k < |s'.cells| && s'.cells[k].value.None? then 1 else 0
  {
    if m.NewPromise? {
      SumConcat(s.cells, [D.EmptyCell()], CellOwes(k));
      SumOne(D.EmptyCell(), CellOwes(k));
    } else {
      var c := Build(s.cells, s.origins, |s.cells|, m.future);
      BuildOwed(s.cells, s.origins, |s.cells|, m.future, k);
      SumConcat(s.tasks, [c.actions], TaskOwes(k));
      SumOne(c.actions, TaskOwes(k));
    }
  }

  lemma OutsideBalanced(promised: nat -> Result, s: State, m: Move)
    requires |s.cells| == |s.origins| && Balanced(s) && Enabled(promised, s, m) && !m.Schedule?
    ensures var s' := Step(promised, s, m); Balanced(s') && |s'.cells| == |s'.origins| && s'.aborted == s.aborted
  {
    var s' := Step(promised, s, m);
    if m.NewFuture? {
      BuildShape(s.cells, s.origins, |s.cells|, m.future);
    }
    forall k: nat ensures Owed(s', k) == if Waiting(s', k) then 1 else 0 {
      assert Owed(s, k) == if Waiting(s, k) then 1 else 0;
      if m.NewPromise? || m.NewFuture? {
        NewCellsOwed(promised, s, m, k);
      } else {
        CompletionOwed(promised, s, m, k);
      }
    }
  }

  // ---------------------------------------------------------------------------------------------
  // Every move keeps the triggers pending
  // ---------------------------------------------------------------------------------------------

  lemma RunPending(s: State, i: nat)
    requires |s.cells| == |s.origins| && TriggersPending(s) && AllStoresTrigger(s.tasks)
    requires i < |s.tasks| && s.tasks[i] != [] && s.tasks[i][0].Run?
    ensures TriggersPending(Perform(s, i)) && AllStoresTrigger(Perform(s, i).tasks)
  {
    var cb, argument, rest := s.tasks[i][0].callback, s.tasks[i][0].argument, s.tasks[i][1..];
    var s' := Perform(s, i);
    PoppedTask(s.tasks[i]);
    if argument in cb.follow {
      var c := Build(s.cells, s.origins, cb.base, cb.follow[argument]);
      BuildShape(s.cells, s.origins, cb.base, cb.follow[argument]);
      OnlyRegistrations(c.actions + [Register(c.root, Forward(cb))]);
      StoresThenTriggersConcat(c.actions + [Register(c.root, Forward(cb))], rest);
    } else {
      StoresThenTriggersConcat([Store(cb.target, cb.settle(argument)), Trigger(cb.target)], rest);
    }
    forall j | 0 <= j < |s'.cells| && s'.cells[j].value.Some? && s'.cells[j].callbacks != []
      ensures SomeTaskTriggers(s'.tasks, j)
    {
      StillTriggers(s.tasks, s'.tasks, j);
    }
  }

  lemma StorePending(s: State, i: nat)
    requires TriggersPending(s) && AllStoresTrigger(s.tasks)
    requires i < |s.tasks| && s.tasks[i] != [] && s.tasks[i][0].Store?
    requires s.tasks[i][0].target < |s.cells| && s.cells[s.tasks[i][0].target].value.None?
    ensures TriggersPending(Perform(s, i)) && AllStoresTrigger(Perform(s, i).tasks)
  {
    var k, s' := s.tasks[i][0].target, Perform(s, i);
    PoppedTask(s.tasks[i]);
    assert s'.tasks[i][0] == Trigger(k);
    forall j | 0 <= j < |s'.cells| && s'.cells[j].value.Some? && s'.cells[j].callbacks != []
      ensures SomeTaskTriggers(s'.tasks, j)
    {
      if j == k {
        assert Trigger(k) in s'.tasks[i];
      } else {
        StillTriggers(s.tasks, s'.tasks, j);
      }
    }
  }

  /** Draining cell `j` only adds runnables, and settles whatever was pending on `j` itself. */
  lemma DrainedPending(s: State, j: nat, c: Cell)
    requires j < |s.cells|
    requires AllStoresTrigger(s.tasks)
    requires forall k :: 0 <= k < |s.cells| && k != j && s.cells[k].value.Some? && s.cells[k].callbacks != []
                     ==> SomeTaskTriggers(s.tasks, k)
    ensures TriggersPending(Drained(s, j, c)) && AllStoresTrigger(Drained(s, j, c).tasks)
  {
    var s' := Drained(s, j, c);
    forall k | 0 <= k < |s'.cells| && s'.cells[k].value.Some? && s'.cells[k].callbacks != []
      ensures SomeTaskTriggers(s'.tasks, k)
    {
      assert k != j;
      StillTriggers(s.tasks, s'.tasks, k);
    }
  }

  lemma DrainingPending(s: State, i: nat)
    requires TriggersPending(s) && AllStoresTrigger(s.tasks)
    requires i < |s.tasks| && s.tasks[i] != [] && (s.tasks[i][0].Trigger? || s.tasks[i][0].Register?)
    ensures TriggersPending(Perform(s, i)) && AllStoresTrigger(Perform(s, i).tasks)
  {
    var a, rest := s.tasks[i][0], s.tasks[i][1..];
    var j := if a.Trigger? then a.cell else a.source;
    if j < |s.cells| {
      var c := if a.Trigger? then s.cells[j] else D.Queued(s.cells[j], a.callback);
      var popped := s.(tasks := s.tasks[i := rest]);
      PoppedTask(s.tasks[i]);
      forall k | 0 <= k < |s.cells| && k != j && s.cells[k].value.Some? && s.cells[k].callbacks != []
        ensures SomeTaskTriggers(popped.tasks, k)
      {
        StillTriggers(s.tasks, popped.tasks, k);
      }
      DrainedPending(popped, j, c);
    }
  }

  lemma OutsidePending(promised: nat -> Result, s: State, m: Move)
    requires |s.cells| == |s.origins| && TriggersPending(s) && AllStoresTrigger(s.tasks)
    requires Enabled(promised, s, m) && !m.Schedule?
    ensures var s' := Step(promised, s, m); TriggersPending(s') && AllStoresTrigger(s'.tasks)
  {
    var s' := Step(promised, s, m);
    if m.SetSource? {
      if s.cells[m.cell].value.None? {
        DrainedPending(s, m.cell, D.Stored(s.cells[m.cell], m.result));
      }
    } else {
      if m.NewFuture? {
        BuildShape(s.cells, s.origins, |s.cells|, m.future);
        OnlyRegistrations(Build(s.cells, s.origins, |s.cells|, m.future).actions);
      }
      forall j | 0 <= j < |s'.cells| && s'.cells[j].value.Some? && s'.cells[j].callbacks != []
        ensures SomeTaskTriggers(s'.tasks, j)
      {
        if m.CompleteSource? && j == m.cell && s.cells[j].value.None? {
          assert s'.tasks[|s.tasks|] == [Trigger(j)];
        } else {
          StillTriggers(s.tasks, s'.tasks, j);
        }
      }
    }
  }

  lemma StepLive(promised: nat -> Result, s: State, m: Move)
    requires Live(s) && Enabled(promised, s, m)
    ensures Live(Step(promised, s, m))
  {
    if m.Schedule? {
      PerformBalanced(s, m.task);
      if s.tasks[m.task][0].Run? {
        RunPending(s, m.task);
      } else if s.tasks[m.task][0].Store? {
        StoreFindsCellUnset(s, m.task);
        StorePending(s, m.task);
      } else {
        DrainingPending(s, m.task);
      }
    } else {
      OutsideBalanced(promised, s, m);
      OutsidePending(promised, s, m);
    }
  }

  lemma {:induction false} RunKeepsLive(promised: nat -> Result, s: State, moves: seq<Move>)
    requires Live(s) && Possible(promised, s, moves)
    ensures Live(Exec(promised, s, moves))
    decreases |moves|
  {
    if |moves| > 0 {
      StepLive(promised, s, moves[0]);
      RunKeepsLive(promised, Step(promised, s, moves[0]), moves[1..]);
    }
  }

  lemma EmptyLive()
    ensures Live(EMPTY)
  {
  }

  /** In no run is a combinator's callback refused with ALREADY_COMPLETED. */
  lemma NoCallbackIsRefused(promised: nat -> Result, moves: seq<Move>)
    requires Possible(promised, EMPTY, moves)
    ensures !Exec(promised, EMPTY, moves).aborted
  {
    EmptyLive();
    RunKeepsLive(promised, EMPTY, moves);
  }

  // ---------------------------------------------------------------------------------------------
  // At rest
  // ---------------------------------------------------------------------------------------------

  ghost predicate AtRest(s: State) {
    forall i :: 0 <= i < |s.tasks| ==> s.tasks[i] == []
  }

  ghost predicate PromisesKept(s: State) {
    forall k :: 0 <= k < |s.cells| && k < |s.origins| && s.origins[k].Source? ==> s.cells[k].value.Some?
  }

  ghost function BaseOf(o: Origin): nat {
    if o.Built? then o.base else 0
  }

  ghost function FutureOf(o: Origin): Future {
    if o.Built? then o.future else Handle(0)
  }

  /** At rest, an unfinished cell is owed by a callback queued in an unfinished cell that precedes it. */
  lemma UnsetWaitsOnUnset(promised: nat -> Result, s: State, k: nat) returns (j: nat)
    requires Sound(promised, s) && Live(s) && AtRest(s) && Waiting(s, k)
    ensures j < |s.cells| && s.cells[j].value.None? && Precedes(s.origins, j, k)
  {
    SumOfNothing(s.tasks, TaskOwes(k));
    assert Owed(s, k) == 1;
    j := SumFind(s.cells, CellOwes(k));
    var q := SumFind(s.cells[j].callbacks, CallbackOwes(k));
    assert CellSound(s.origins, Denotations(promised, s.origins), j, s.cells[j]);
    assert WaitSound(s.origins, Denotations(promised, s.origins), j, s.cells[j].callbacks[q]);
    assert !SomeTaskTriggers(s.tasks, j);
  }

  lemma {:induction false} SetAtRest(promised: nat -> Result, s: State, k: nat)
    requires Sound(promised, s) && Live(s) && AtRest(s) && PromisesKept(s)
    requires k < |s.cells|
    ensures s.cells[k].value.Some?
    decreases BaseOf(s.origins[k]), FutureOf(s.origins[k])
  {
    if Waiting(s, k) {
      var j := UnsetWaitsOnUnset(promised, s, k);
      SetAtRest(promised, s, j);
    }
  }

  /** A network at rest whose promises are kept has finished, and every cell holds its denotation. */
  lemma RestIsCompletion(promised: nat -> Result, moves: seq<Move>)
    requires Possible(promised, EMPTY, moves)
    requires AtRest(Exec(promised, EMPTY, moves)) && PromisesKept(Exec(promised, EMPTY, moves))
    ensures var s := Exec(promised, EMPTY, moves);
      var d := Denotations(promised, s.origins);
      |s.cells| == |d| && forall k :: 0 <= k < |d| ==> s.cells[k].value == Some(d[k])
  {
    var s := Exec(promised, EMPTY, moves);
    RunKeepsSound(promised, EMPTY, moves);
    EmptyLive();
    RunKeepsLive(promised, EMPTY, moves);
    var d := Denotations(promised, s.origins);
    forall k | 0 <= k < |d| ensures s.cells[k].value == Some(d[k]) {
      SetAtRest(promised, s, k);
      assert CellSound(s.origins, d, k, s.cells[k]);
    }
  }
}
