/**
 Soundness of the network machine: under any schedule, whatever a cell holds, or a thread is about to
 put into it, is the denotation of the future it was created for.
 */
module NetworkSoundness {
  import opened Network
  import D = Deferral

  ghost predicate WellBuilt(origins: seq<Origin>) {
    forall k :: 0 <= k < |origins| && origins[k].Built? ==> origins[k].base <= k && Closed(origins[k].base, origins[k].future)
  }

  /** A callback belongs to the built cell it completes, and follows only parts of that cell's future. */
  ghost predicate Bound(origins: seq<Origin>, cb: Callback) {
    && cb.target < |origins|
    && origins[cb.target].Built?
    && origins[cb.target].base == cb.base
    && forall t :: t in cb.follow ==> Closed(cb.base, cb.follow[t]) && cb.follow[t] < origins[cb.target].future
  }

  /** Cell `j` comes before the built cell `k` in the order in which results become available. */
  ghost predicate Precedes(origins: seq<Origin>, j: nat, k: nat)
    requires k < |origins| && origins[k].Built?
  {
    && j < |origins|
    && (origins[j].Built? ==>
          || origins[j].base < origins[k].base
          || (origins[j].base == origins[k].base && origins[j].future < origins[k].future))
  }

  /** Run on `argument`, the callback gives its cell the cell's denotation. */
  ghost predicate Yields(d: seq<Result>, cb: Callback, argument: Result) {
    && cb.base <= cb.target < |d|
    && d[cb.target] == if argument in cb.follow then Denote(d[..cb.base], cb.follow[argument]) else cb.settle(argument)
  }

  ghost predicate WaitSound(origins: seq<Origin>, d: seq<Result>, j: nat, cb: Callback) {
    Bound(origins, cb) && Precedes(origins, j, cb.target) && j < |d| && Yields(d, cb, d[j])
  }

  ghost predicate CellSound(origins: seq<Origin>, d: seq<Result>, j: nat, c: Cell) {
    && j < |d|
    && (c.value.Some? ==> c.value.value == d[j])
    && forall cb :: cb in c.callbacks ==> WaitSound(origins, d, j, cb)
  }

  ghost predicate ActionSound(origins: seq<Origin>, d: seq<Result>, a: Action) {
    match a
    case Run(cb, argument) => Bound(origins, cb) && Yields(d, cb, argument)
    case Store(k, r) => k < |origins| && origins[k].Built? && k < |d| && r == d[k]
    case Trigger(k) => k < |origins|
    case Register(j, cb) => WaitSound(origins, d, j, cb)
  }

  ghost predicate TaskSound(origins: seq<Origin>, d: seq<Result>, task: Task) {
    forall a :: a in task ==> ActionSound(origins, d, a)
  }

  ghost predicate CellsSound(origins: seq<Origin>, d: seq<Result>, cells: seq<Cell>) {
    |cells| == |origins| == |d| && forall j :: 0 <= j < |cells| ==> CellSound(origins, d, j, cells[j])
  }

  ghost predicate Sound(promised: nat -> Result, s: State) {
    var d := Denotations(promised, s.origins);
    && WellBuilt(s.origins)
    && CellsSound(s.origins, d, s.cells)
    && forall i :: 0 <= i < |s.tasks| ==> TaskSound(s.origins, d, s.tasks[i])
  }

  lemma PrefixOfPrefix(d: seq<Result>, d': seq<Result>, base: nat)
    requires d <= d' && base <= |d|
    ensures d'[..base] == d[..base]
  {
  }

  /** Soundness survives the creation of cells. */
  lemma WaitSoundGrows(origins: seq<Origin>, d: seq<Result>, origins': seq<Origin>, d': seq<Result>, j: nat, cb: Callback)
    requires origins <= origins' && d <= d' && |origins| == |d| && |origins'| == |d'|
    requires WaitSound(origins, d, j, cb)
    ensures WaitSound(origins', d', j, cb)
  {
    PrefixOfPrefix(d, d', cb.base);
  }

  lemma CellSoundGrows(origins: seq<Origin>, d: seq<Result>, origins': seq<Origin>, d': seq<Result>, j: nat, c: Cell)
    requires origins <= origins' && d <= d' && |origins| == |d| && |origins'| == |d'|
    requires CellSound(origins, d, j, c)
    ensures CellSound(origins', d', j, c)
  {
    forall cb | cb in c.callbacks ensures WaitSound(origins', d', j, cb) {
      WaitSoundGrows(origins, d, origins', d', j, cb);
    }
  }

  lemma TaskSoundGrows(origins: seq<Origin>, d: seq<Result>, origins': seq<Origin>, d': seq<Result>, task: Task)
    requires origins <= origins' && d <= d' && |origins| == |d| && |origins'| == |d'|
    requires TaskSound(origins, d, task)
    ensures TaskSound(origins', d', task)
  {
    forall a | a in task ensures ActionSound(origins', d', a) {
      match a
      case Run(cb, argument) => PrefixOfPrefix(d, d', cb.base);
      case Store(_, _) =>
      case Trigger(_) =>
      case Register(j, cb) => WaitSoundGrows(origins, d, origins', d', j, cb);
    }
  }

  lemma TaskSoundConcat(origins: seq<Origin>, d: seq<Result>, task: Task, more: Task)
    requires TaskSound(origins, d, task) && TaskSound(origins, d, more)
    ensures TaskSound(origins, d, task + more)
  {
  }

  /** The root of a freshly built future is that future, or an older cell. */
  ghost predicate RootOf(origins: seq<Origin>, root: nat, base: nat, f: Future) {
    && root < |origins|
    && (origins[root].Built? ==> origins[root].base < base || (origins[root].base == base && origins[root].future == f))
  }

  /** Adding a cell with no callbacks keeps the whole network sound. */
  lemma GrowSound(promised: nat -> Result, cells: seq<Cell>, origins: seq<Origin>, c: Cell, o: Origin)
    requires WellBuilt(origins) && CellsSound(origins, Denotations(promised, origins), cells)
    requires o.Built? ==> o.base <= |cells| && Closed(o.base, o.future)
    requires c.callbacks == []
    requires c.value.Some? ==> o.Built? && c.value.value == Denote(Denotations(promised, origins)[..o.base], o.future)
    ensures var d, d' := Denotations(promised, origins), Denotations(promised, origins + [o]);
      && d' == d + [if o.Built? then Denote(d[..o.base], o.future) else promised(|d|)]
      && WellBuilt(origins + [o]) && CellsSound(origins + [o], d', cells + [c])
  {
    var d, d' := Denotations(promised, origins), Denotations(promised, origins + [o]);
    assert (origins + [o])[..|origins|] == origins;
    forall j | 0 <= j < |cells| ensures CellSound(origins + [o], d', j, cells[j]) {
      CellSoundGrows(origins, d, origins + [o], d', j, cells[j]);
    }
  }

  /** What a construction for `f` guarantees. */
  ghost predicate Constructed(promised: nat -> Result, c: Construction, base: nat, f: Future) {
    var d := Denotations(promised, c.origins);
    && base <= |c.cells|
    && WellBuilt(c.origins) && CellsSound(c.origins, d, c.cells) && TaskSound(c.origins, d, c.actions)
    && RootOf(c.origins, c.root, base, f)
    && d[c.root] == Denote(d[..base], f)
  }

  lemma AttachSound(promised: nat -> Result, c: Construction, base: nat, f: Future)
    requires f.Then? && Closed(base, f) && Constructed(promised, c, base, f.upstream)
    ensures Constructed(promised, Attach(c, base, f), base, f)
    ensures Denotations(promised, c.origins) <= Denotations(promised, Attach(c, base, f).origins)
  {
    var c' := Attach(c, base, f);
    var d, d' := Denotations(promised, c.origins), Denotations(promised, c'.origins);
    GrowSound(promised, c.cells, c.origins, D.EmptyCell(), Built(base, f));
    PrefixOfPrefix(d, d', base);
    var cb := Callback(base, f.settle, f.follow, |c.cells|);
    assert WaitSound(c'.origins, d', c.root, cb);
    TaskSoundGrows(c.origins, d, c'.origins, d', c.actions);
    TaskSoundConcat(c'.origins, d', c.actions, [Register(c.root, cb)]);
  }

  lemma LeafSound(promised: nat -> Result, cells: seq<Cell>, origins: seq<Origin>, base: nat, f: Future)
    requires !f.Then? && base <= |cells| && Closed(base, f)
    requires WellBuilt(origins) && CellsSound(origins, Denotations(promised, origins), cells)
    ensures var c := Build(cells, origins, base, f);
      && cells <= c.cells && origins <= c.origins
      && Denotations(promised, origins) <= Denotations(promised, c.origins)
      && Constructed(promised, c, base, f)
  {
    if f.Completed? {
      GrowSound(promised, cells, origins, D.Stored(D.EmptyCell(), f.result), Built(base, f));
    }
  }

  lemma {:induction false} BuildSound(promised: nat -> Result, cells: seq<Cell>, origins: seq<Origin>, base: nat, f: Future)
    requires base <= |cells| && Closed(base, f)
    requires WellBuilt(origins) && CellsSound(origins, Denotations(promised, origins), cells)
    ensures var c := Build(cells, origins, base, f);
      && cells <= c.cells && origins <= c.origins
      && Denotations(promised, origins) <= Denotations(promised, c.origins)
      && Constructed(promised, c, base, f)
    decreases f
  {
    if f.Then? {
      BuildSound(promised, cells, origins, base, f.upstream);
      AttachSound(promised, Build(cells, origins, base, f.upstream), base, f);
    } else {
      LeafSound(promised, cells, origins, base, f);
    }
  }

  // ---------------------------------------------------------------------------------------------
  // Every move keeps the network sound
  // ---------------------------------------------------------------------------------------------

  /** Thread `i` replaces what it has left to do. */
  lemma ReplaceTaskSound(promised: nat -> Result, s: State, i: nat, task: Task)
    requires Sound(promised, s) && i < |s.tasks|
    requires TaskSound(s.origins, Denotations(promised, s.origins), task)
    ensures Sound(promised, s.(tasks := s.tasks[i := task]))
  {
  }

  lemma AddTaskSound(promised: nat -> Result, s: State, task: Task)
    requires Sound(promised, s) && TaskSound(s.origins, Denotations(promised, s.origins), task)
    ensures Sound(promised, s.(tasks := s.tasks + [task]))
  {
  }

  /** New cells do not disturb what the threads have left to do. */
  lemma GrownSound(promised: nat -> Result, s: State, s': State)
    requires Sound(promised, s) && s'.tasks == s.tasks && s.origins <= s'.origins
    requires Denotations(promised, s.origins) <= Denotations(promised, s'.origins)
    requires WellBuilt(s'.origins) && CellsSound(s'.origins, Denotations(promised, s'.origins), s'.cells)
    ensures Sound(promised, s')
  {
    forall k | 0 <= k < |s.tasks| ensures TaskSound(s'.origins, Denotations(promised, s'.origins), s.tasks[k]) {
      TaskSoundGrows(s.origins, Denotations(promised, s.origins), s'.origins, Denotations(promised, s'.origins), s.tasks[k]);
    }
  }

  lemma ReplaceCellSound(promised: nat -> Result, s: State, j: nat, c: Cell)
    requires Sound(promised, s) && j < |s.cells|
    requires CellSound(s.origins, Denotations(promised, s.origins), j, c)
    ensures Sound(promised, s.(cells := s.cells[j := c]))
  {
  }

  lemma DrainedSound(promised: nat -> Result, s: State, j: nat, c: Cell)
    requires Sound(promised, s) && j < |s.cells|
    requires CellSound(s.origins, Denotations(promised, s.origins), j, c)
    ensures Sound(promised, Drained(s, j, c))
  {
    var d := Denotations(promised, s.origins);
    ReplaceCellSound(promised, s, j, D.Triggered(c));
    var posts := D.Posts(c);
    forall p | 0 <= p < |posts| ensures TaskSound(s.origins, d, AsTasks(posts)[p]) {
      assert posts[p].callback in c.callbacks && posts[p].argument == d[j];
      assert WaitSound(s.origins, d, j, posts[p].callback);
    }
  }

  /** The state after a run whose callback goes on with another future. */
  lemma FollowSound(promised: nat -> Result, s: State, i: nat)
    requires Sound(promised, s) && i < |s.tasks| && s.tasks[i] != [] && s.tasks[i][0].Run?
    requires s.tasks[i][0].argument in s.tasks[i][0].callback.follow
    ensures Sound(promised, Perform(s, i)) && s.origins <= Perform(s, i).origins
    ensures Denotations(promised, s.origins) <= Denotations(promised, Perform(s, i).origins)
  {
    var d := Denotations(promised, s.origins);
    var cb, argument, rest := s.tasks[i][0].callback, s.tasks[i][0].argument, s.tasks[i][1..];
    assert ActionSound(s.origins, d, s.tasks[i][0]);
    assert TaskSound(s.origins, d, rest);
    var f := cb.follow[argument];
    BuildSound(promised, s.cells, s.origins, cb.base, f);
    var c := Build(s.cells, s.origins, cb.base, f);
    var d' := Denotations(promised, c.origins);
    PrefixOfPrefix(d, d', cb.base);
    var grown := State(c.cells, c.origins, s.tasks, s.aborted);
    GrownSound(promised, s, grown);
    TaskSoundGrows(s.origins, d, c.origins, d', rest);
    var forward := Register(c.root, Forward(cb));
    assert WaitSound(c.origins, d', c.root, Forward(cb));
    TaskSoundConcat(c.origins, d', c.actions, [forward]);
    TaskSoundConcat(c.origins, d', c.actions + [forward], rest);
    ReplaceTaskSound(promised, grown, i, c.actions + [forward] + rest);
  }

  lemma SettleSound(promised: nat -> Result, s: State, i: nat)
    requires Sound(promised, s) && i < |s.tasks| && s.tasks[i] != [] && s.tasks[i][0].Run?
    requires s.tasks[i][0].argument !in s.tasks[i][0].callback.follow
    ensures Sound(promised, Perform(s, i)) && Perform(s, i).origins == s.origins
  {
    var d := Denotations(promised, s.origins);
    var cb, argument, rest := s.tasks[i][0].callback, s.tasks[i][0].argument, s.tasks[i][1..];
    assert ActionSound(s.origins, d, s.tasks[i][0]);
    assert TaskSound(s.origins, d, rest);
    var finish := [Store(cb.target, cb.settle(argument)), Trigger(cb.target)];
    assert TaskSound(s.origins, d, finish);
    TaskSoundConcat(s.origins, d, finish, rest);
    ReplaceTaskSound(promised, s, i, finish + rest);
  }

  lemma PerformSound(promised: nat -> Result, s: State, i: nat)
    requires Sound(promised, s) && i < |s.tasks| && s.tasks[i] != []
    ensures Sound(promised, Perform(s, i)) && s.origins <= Perform(s, i).origins
    ensures Denotations(promised, s.origins) <= Denotations(promised, Perform(s, i).origins)
  {
    var d := Denotations(promised, s.origins);
    var a, rest := s.tasks[i][0], s.tasks[i][1..];
    assert ActionSound(s.origins, d, a);
    assert TaskSound(s.origins, d, rest) && TaskSound(s.origins, d, []);
    ReplaceTaskSound(promised, s, i, rest);
    ReplaceTaskSound(promised, s, i, []);
    var popped := s.(tasks := s.tasks[i := rest]);
    if a.Run? {
      if a.argument in a.callback.follow {
        FollowSound(promised, s, i);
      } else {
        SettleSound(promised, s, i);
      }
    } else if a.Store? {
      if a.target < |s.cells| && s.cells[a.target].value.None? {
        ReplaceCellSound(promised, popped, a.target, D.Stored(s.cells[a.target], a.result));
      }
    } else if a.Trigger? {
      DrainedSound(promised, popped, a.cell, s.cells[a.cell]);
    } else {
      DrainedSound(promised, popped, a.source, D.Queued(s.cells[a.source], a.callback));
    }
  }

  lemma NewPromiseSound(promised: nat -> Result, s: State)
    requires Sound(promised, s)
    ensures var s' := Step(promised, s, NewPromise);
      Sound(promised, s') && s.origins <= s'.origins && Denotations(promised, s.origins) <= Denotations(promised, s'.origins)
  {
    GrowSound(promised, s.cells, s.origins, D.EmptyCell(), Source);
    GrownSound(promised, s, Step(promised, s, NewPromise));
  }

  lemma NewFutureSound(promised: nat -> Result, s: State, f: Future)
    requires Sound(promised, s) && Closed(|s.cells|, f)
    ensures var s' := Step(promised, s, NewFuture(f));
      Sound(promised, s') && s.origins <= s'.origins && Denotations(promised, s.origins) <= Denotations(promised, s'.origins)
  {
    BuildSound(promised, s.cells, s.origins, |s.cells|, f);
    var c := Build(s.cells, s.origins, |s.cells|, f);
    var grown := State(c.cells, c.origins, s.tasks, s.aborted);
    GrownSound(promised, s, grown);
    AddTaskSound(promised, grown, c.actions);
  }

  lemma CompletionSound(promised: nat -> Result, s: State, m: Move)
    requires Sound(promised, s) && Enabled(promised, s, m) && (m.CompleteSource? || m.SetSource?)
    ensures Sound(promised, Step(promised, s, m))
  {
    if s.cells[m.cell].value.None? {
      SourceDenotation(promised, s.origins, m.cell);
      var c := D.Stored(s.cells[m.cell], m.result);
      assert CellSound(s.origins, Denotations(promised, s.origins), m.cell, s.cells[m.cell]);
      if m.CompleteSource? {
        ReplaceCellSound(promised, s, m.cell, c);
      } else {
        DrainedSound(promised, s, m.cell, c);
      }
    }
  }

  lemma StepSound(promised: nat -> Result, s: State, m: Move)
    requires Sound(promised, s) && Enabled(promised, s, m)
    ensures Sound(promised, Step(promised, s, m)) && s.origins <= Step(promised, s, m).origins
    ensures Denotations(promised, s.origins) <= Denotations(promised, Step(promised, s, m).origins)
  {
    if m.Schedule? {
      PerformSound(promised, s, m.task);
    } else if m.NewPromise? {
      NewPromiseSound(promised, s);
    } else if m.NewFuture? {
      NewFutureSound(promised, s, m.future);
    } else {
      CompletionSound(promised, s, m);
    }
  }

  lemma {:induction false} SourceDenotation(promised: nat -> Result, origins: seq<Origin>, k: nat)
    requires k < |origins| && origins[k].Source?
    ensures Denotations(promised, origins)[k] == promised(k)
  {
    var n := |origins| - 1;
    if k < n {
      SourceDenotation(promised, origins[..n], k);
    }
  }

  lemma {:induction false} BuiltDenotation(promised: nat -> Result, origins: seq<Origin>, k: nat)
    requires WellBuilt(origins) && k < |origins| && origins[k].Built?
    ensures var d := Denotations(promised, origins);
      origins[k].base <= k && d[k] == Denote(d[..origins[k].base], origins[k].future)
  {
    var n := |origins| - 1;
    var d, d' := Denotations(promised, origins[..n]), Denotations(promised, origins);
    if k < n {
      BuiltDenotation(promised, origins[..n], k);
    }
    PrefixOfPrefix(d, d', origins[k].base);
  }

  lemma {:induction false} RunKeepsSound(promised: nat -> Result, s: State, moves: seq<Move>)
    requires Sound(promised, s) && Possible(promised, s, moves)
    ensures Sound(promised, Exec(promised, s, moves)) && s.origins <= Exec(promised, s, moves).origins
    ensures Denotations(promised, s.origins) <= Denotations(promised, Exec(promised, s, moves).origins)
    decreases |moves|
  {
    if |moves| > 0 {
      StepSound(promised, s, moves[0]);
      RunKeepsSound(promised, Step(promised, s, moves[0]), moves[1..]);
    }
  }

  /** Every value that any schedule ever puts into a cell is the one the pure evaluator computes from the
      results promised by the outside world. */
  lemma ValuesAreDenotations(promised: nat -> Result, moves: seq<Move>, k: nat)
    requires Possible(promised, EMPTY, moves)
    requires var s := Exec(promised, EMPTY, moves); k < |s.cells| && s.cells[k].value.Some?
    ensures var s := Exec(promised, EMPTY, moves);
      k < |s.origins| && s.cells[k].value.value == Denotations(promised, s.origins)[k]
  {
    RunKeepsSound(promised, EMPTY, moves);
    assert CellSound(Exec(promised, EMPTY, moves).origins, Denotations(promised, Exec(promised, EMPTY, moves).origins), k,
                     Exec(promised, EMPTY, moves).cells[k]);
  }

  /** Schedule independence: from any reachable network, two schedules that differ in every choice give
      each cell of that network the same result, if they both give it one. */
  lemma SchedulesAgree(promised: nat -> Result, setup: seq<Move>, left: seq<Move>, right: seq<Move>, k: nat)
    requires Possible(promised, EMPTY, setup)
    requires var s := Exec(promised, EMPTY, setup);
      k < |s.cells| && Possible(promised, s, left) && Possible(promised, s, right)
    requires var s := Exec(promised, EMPTY, setup);
      var l, r := Exec(promised, s, left), Exec(promised, s, right);
      k < |l.cells| && k < |r.cells| && l.cells[k].value.Some? && r.cells[k].value.Some?
    ensures var s := Exec(promised, EMPTY, setup);
      Exec(promised, s, left).cells[k].value == Exec(promised, s, right).cells[k].value
  {
    var s := Exec(promised, EMPTY, setup);
    RunKeepsSound(promised, EMPTY, setup);
    RunKeepsSound(promised, s, left);
    RunKeepsSound(promised, s, right);
    var l, r := Exec(promised, s, left), Exec(promised, s, right);
    assert CellSound(l.origins, Denotations(promised, l.origins), k, l.cells[k]);
    assert CellSound(r.origins, Denotations(promised, r.origins), k, r.cells[k]);
  }
}
