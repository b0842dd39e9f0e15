/**
 The futures that a collector waits for: cells that the outside world completes at any time, and callbacks,
 each known by the position it was registered for, on their way from a cell to a run.
 */
module Sources {
  import opened Outcomes
  import opened Deferral

  /** `owed` lists the cells whose `setResult` has stored and not yet triggered; `posted` are the runnables
      that no thread has taken yet. */
  datatype State<T> = State(cells: seq<Cell<T, nat>>, owed: seq<nat>, posted: seq<Dispatch<T, nat>>)

  /** Position `i` of the collector's vector is the future of cell `futures[i]`; `results[j]` is what the
      outside world offers first to cell `j`. */
  datatype Setting<T> = Setting(futures: seq<nat>, results: seq<Try<T>>) {
    ghost predicate Valid() {
      forall i :: 0 <= i < |futures| ==> futures[i] < |results|
    }

    /** The results by position. */
    ghost function ByPosition(): seq<Try<T>>
      requires Valid()
    {
      seq(|futures|, i requires 0 <= i < |futures| => results[futures[i]])
    }
  }

  function Begin<T>(w: Setting<T>): State<T> {
    State(seq(|w.results|, _ => EmptyCell()), [], [])
  }

  // ---------------------------------------------------------------------------------------------
  // What the outside world, a collector and the contexts do
  // ---------------------------------------------------------------------------------------------

  /** Replace cell `j` by `c` and run the trigger loop on it. */
  function Drained<T>(s: State<T>, j: nat, c: Cell<T, nat>): State<T>
    requires j < |s.cells|
  {
    s.(cells := s.cells[j := Triggered(c)], posted := s.posted + Posts(c))
  }

  function Register<T>(w: Setting<T>, s: State<T>, i: nat): State<T>
    requires i < |w.futures| && w.futures[i] < |s.cells|
  {
    Drained(s, w.futures[i], Queued(s.cells[w.futures[i]], i))
  }

  /** A thread takes the posted runnable `p`. */
  function Taken<T>(s: State<T>, p: nat): State<T>
    requires p < |s.posted|
  {
    s.(posted := s.posted[..p] + s.posted[p + 1..])
  }

  datatype Outside = StoreOnly(cell: nat) | TriggerOwed(p: nat) | StoreAtOnce(cell: nat)

  predicate Allowed<T>(s: State<T>, o: Outside) {
    if o.TriggerOwed? then o.p < |s.owed| && s.owed[o.p] < |s.cells| else o.cell < |s.cells|
  }

  function Moved<T>(w: Setting<T>, s: State<T>, o: Outside): State<T>
    requires Allowed(s, o) && |s.cells| == |w.results|
  {
    match o
    case StoreOnly(j) =>
      if s.cells[j].value.Some? then s
      else s.(cells := s.cells[j := Stored(s.cells[j], w.results[j])], owed := s.owed + [j])
    case TriggerOwed(p) =>
      Drained(s.(owed := s.owed[..p] + s.owed[p + 1..]), s.owed[p], s.cells[s.owed[p]])
    case StoreAtOnce(j) =>
      if s.cells[j].value.Some? then s else Drained(s, j, Stored(s.cells[j], w.results[j]))
  }

  // ---------------------------------------------------------------------------------------------
  // Callbacks are where they belong, with the right value
  // ---------------------------------------------------------------------------------------------

  ghost predicate CellSound<T>(w: Setting<T>, j: nat, c: Cell<T, nat>) {
    && j < |w.results|
    && (c.value.Some? ==> c.value.value == w.results[j])
    && forall i :: i in c.callbacks ==> i < |w.futures| && w.futures[i] == j
  }

  ghost predicate PostSound<T>(w: Setting<T>, d: Dispatch<T, nat>) {
    d.callback < |w.futures| && w.futures[d.callback] < |w.results| && d.argument == w.results[w.futures[d.callback]]
  }

  /** A set cell keeps no callbacks once nobody owes it a trigger. */
  ghost predicate Served<T>(s: State<T>, j: nat)
    requires j < |s.cells|
  {
    s.cells[j].value.Some? && s.cells[j].callbacks != [] ==> j in s.owed
  }

  ghost predicate Sound<T>(w: Setting<T>, s: State<T>) {
    && w.Valid() && |s.cells| == |w.results|
    && (forall j :: 0 <= j < |s.cells| ==> CellSound(w, j, s.cells[j]) && Served(s, j))
    && (forall d :: d in s.posted ==> PostSound(w, d))
    && (forall p :: 0 <= p < |s.owed| ==> s.owed[p] < |s.cells|)
  }

  lemma DrainedSound<T>(w: Setting<T>, s: State<T>, s': State<T>, j: nat, c: Cell<T, nat>)
    requires Sound(w, s) && j < |s.cells| && CellSound(w, j, c) && s' == Drained(s, j, c)
    ensures Sound(w, s')
  {
    forall d | d in Posts(c) ensures PostSound(w, d) {
      assert d.callback in c.callbacks;
    }
    forall k | 0 <= k < |s'.cells| ensures CellSound(w, k, s'.cells[k]) && Served(s', k) {
      assert CellSound(w, k, s.cells[k]) && Served(s, k);
    }
  }

  /** Dropping a trigger that is about to run: only its own cell depends on it. */
  lemma TriggerSound<T>(w: Setting<T>, s: State<T>, p: nat)
    requires Sound(w, s) && p < |s.owed| && s.owed[p] < |s.cells|
    ensures Sound(w, Moved(w, s, TriggerOwed(p)))
  {
    var j, s' := s.owed[p], Moved(w, s, TriggerOwed(p));
    assert CellSound(w, j, s.cells[j]);
    forall d | d in Posts(s.cells[j]) ensures PostSound(w, d) {
      assert d.callback in s.cells[j].callbacks;
    }
    forall k | 0 <= k < |s'.cells| ensures CellSound(w, k, s'.cells[k]) && Served(s', k) {
      assert CellSound(w, k, s.cells[k]) && Served(s, k);
      if k != j && k in s.owed {
        var q :| 0 <= q < |s.owed| && s.owed[q] == k;
        assert s'.owed[if q < p then q else q - 1] == k;
      }
    }
  }

  lemma StoreSound<T>(w: Setting<T>, s: State<T>, j: nat)
    requires Sound(w, s) && j < |s.cells|
    ensures Sound(w, Moved(w, s, StoreOnly(j)))
  {
    var s' := Moved(w, s, StoreOnly(j));
    forall k | 0 <= k < |s'.cells| ensures CellSound(w, k, s'.cells[k]) && Served(s', k) {
      assert CellSound(w, k, s.cells[k]) && Served(s, k);
    }
  }

  lemma MovedSound<T>(w: Setting<T>, s: State<T>, o: Outside)
    requires Sound(w, s) && Allowed(s, o)
    ensures Sound(w, Moved(w, s, o))
  {
    if o.StoreOnly? {
      StoreSound(w, s, o.cell);
    } else if o.TriggerOwed? {
      TriggerSound(w, s, o.p);
    } else if s.cells[o.cell].value.None? {
      assert CellSound(w, o.cell, s.cells[o.cell]);
      DrainedSound(w, s, Moved(w, s, o), o.cell, Stored(s.cells[o.cell], w.results[o.cell]));
    }
  }

  lemma RegisterSound<T>(w: Setting<T>, s: State<T>, i: nat)
    requires Sound(w, s) && i < |w.futures|
    ensures Sound(w, Register(w, s, i))
  {
    var j := w.futures[i];
    assert CellSound(w, j, s.cells[j]);
    DrainedSound(w, s, Register(w, s, i), j, Queued(s.cells[j], i));
  }

  lemma TakenSound<T>(w: Setting<T>, s: State<T>, p: nat)
    requires Sound(w, s) && p < |s.posted|
    ensures Sound(w, Taken(s, p)) && PostSound(w, s.posted[p])
  {
    forall k | 0 <= k < |s.cells| ensures Served(Taken(s, p), k) {
      assert Served(s, k);
    }
  }

  // ---------------------------------------------------------------------------------------------
  // No callback is lost or doubled
  // ---------------------------------------------------------------------------------------------

  function Times(xs: seq<nat>, i: nat): nat {
    multiset(xs)[i]
  }

  lemma TimesSnoc(xs: seq<nat>, x: nat, i: nat)
    ensures Times(xs + [x], i) == Times(xs, i) + if i == x then 1 else 0
  {
  }

  lemma TimesTwice(xs: seq<nat>, p: nat, q: nat)
    requires p < q < |xs| && xs[p] == xs[q]
    ensures Times(xs, xs[p]) >= 2
  {
    assert xs == xs[..q] + [xs[q]] + xs[q + 1..];
    assert xs[..q][p] in xs[..q];
  }

  /** How often the callback of position `i` is queued in the first `n` cells. */
  ghost function QueuedTimes<T>(cells: seq<Cell<T, nat>>, n: nat, i: nat): nat
    requires n <= |cells|
  {
    if n == 0 then 0 else QueuedTimes(cells, n - 1, i) + Times(cells[n - 1].callbacks, i)
  }

  ghost function PostedTimes<T>(ds: seq<Dispatch<T, nat>>, i: nat): nat {
    Times(CallbacksOf<T, nat>(ds), i)
  }

  lemma PostedConcat<T>(ds: seq<Dispatch<T, nat>>, es: seq<Dispatch<T, nat>>, i: nat)
    ensures PostedTimes(ds + es, i) == PostedTimes(ds, i) + PostedTimes(es, i)
  {
    var xs, ys := CallbacksOf<T, nat>(ds), CallbacksOf<T, nat>(es);
    CallbacksOfConcat<T, nat>(ds, es);
    assert CallbacksOf<T, nat>(ds + es) == xs + ys;
    assert multiset(xs + ys) == multiset(xs) + multiset(ys);
  }

  /** How often it is anywhere between its registration and its run. */
  ghost function Pending<T>(s: State<T>, i: nat): nat {
    QueuedTimes(s.cells, |s.cells|, i) + PostedTimes(s.posted, i)
  }

  lemma {:induction false} QueuedUpdate<T>(cells: seq<Cell<T, nat>>, j: nat, c: Cell<T, nat>, n: nat, i: nat)
    requires j < |cells| && n <= |cells|
    ensures QueuedTimes(cells[j := c], n, i) + (if j < n then Times(cells[j].callbacks, i) else 0)
            == QueuedTimes(cells, n, i) + (if j < n then Times(c.callbacks, i) else 0)
  {
    if n > 0 {
      QueuedUpdate(cells, j, c, n - 1, i);
    }
  }

  lemma DrainedPending<T>(s: State<T>, j: nat, c: Cell<T, nat>, i: nat)
    requires j < |s.cells|
    ensures Pending(Drained(s, j, c), i) + Times(s.cells[j].callbacks, i) == Pending(s, i) + Times(c.callbacks, i)
  {
    QueuedUpdate(s.cells, j, Triggered(c), |s.cells|, i);
    PostedConcat(s.posted, Posts(c), i);
    if c.value.Some? {
      CallbacksOfDispatches<T, nat>(c.value.value, c.callbacks);
      assert PostedTimes(Posts(c), i) == Times(c.callbacks, i);
    } else {
      assert CallbacksOf<T, nat>(Posts(c)) == [];
    }
  }

  /** The outside world neither adds nor takes callbacks. */
  lemma MovedPending<T>(w: Setting<T>, s: State<T>, o: Outside, i: nat)
    requires Allowed(s, o) && |s.cells| == |w.results|
    ensures Pending(Moved(w, s, o), i) == Pending(s, i)
  {
    match o
    case StoreOnly(j) => QueuedUpdate(s.cells, j, Stored(s.cells[j], w.results[j]), |s.cells|, i);
    case TriggerOwed(p) => DrainedPending(s.(owed := s.owed[..p] + s.owed[p + 1..]), s.owed[p], s.cells[s.owed[p]], i);
    case StoreAtOnce(j) => DrainedPending(s, j, Stored(s.cells[j], w.results[j]), i);
  }

  lemma RegisterPending<T>(w: Setting<T>, s: State<T>, k: nat, i: nat)
    requires k < |w.futures| && w.futures[k] < |s.cells|
    ensures Pending(Register(w, s, k), i) == Pending(s, i) + if i == k then 1 else 0
  {
    DrainedPending(s, w.futures[k], Queued(s.cells[w.futures[k]], k), i);
  }

  lemma TakenPending<T>(s: State<T>, p: nat, i: nat)
    requires p < |s.posted|
    ensures Pending(s, i) == Pending(Taken(s, p), i) + if i == s.posted[p].callback then 1 else 0
  {
    var before, d, after := s.posted[..p], s.posted[p], s.posted[p + 1..];
    assert s.posted == before + ([d] + after);
    PostedConcat(before, [d] + after, i);
    PostedConcat([d], after, i);
    PostedConcat(before, after, i);
    assert CallbacksOf<T, nat>([d]) == [d.callback];
  }

  /** A posted callback is pending. */
  lemma PostedIsPending<T>(s: State<T>, p: nat)
    requires p < |s.posted|
    ensures Pending(s, s.posted[p].callback) > 0
  {
    TakenPending(s, p, s.posted[p].callback);
  }

  lemma {:induction false} EmptyQueues<T>(cells: seq<Cell<T, nat>>, n: nat, i: nat)
    requires n <= |cells| && forall j :: 0 <= j < n ==> cells[j].callbacks == []
    ensures QueuedTimes(cells, n, i) == 0
  {
    if n > 0 {
      EmptyQueues(cells, n - 1, i);
    }
  }

  lemma BeginSound<T>(w: Setting<T>)
    requires w.Valid()
    ensures Sound(w, Begin(w)) && forall i: nat :: Pending(Begin(w), i) == 0
  {
    forall i: nat ensures Pending(Begin(w), i) == 0 {
      EmptyQueues(Begin(w).cells, |w.results|, i);
    }
  }

  /** No thread has anything left to do for the sources, and every future waited for has its result. */
  ghost predicate Settled<T>(w: Setting<T>, s: State<T>)
    requires w.Valid() && |s.cells| == |w.results|
  {
    && s.owed == [] && s.posted == []
    && forall i :: 0 <= i < |w.futures| ==> s.cells[w.futures[i]].value.Some?
  }

  /** Then no callback is left anywhere. */
  lemma SettledPending<T>(w: Setting<T>, s: State<T>, i: nat)
    requires Sound(w, s) && Settled(w, s)
    ensures Pending(s, i) == 0
  {
    forall j | 0 <= j < |s.cells| ensures s.cells[j].callbacks == [] {
      assert CellSound(w, j, s.cells[j]) && Served(s, j);
      assert |s.cells[j].callbacks| > 0 ==> s.cells[j].callbacks[0] in s.cells[j].callbacks;
    }
    EmptyQueues(s.cells, |s.cells|, i);
  }

  // ---------------------------------------------------------------------------------------------
  // How much the outside world can still do
  // ---------------------------------------------------------------------------------------------

  /** A move with an effect: a trigger that is owed, or the first completion of a cell. */
  predicate Effective<T>(s: State<T>, o: Outside) {
    Allowed(s, o) && (o.TriggerOwed? || s.cells[o.cell].value.None?)
  }

  ghost function Unset<T>(cells: seq<Cell<T, nat>>, n: nat): nat
    requires n <= |cells|
  {
    if n == 0 then 0 else Unset(cells, n - 1) + if cells[n - 1].value.None? then 1 else 0
  }

  /** Each cell can be completed and triggered, each owed trigger can run. */
  ghost function Left<T>(s: State<T>): nat {
    |s.owed| + 2 * Unset(s.cells, |s.cells|)
  }

  lemma {:induction false} UnsetUpdate<T>(cells: seq<Cell<T, nat>>, j: nat, c: Cell<T, nat>, n: nat)
    requires j < |cells| && n <= |cells|
    ensures Unset(cells[j := c], n) + (if j < n && cells[j].value.None? then 1 else 0)
            == Unset(cells, n) + (if j < n && c.value.None? then 1 else 0)
  {
    if n > 0 {
      UnsetUpdate(cells, j, c, n - 1);
    }
  }

  lemma MovedLeft<T>(w: Setting<T>, s: State<T>, o: Outside)
    requires Effective(s, o) && |s.cells| == |w.results|
    ensures Left(Moved(w, s, o)) < Left(s)
  {
    match o
    case StoreOnly(j) => UnsetUpdate(s.cells, j, Stored(s.cells[j], w.results[j]), |s.cells|);
    case TriggerOwed(p) => UnsetUpdate(s.cells, s.owed[p], Triggered(s.cells[s.owed[p]]), |s.cells|);
    case StoreAtOnce(j) => UnsetUpdate(s.cells, j, Triggered(Stored(s.cells[j], w.results[j])), |s.cells|);
  }

  lemma RegisterLeft<T>(w: Setting<T>, s: State<T>, i: nat)
    requires i < |w.futures| && w.futures[i] < |s.cells|
    ensures Left(Register(w, s, i)) == Left(s)
  {
    var j := w.futures[i];
    UnsetUpdate(s.cells, j, Triggered(Queued(s.cells[j], i)), |s.cells|);
  }

  lemma {:induction false} AllUnset<T>(cells: seq<Cell<T, nat>>, n: nat)
    requires n <= |cells|
    ensures Unset(cells, n) <= n
    ensures Unset(cells, n) == 0 <==> forall j :: 0 <= j < n ==> cells[j].value.Some?
  {
    if n > 0 {
      AllUnset(cells, n - 1);
    }
  }

  lemma BeginLeft<T>(w: Setting<T>)
    ensures Left(Begin(w)) <= 2 * |w.results|
  {
    AllUnset(Begin(w).cells, |w.results|);
  }

  /** Some effective move is left, or every cell is set and served. */
  lemma NextOutside<T>(w: Setting<T>, s: State<T>) returns (o: Option<Outside>)
    requires Sound(w, s)
    ensures o.Some? ==> Effective(s, o.value)
    ensures o.None? ==> s.owed == [] && forall j :: 0 <= j < |s.cells| ==> s.cells[j].value.Some?
  {
    if s.owed != [] {
      return Some(TriggerOwed(0));
    }
    if j: nat :| j < |s.cells| && s.cells[j].value.None? {
      return Some(StoreAtOnce(j));
    }
    return None;
  }

  /** Then a pending callback has been posted. */
  lemma PendingIsPosted<T>(w: Setting<T>, s: State<T>, i: nat) returns (p: nat)
    requires Sound(w, s) && s.owed == [] && (forall j :: 0 <= j < |s.cells| ==> s.cells[j].value.Some?)
    requires Pending(s, i) > 0
    ensures p < |s.posted| && s.posted[p].callback == i
  {
    forall j | 0 <= j < |s.cells| ensures s.cells[j].callbacks == [] {
      assert CellSound(w, j, s.cells[j]) && Served(s, j);
    }
    EmptyQueues(s.cells, |s.cells|, i);
    assert i in CallbacksOf<T, nat>(s.posted);
    p :| 0 <= p < |s.posted| && CallbacksOf<T, nat>(s.posted)[p] == i;
  }
}
