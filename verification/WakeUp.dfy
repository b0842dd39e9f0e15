/**
 The bridge from callbacks to a waiting thread: a result and an error under one lock, and a waiter on a
 condition variable whose predicate is "there is an error or a result".
 */
module WakeUp {
  import opened Outcomes

  /** What a callback does under the lock: record an error, assign the result (which may be a null pointer,
      `None`), or nothing. Recording and assigning notify the waiter. */
  datatype Signal<+T> = Fail(error: string) | Give(result: Option<T>) | Ignore

  /** Events as the event receiver sees them. */
  datatype EventCode =
    | SYNCHRONIZATION_FAILED
    | SYNCHRONIZATION_SUCCEED
    | SYNCHRONIZATION_SUCCEED_ON_PREVIOUSLY_EMPTY_ACCOUNT
    | OTHER_EVENT

  function SignalOf(code: EventCode): Signal<()> {
    match code
    case SYNCHRONIZATION_FAILED => Fail("Synchronization failed")
    case SYNCHRONIZATION_SUCCEED => Give(Some(()))
    case SYNCHRONIZATION_SUCCEED_ON_PREVIOUSLY_EMPTY_ACCOUNT => Give(Some(()))
    case OTHER_EVENT => Ignore
  }

  /** The waiter before taking the lock, blocked, notified, or finished. */
  datatype Phase<+T> = Entering | Blocked | Notified | Returned(value: T) | Thrown(message: string)

  datatype State<+T> = State(error: Option<string>, result: Option<T>, phase: Phase<T>)

  function Begin<T>(): State<T> {
    State(None, None, Entering)
  }

  function Notify<T>(s: State<T>): State<T> {
    if s.phase.Blocked? then s.(phase := Notified) else s
  }

  function Signalled<T>(s: State<T>, signal: Signal<T>): State<T> {
    match signal
    case Fail(e) => Notify(s.(error := Some(e)))
    case Give(r) => Notify(s.(result := r))
    case Ignore => s
  }

  predicate Finished<T>(s: State<T>) {
    s.phase.Returned? || s.phase.Thrown?
  }

  /** The waiter holds the lock: it leaves with the result, else with the error, else it blocks. */
  function Checked<T>(s: State<T>): State<T> {
    if s.result.Some? then s.(phase := Returned(s.result.value))
    else if s.error.Some? then s.(phase := Thrown(s.error.value))
    else s.(phase := Blocked)
  }

  // ---------------------------------------------------------------------------------------------
  // The monitor in place
  // ---------------------------------------------------------------------------------------------

  class Monitor<T> {
    var error: Option<string>
    var result: Option<T>
    var phase: Phase<T>

    ghost function View(): State<T>
      reads this
    {
      State(error, result, phase)
    }

    constructor ()
      ensures View() == Begin()
    {
      error, result, phase := None, None, Entering;
    }

    method NotifyAll()
      modifies this`phase
      ensures View() == Notify(old(View()))
    {
      if phase.Blocked? {
        phase := Notified;
      }
    }

    method OnCallback(value: Option<T>, failure: Option<string>)
      modifies this
      ensures View() == Signalled(old(View()), if failure.Some? then Fail(failure.value) else Give(value))
      ensures failure.Some? ==> error == failure && result == old(result)
      ensures failure.None? ==> result == value && error == old(error)
      ensures phase == if old(phase).Blocked? then Notified else old(phase)
    {
      if failure.Some? {
        error := failure;
      } else {
        result := value;
      }
      NotifyAll();
    }

    /** One evaluation of the predicate by the waiter. */
    method Check()
      requires phase.Entering? || phase.Notified?
      modifies this`phase
      ensures View() == Checked(old(View()))
    {
      if !(error.Some? || result.Some?) {
        phase := Blocked;
      } else if result.Some? {
        phase := Returned(result.value);
      } else {
        phase := Thrown(error.value);
      }
    }
  }

  method OnEvent(m: Monitor<()>, code: EventCode)
    modifies m
    ensures m.View() == Signalled(old(m.View()), SignalOf(code))
    ensures code == SYNCHRONIZATION_FAILED ==> m.error == Some("Synchronization failed") && m.result == old(m.result)
    ensures code == SYNCHRONIZATION_SUCCEED ==> m.result == Some(()) && m.error == old(m.error)
    ensures code == SYNCHRONIZATION_SUCCEED_ON_PREVIOUSLY_EMPTY_ACCOUNT ==> m.result == Some(()) && m.error == old(m.error)
    ensures code == OTHER_EVENT ==> m.result == old(m.result) && m.error == old(m.error)
    ensures m.phase == if code != OTHER_EVENT && old(m.phase).Blocked? then Notified else old(m.phase)
  {
    if code == SYNCHRONIZATION_FAILED {
      m.error := Some("Synchronization failed");
      m.NotifyAll();
      return;
    }
    if code == SYNCHRONIZATION_SUCCEED || code == SYNCHRONIZATION_SUCCEED_ON_PREVIOUSLY_EMPTY_ACCOUNT {
      m.result := Some(());
      m.NotifyAll();
    }
  }

  // ---------------------------------------------------------------------------------------------
  // Every interleaving
  // ---------------------------------------------------------------------------------------------

  datatype Step<+T> = Deliver(signal: Signal<T>) | Check | SpuriousWakeUp

  predicate Enabled<T>(s: State<T>, step: Step<T>) {
    && (step.Check? ==> s.phase.Entering? || s.phase.Notified?)
    && (step.SpuriousWakeUp? ==> s.phase.Blocked?)
  }

  function Apply<T>(s: State<T>, step: Step<T>): State<T>
    requires Enabled(s, step)
  {
    match step
    case Deliver(signal) => Signalled(s, signal)
    case Check => Checked(s)
    case SpuriousWakeUp => s.(phase := Notified)
  }

  predicate Possible<T>(steps: seq<Step<T>>)
    decreases |steps|, 0
  {
    |steps| == 0 || (Possible(steps[..|steps| - 1]) && Enabled(Exec(steps[..|steps| - 1]), steps[|steps| - 1]))
  }

  function Exec<T>(steps: seq<Step<T>>): State<T>
    requires Possible(steps)
    decreases |steps|, 1
  {
    if |steps| == 0 then Begin() else Apply(Exec(steps[..|steps| - 1]), steps[|steps| - 1])
  }

  /** The last error and the last result delivered. */
  function LastError<T>(steps: seq<Step<T>>): Option<string> {
    if |steps| == 0 then None
    else
      var step := steps[|steps| - 1];
      if step.Deliver? && step.signal.Fail? then Some(step.signal.error) else LastError(steps[..|steps| - 1])
  }

  function LastResult<T>(steps: seq<Step<T>>): Option<T> {
    if |steps| == 0 then None
    else
      var step := steps[|steps| - 1];
      if step.Deliver? && step.signal.Give? then step.signal.result else LastResult(steps[..|steps| - 1])
  }

  /** No lost wake-up: in no interleaving is the waiter blocked, un-notified, while there is something to
      see; and what it sees is what was delivered last. */
  lemma {:induction false} NoLostWakeUp<T>(steps: seq<Step<T>>)
    requires Possible(steps)
    ensures var s := Exec(steps);
      && s.error == LastError(steps) && s.result == LastResult(steps)
      && (s.phase.Blocked? ==> s.error.None? && s.result.None?)
  {
    if |steps| > 0 {
      NoLostWakeUp(steps[..|steps| - 1]);
    }
  }

  /** The waiter leaves at its next look exactly if there is something to see: with the last result, else
      with the last error; and it is always free to look when there is. */
  lemma LeavesExactlyWhenSignalled<T>(steps: seq<Step<T>>)
    requires Possible(steps) && !Finished(Exec(steps))
    ensures LastError(steps).Some? || LastResult(steps).Some? ==> Enabled(Exec(steps), Check)
    ensures Enabled(Exec(steps), Check) ==>
              var after := Apply(Exec(steps), Check);
              && (after.phase.Returned? <==> LastResult(steps).Some?)
              && (after.phase.Returned? ==> LastResult(steps) == Some(after.phase.value))
              && (after.phase.Thrown? <==> LastResult(steps).None? && LastError(steps).Some?)
              && (after.phase.Thrown? ==> LastError(steps) == Some(after.phase.message))
  {
    NoLostWakeUp(steps);
  }

  ghost predicate Events(steps: seq<Step<()>>) {
    forall i :: 0 <= i < |steps| && steps[i].Deliver? ==> exists code :: steps[i].signal == SignalOf(code)
  }

  ghost predicate Delivered<T(!new)>(steps: seq<Step<T>>, signal: Signal<T>) {
    exists i :: 0 <= i < |steps| && steps[i] == Deliver(signal)
  }

  /** For event receivers results never disappear: there is a result exactly if a success event occurred,
      and an error exactly if a failure event did. */
  lemma {:induction false} EventsAreRemembered(steps: seq<Step<()>>)
    requires Events(steps)
    ensures LastResult(steps).Some? <==> Delivered(steps, Give(Some(())))
    ensures LastError(steps).Some? <==> Delivered(steps, Fail("Synchronization failed"))
  {
    if |steps| > 0 {
      var before, last := steps[..|steps| - 1], steps[|steps| - 1];
      EventsAreRemembered(before);
      assert steps == before + [last];
      assert last.Deliver? ==> exists code :: last.signal == SignalOf(code);
      forall signal: Signal<()> ensures Delivered(steps, signal) <==> Delivered(before, signal) || last == Deliver(signal) {
        if Delivered(before, signal) {
          var i :| 0 <= i < |before| && before[i] == Deliver(signal);
          assert steps[i] == Deliver(signal);
        }
        if last == Deliver(signal) {
          assert steps[|before|] == Deliver(signal);
        }
        if Delivered(steps, signal) && last != Deliver(signal) {
          var i :| 0 <= i < |steps| && steps[i] == Deliver(signal);
          assert before[i] == Deliver(signal);
        }
      }
    }
  }

  /** What happens to an event receiver: an event arrives, the waiter looks, or wakes up for no reason. */
  datatype EventStep = Event(code: EventCode) | Look | Wake

  function StepOf(e: EventStep): Step<()> {
    match e
    case Event(code) => Deliver(SignalOf(code))
    case Look => Check
    case Wake => SpuriousWakeUp
  }

  function StepsOf(es: seq<EventStep>): seq<Step<()>> {
    seq(|es|, i requires 0 <= i < |es| => StepOf(es[i]))
  }

  lemma EventsAreSignals(es: seq<EventStep>)
    ensures Events(StepsOf(es))
    ensures Delivered(StepsOf(es), Give(Some(()))) <==>
            Event(SYNCHRONIZATION_SUCCEED) in es || Event(SYNCHRONIZATION_SUCCEED_ON_PREVIOUSLY_EMPTY_ACCOUNT) in es
    ensures Delivered(StepsOf(es), Fail("Synchronization failed")) <==> Event(SYNCHRONIZATION_FAILED) in es
  {
    var steps := StepsOf(es);
    forall i | 0 <= i < |steps| && steps[i].Deliver? ensures exists code :: steps[i].signal == SignalOf(code) {
      assert steps[i].signal == SignalOf(es[i].code);
    }
    forall code | Event(code) in es ensures Delivered(steps, SignalOf(code)) {
      var i :| 0 <= i < |es| && es[i] == Event(code);
      assert steps[i] == Deliver(SignalOf(code));
    }
    forall signal: Signal<()> | Delivered(steps, signal) ensures exists code :: Event(code) in es && SignalOf(code) == signal {
      var i :| 0 <= i < |steps| && steps[i] == Deliver(signal);
      assert es[i].Event? && es[i] in es && SignalOf(es[i].code) == signal;
    }
  }

  /** Whatever events arrive and whenever the waiter looks: it returns exactly if one of the two success events
      has occurred, and throws exactly if the failure event has and no success event. */
  lemma EventWaitIsRight(es: seq<EventStep>)
    requires Possible(StepsOf(es)) && !Finished(Exec(StepsOf(es))) && Enabled(Exec(StepsOf(es)), Check)
    ensures var after := Apply(Exec(StepsOf(es)), Check).phase;
      var success := Event(SYNCHRONIZATION_SUCCEED) in es || Event(SYNCHRONIZATION_SUCCEED_ON_PREVIOUSLY_EMPTY_ACCOUNT) in es;
      && (after.Returned? <==> success)
      && (after.Thrown? <==> Event(SYNCHRONIZATION_FAILED) in es && !success)
  {
    EventsAreSignals(es);
    LeavesExactlyWhenSignalled(StepsOf(es));
    EventsAreRemembered(StepsOf(es));
  }

  /** `sync` waits for one callback, whose signal is `signal`. Once it has been delivered, the waiter has
      nothing to see, now and under every later schedule, exactly if it reported no error and a null result. */
  lemma {:induction false} SyncHangsExactlyOnNull<T>(steps: seq<Step<T>>, signal: Signal<T>)
    requires Possible(steps) && !signal.Ignore?
    requires forall i :: 0 <= i < |steps| && steps[i].Deliver? ==> steps[i].signal == signal
    ensures signal == Give(None) ==> !Finished(Exec(steps))
    ensures (exists i :: 0 <= i < |steps| && steps[i].Deliver?) ==>
              (signal == Give(None) <==> LastResult(steps).None? && LastError(steps).None?)
    ensures signal == Give(None) ==> LastResult(steps).None? && LastError(steps).None?
  {
    if |steps| > 0 {
      var before, last := steps[..|steps| - 1], steps[|steps| - 1];
      SyncHangsExactlyOnNull(before, signal);
      NoLostWakeUp(before);
      if !last.Deliver? && exists i :: 0 <= i < |steps| && steps[i].Deliver? {
        var i :| 0 <= i < |steps| && steps[i].Deliver?;
        assert before[i].Deliver?;
      }
    }
  }

  /** A waiter that blocks, is told of a null result, and looks again, blocks for good. */
  lemma NullHangs<T>()
    ensures var steps: seq<Step<T>> := [Check, Deliver(Give(None)), Check];
      Possible(steps) && Exec(steps).phase.Blocked? && !Enabled(Exec(steps), Check)
  {
    var one: seq<Step<T>> := [Check];
    var two: seq<Step<T>> := [Check, Deliver(Give(None))];
    var steps: seq<Step<T>> := [Check, Deliver(Give(None)), Check];
    assert one[..0] == [] && two[..1] == one && steps[..2] == two;
    assert Possible(one) && Exec(one) == State(None, None, Blocked);
    assert Possible(two) && Exec(two) == State(None, None, Notified);
  }
}
