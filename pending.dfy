/**
 * Pending values and pending tasks (dara/core/base_definitions.py):
 * single-cell state machines holding a value slot, an error slot and the
 * "set" flag of their event. `Cell` is the value-level view of that state and
 * `Outcome` is what waiting on it delivers once the flag is set.
 */
module Pending {
  import opened Wrappers

  /** A raised Python exception: its class name and its message. */
  datatype Exception = Exception(kind: string, message: string)

  /** The error recorded by `PendingTask.cancel`. */
  const TaskCancelled: Exception := Exception("Exception", "Task was cancelled")

  /** What `wait`/`run` delivers: the stored value (None if none was stored) or a raise. */
  datatype Awaited<T> = Returned(value: Option<T>) | Raised(error: Exception)

  /** The three slots shared by PendingValue and PendingTask. */
  datatype Cell<T> = Cell(value: Option<T>, error: Option<Exception>, isSet: bool) {

    /**
     * The outcome of waiting: nothing while the event is unset; otherwise a
     * recorded error is raised, and only without one is the value returned.
     */
    function Outcome(): Option<Awaited<T>> {
      if !isSet then None
      else if error.Some? then Some(Raised(error.value))
      else Some(Returned(value))
    }

    /** `resolve(v)`: store the value and set the event; an earlier error still wins. */
    function Resolve(v: T): (c: Cell<T>)
      ensures c.isSet && c.value == Some(v) && c.error == error
      ensures c.Outcome() == Some(if error.Some? then Raised(error.value) else Returned(Some(v)))
    {
      Cell(Some(v), error, true)
    }

    /** `error(e)` / `fail(e)`: store the error and set the event; waiting then raises e. */
    function Fail(e: Exception): (c: Cell<T>)
      ensures c.isSet && c.value == value && c.error == Some(e)
      ensures c.Outcome() == Some(Raised(e))
    {
      Cell(value, Some(e), true)
    }
  }

  /** The state `__init__` leaves: no value, no error, event unset. */
  function EmptyCell<T>(): (c: Cell<T>)
    ensures c.Outcome() == None
  {
    Cell(None, None, false)
  }

  /** A recorded error takes precedence over a value stored before or after it. */
  lemma ErrorBeatsValue<T>(c: Cell<T>, v: T, e: Exception)
    ensures c.Resolve(v).Fail(e).Outcome() == Some(Raised(e))
    ensures c.Fail(e).Resolve(v).Outcome() == Some(Raised(e))
  {
  }

  /** One call that settles the cell: a resolve or a fail (cancel is a fail). */
  datatype Signal<T> = ResolveWith(v: T) | FailWith(e: Exception)

  function Apply<T>(c: Cell<T>, s: Signal<T>): Cell<T> {
    match s
    case ResolveWith(v) => c.Resolve(v)
    case FailWith(e) => c.Fail(e)
  }

  /** The cell after the signals are applied in order. */
  function Replay<T>(c: Cell<T>, signals: seq<Signal<T>>): Cell<T>
    decreases |signals|
  {
    if signals == [] then c
    else Apply(Replay(c, signals[..|signals| - 1]), signals[|signals| - 1])
  }

  /** Reference definition: the error of the last fail among the signals. */
  function LastFailure<T>(signals: seq<Signal<T>>): Option<Exception>
    decreases |signals|
  {
    if signals == [] then None
    else match signals[|signals| - 1]
      case FailWith(e) => Some(e)
      case ResolveWith(_) => LastFailure(signals[..|signals| - 1])
  }

  /** Reference definition: the value of the last resolve among the signals. */
  function LastResolution<T>(signals: seq<Signal<T>>): Option<T>
    decreases |signals|
  {
    if signals == [] then None
    else match signals[|signals| - 1]
      case ResolveWith(v) => Some(v)
      case FailWith(_) => LastResolution(signals[..|signals| - 1])
  }

  /**
   * No call is refused and none is final: each slot holds what the last call
   * writing it wrote, and any call sets the event.
   */
  lemma {:induction false} ReplayState<T>(c: Cell<T>, signals: seq<Signal<T>>)
    ensures Replay(c, signals).value == (if LastResolution(signals).Some? then LastResolution(signals) else c.value)
    ensures Replay(c, signals).error == (if LastFailure(signals).Some? then LastFailure(signals) else c.error)
    ensures Replay(c, signals).isSet == (c.isSet || signals != [])
    decreases |signals|
  {
    if signals != [] {
      ReplayState(c, signals[..|signals| - 1]);
    }
  }

  /**
   * Starting from a fresh cell, waiting delivers nothing until some call was
   * made; then the last recorded error if there is one, otherwise the last
   * resolved value.
   */
  lemma {:induction false} ReplayOutcome<T>(signals: seq<Signal<T>>)
    ensures Replay(EmptyCell(), signals).Outcome() ==
      if signals == [] then None
      else if LastFailure(signals).Some? then Some(Raised(LastFailure(signals).value))
      else Some(Returned(LastResolution(signals)))
  {
    ReplayState(EmptyCell(), signals);
  }

  lemma {:induction false} LastFailureOfResolves<T>(before: seq<Signal<T>>, after: seq<Signal<T>>)
    requires forall i :: 0 <= i < |after| ==> after[i].ResolveWith?
    ensures LastFailure(before + after) == LastFailure(before)
    decreases |after|
  {
    if after != [] {
      var n := |after| - 1;
      var all := before + after;
      assert all[|all| - 1] == after[n] && after[n].ResolveWith?;
      assert all[..|all| - 1] == before + after[..n];
      LastFailureOfResolves(before, after[..n]);
      assert LastFailure(all) == LastFailure(all[..|all| - 1]);
    } else {
      assert before + after == before;
    }
  }

  /**
   * Once a task is cancelled, resolving it afterwards does not undo the
   * cancellation: every later wait raises 'Task was cancelled'.
   */
  lemma {:induction false} CancelIsTerminal<T>(before: seq<Signal<T>>, after: seq<Signal<T>>)
    requires forall i :: 0 <= i < |after| ==> after[i].ResolveWith?
    ensures Replay(EmptyCell(), before + [FailWith(TaskCancelled)] + after).Outcome() == Some(Raised(TaskCancelled))
  {
    var all := before + [FailWith(TaskCancelled)] + after;
    LastFailureOfResolves(before + [FailWith(TaskCancelled)], after);
    assert (before + [FailWith(TaskCancelled)])[..|before|] == before;
    ReplayOutcome(all);
  }

  /** `PendingValue`: a value many consumers can await. */
  class PendingValue<T> {
    var isSet: bool               // event.is_set()
    var value: Option<T>          // _value
    var error: Option<Exception>  // _error

    function State(): Cell<T>
      reads this
    {
      Cell(value, error, isSet)
    }

    constructor()
      ensures State() == EmptyCell()
    {
      isSet, value, error := false, None, None;
    }

    /** `wait`, once the event is set: raise the recorded error, else return the value. */
    method Wait() returns (outcome: Awaited<T>)
      requires isSet
      ensures State().Outcome() == Some(outcome)
    {
      if error.Some? {
        outcome := Raised(error.value);
      } else {
        outcome := Returned(value);
      }
    }

    method Resolve(v: T)
      modifies this`value, this`isSet
      ensures State() == old(State()).Resolve(v)
    {
      value := Some(v);
      isSet := true;
    }

    method Error(e: Exception)
      modifies this`error, this`isSet
      ensures State() == old(State()).Fail(e)
    {
      error := Some(e);
      isSet := true;
    }
  }

  /**
   * `PendingTask`: a pending result bound to a task definition `D`, with a
   * subscriber count and the channels progress is forwarded to.
   */
  class PendingTask<T, D> {
    const taskId: string
    const taskDef: D
    var notifyChannels: seq<string>
    var isSet: bool               // event.is_set()
    var result: Option<T>
    var error: Option<Exception>
    var subscribers: int

    function State(): Cell<T>
      reads this
    {
      Cell(result, error, isSet)
    }

    /** `[ws_channel] if ws_channel else []`: an absent or empty channel gives no channel. */
    static function InitialChannels(wsChannel: Option<string>): (channels: seq<string>)
      ensures channels == [] <==> wsChannel.None? || wsChannel.value == ""
      ensures channels != [] ==> channels == [wsChannel.value]
    {
      if wsChannel.Some? && wsChannel.value != "" then [wsChannel.value] else []
    }

    constructor(taskId: string, taskDef: D, wsChannel: Option<string> := None)
      ensures this.taskId == taskId && this.taskDef == taskDef
      ensures notifyChannels == InitialChannels(wsChannel)
      ensures State() == EmptyCell() && subscribers == 1
    {
      this.taskId := taskId;
      this.taskDef := taskDef;
      notifyChannels := InitialChannels(wsChannel);
      isSet, result, error := false, None, None;
      subscribers := 1;
    }

    /** `run`, once the event is set: raise the recorded error, else return the result. */
    method Run() returns (outcome: Awaited<T>)
      requires isSet
      ensures State().Outcome() == Some(outcome)
    {
      if error.Some? {
        outcome := Raised(error.value);
      } else {
        outcome := Returned(result);
      }
    }

    method Resolve(v: T)
      modifies this`result, this`isSet
      ensures State() == old(State()).Resolve(v)
    {
      result := Some(v);
      isSet := true;
    }

    method Fail(e: Exception)
      modifies this`error, this`isSet
      ensures State() == old(State()).Fail(e)
    {
      error := Some(e);
      isSet := true;
    }

    /**
     * `cancel`, after the cancel scope and the task definition were told to
     * stop: record the cancellation error and set the event, whatever the
     * earlier state, so every wait raises 'Task was cancelled'.
     */
    method Cancel()
      modifies this`error, this`isSet
      ensures State() == old(State()).Fail(TaskCancelled)
      ensures State().Outcome() == Some(Raised(TaskCancelled))
    {
      error := Some(TaskCancelled);
      isSet := true;
    }

    method AddSubscriber()
      modifies this`subscribers
      ensures subscribers == old(subscribers) + 1
    {
      subscribers := subscribers + 1;
    }

    method RemoveSubscriber()
      modifies this`subscribers
      ensures subscribers == old(subscribers) - 1
    {
      subscribers := subscribers - 1;
    }
  }
}
