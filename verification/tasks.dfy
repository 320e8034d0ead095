/** The task domain model: the transition table, the value of a task, and the
    mutable `Task` object. Times and durations are integers in nanoseconds;
    the current time and the random jitter are parameters. */
module Tasks {
  import opened Clock

  datatype State = Queued | Assigned | Running | Completed | Failed | Retrying | Dead {
    predicate IsTerminal() {
      this == Completed || this == Dead
    }
  }

  function ValidTransitions(from: State): seq<State> {
    match from
    case Queued => [Assigned]
    case Assigned => [Running, Queued]
    case Running => [Completed, Failed]
    case Failed => [Retrying, Dead]
    case Retrying => [Queued]
    case Completed => []
    case Dead => [Queued]
  }

  predicate CanMove(from: State, to: State) {
    to in ValidTransitions(from)
  }

  /** The table read backwards: from which states each state can be entered. */
  lemma EnteredFrom(from: State, to: State)
    ensures CanMove(from, to) <==>
      match to
      case Queued => from == Assigned || from == Retrying || from == Dead
      case Assigned => from == Queued
      case Running => from == Assigned
      case Completed => from == Running
      case Failed => from == Running
      case Retrying => from == Failed
      case Dead => from == Failed
  {
  }

  /** Strings the system copies and compares but never looks into. */
  datatype Text = Text(chars: string)

  const EMPTY_TEXT := Text("")

  datatype TaskId = TaskId(chars: string)

  datatype Outcome = Ok | InvalidTransition(from: State, to: State, id: TaskId)

  function Attempted(from: State, to: State, id: TaskId): Outcome {
    if CanMove(from, to) then Ok else InvalidTransition(from, to, id)
  }

  datatype TaskType = ScriptPath | Inline | Archive

  /** The fields nothing writes once a task is in the scheduler. */
  datatype Spec = Spec(
    id: TaskId, priority: int, createdAt: int, maxRetries: int, timeoutSec: int,
    taskType: TaskType, script: Text, content: Text, language: Text, entrypoint: Text)

  /** The value of a whole task: what a snapshot of it holds. */
  datatype Record = Record(
    spec: Spec, state: State, attempt: nat, workerId: Text,
    output: Text, error: Text, exitCode: int,
    assignedAt: int, startedAt: int, completedAt: int, nextRetryAt: int)

  function Fresh(spec: Spec): Record {
    Record(spec, Queued, 0, EMPTY_TEXT, EMPTY_TEXT, EMPTY_TEXT, 0, 0, 0, 0, 0)
  }

  // What each operation makes of a task's value. An operation whose transition
  // is not in the table leaves the task as it was.

  function AfterTransition(r: Record, to: State): Record {
    if CanMove(r.state, to) then r.(state := to) else r
  }

  function AfterAssign(r: Record, worker: Text, now: int): Record {
    if CanMove(r.state, Assigned)
    then r.(state := Assigned, workerId := worker, assignedAt := now, attempt := r.attempt + 1)
    else r
  }

  function AfterStart(r: Record, now: int): Record {
    if CanMove(r.state, Running) then r.(state := Running, startedAt := now) else r
  }

  function AfterComplete(r: Record, output: Text, exitCode: int, now: int): Record {
    if CanMove(r.state, Completed)
    then r.(state := Completed, output := output, exitCode := exitCode, completedAt := now)
    else r
  }

  function AfterFail(r: Record, error: Text, exitCode: int, now: int): Record {
    if CanMove(r.state, Failed)
    then r.(state := Failed, error := error, exitCode := exitCode, completedAt := now)
    else r
  }

  function AfterScheduleRetry(r: Record, now: int, jitter: nat): Record {
    if r.attempt >= r.spec.maxRetries then AfterTransition(r, Dead)
    else if CanMove(r.state, Retrying)
    then r.(state := Retrying, nextRetryAt := now + Backoff(r.attempt) + jitter)
    else r
  }

  function AfterRetryFromDLQ(r: Record): Record {
    if CanMove(r.state, Queued) then r.(state := Queued, attempt := 0, error := EMPTY_TEXT) else r
  }

  /** A report of failure or a timeout: `Fail`, then `ScheduleRetry`. */
  function AfterFailure(r: Record, error: Text, exitCode: int, now: int, jitter: nat): Record {
    AfterScheduleRetry(AfterFail(r, error, exitCode, now), now, jitter)
  }

  /** The deadline test of the timeout sweep. */
  predicate Expired(r: Record, now: int) {
    && r.state == Running
    && r.spec.timeoutSec > 0
    && now > r.startedAt + Timeout(r.spec.timeoutSec)
  }

  class Task {
    const spec: Spec
    var state: State
    var attempt: nat
    var workerId: Text
    var output: Text
    var error: Text
    var exitCode: int
    var assignedAt: int
    var startedAt: int
    var completedAt: int
    var nextRetryAt: int

    ghost function Value(): Record
      reads this
    {
      Record(spec, state, attempt, workerId, output, error, exitCode,
             assignedAt, startedAt, completedAt, nextRetryAt)
    }

    constructor (spec: Spec)
      ensures this.spec == spec && Value() == Fresh(spec)
    {
      this.spec := spec;
      state, attempt, workerId := Queued, 0, EMPTY_TEXT;
      output, error, exitCode := EMPTY_TEXT, EMPTY_TEXT, 0;
      assignedAt, startedAt, completedAt, nextRetryAt := 0, 0, 0, 0;
    }

    method Transition(to: State) returns (res: Outcome)
      modifies this`state
      ensures Value() == AfterTransition(old(Value()), to)
      ensures res == Attempted(old(state), to, spec.id)
      ensures res == Ok <==> CanMove(old(state), to)
      ensures state == if res == Ok then to else old(state)
    {
      var allowed := ValidTransitions(state);
      for k := 0 to |allowed|
        invariant state == old(state)
        invariant to !in allowed[..k]
      {
        if allowed[k] == to {
          state := to;
          return Ok;
        }
      }
      return InvalidTransition(state, to, spec.id);
    }

    method Assign(worker: Text, now: int) returns (res: Outcome)
      modifies this
      ensures Value() == AfterAssign(old(Value()), worker, now)
      ensures res == Attempted(old(state), Assigned, spec.id)
      ensures res == Ok || Value() == old(Value())
    {
      res := Transition(Assigned);
      if res.Ok? {
        workerId := worker;
        assignedAt := now;
        attempt := attempt + 1;
      }
    }

    method Start(now: int) returns (res: Outcome)
      modifies this
      ensures Value() == AfterStart(old(Value()), now)
      ensures res == Attempted(old(state), Running, spec.id)
      ensures res == Ok || Value() == old(Value())
    {
      res := Transition(Running);
      if res.Ok? {
        startedAt := now;
      }
    }

    method Complete(output: Text, exitCode: int, now: int) returns (res: Outcome)
      modifies this
      ensures Value() == AfterComplete(old(Value()), output, exitCode, now)
      ensures res == Attempted(old(state), Completed, spec.id)
      ensures res == Ok || Value() == old(Value())
    {
      res := Transition(Completed);
      if res.Ok? {
        this.output := output;
        this.exitCode := exitCode;
        completedAt := now;
      }
    }

    method Fail(errMsg: Text, exitCode: int, now: int) returns (res: Outcome)
      modifies this
      ensures Value() == AfterFail(old(Value()), errMsg, exitCode, now)
      ensures res == Attempted(old(state), Failed, spec.id)
      ensures res == Ok || Value() == old(Value())
    {
      res := Transition(Failed);
      if res.Ok? {
        error := errMsg;
        this.exitCode := exitCode;
        completedAt := now;
      }
    }

    method ScheduleRetry(now: int, jitter: nat) returns (res: Outcome)
      modifies this
      ensures Value() == AfterScheduleRetry(old(Value()), now, jitter)
      ensures res == Attempted(old(state), if old(attempt) >= spec.maxRetries then Dead else Retrying, spec.id)
      ensures res == Ok || Value() == old(Value())
    {
      if attempt >= spec.maxRetries {
        res := Transition(Dead);
      } else {
        res := Transition(Retrying);
        if res.Ok? {
          nextRetryAt := now + Backoff(attempt) + jitter;
        }
      }
    }

    method Requeue() returns (res: Outcome)
      modifies this`state
      ensures Value() == AfterTransition(old(Value()), Queued)
      ensures res == Attempted(old(state), Queued, spec.id)
      ensures res == Ok || Value() == old(Value())
    {
      res := Transition(Queued);
    }

    method RetryFromDLQ() returns (res: Outcome)
      modifies this
      ensures Value() == AfterRetryFromDLQ(old(Value()))
      ensures res == Attempted(old(state), Queued, spec.id)
      ensures res == Ok || Value() == old(Value())
    {
      res := Transition(Queued);
      if res.Ok? {
        attempt := 0;
        error := EMPTY_TEXT;
      }
    }
  }
}
