/** What the moves of a run say of the fields of a task, without looking at
    what any operation writes. */
module Trails {
  import opened Tasks
  import opened SchedulerModel
  import opened Runs
  import opened Accounts
  import opened Budget
  import Clock

  datatype Found = Nothing | Last(move: Move)

  /** The last move of one of these kinds that did something to t. */
  function LastOf(ms: seq<Move>, t: Task, kinds: set<Kind>): Found {
    if ms == [] then Nothing
    else
      var before, m := ms[..|ms| - 1], ms[|ms| - 1];
      if m.task == t && KindOf(Exec(before), m) in kinds then Last(m) else LastOf(before, t, kinds)
  }

  const DISPATCHES := {Dispatched}
  const PLACINGS := {Dispatched, Reclaimed}
  const ENDINGS := {Succeeded, Failure, Timeout}
  const SUCCESSES := {Succeeded}
  const TROUBLES := {Failure, Timeout, Revived}

  function WorkerIn(f: Found): Text {
    if f.Last? && f.move.Dispatch? then f.move.worker else Text("")
  }

  function TimeIn(f: Found): int {
    if f.Last? && (f.move.Dispatch? || f.move.Complete? || f.move.Fail? || f.move.Expire?) then f.move.now else 0
  }

  function OutputIn(f: Found): Text {
    if f.Last? && f.move.Complete? then f.move.output else Text("")
  }

  function ErrorIn(f: Found): Text {
    if f.Last? && f.move.Fail? then f.move.error
    else if f.Last? && f.move.Expire? then Text("task execution timed out")
    else Text("")
  }

  function ExitCodeIn(f: Found): int {
    if f.Last? && (f.move.Complete? || f.move.Fail?) then f.move.exitCode
    else if f.Last? && f.move.Expire? then -1
    else 0
  }

  /** The last moves of a task that its fields come from. */
  datatype Trail = Trail(dispatch: Found, placing: Found, ending: Found, success: Found, trouble: Found)

  function TrailOf(ms: seq<Move>, t: Task): Trail {
    Trail(LastOf(ms, t, DISPATCHES), LastOf(ms, t, PLACINGS), LastOf(ms, t, ENDINGS),
          LastOf(ms, t, SUCCESSES), LastOf(ms, t, TROUBLES))
  }

  /** The worker is that of the last dispatch, unless the task was taken back
      since; the times and results are those of the last move that bears them;
      a revival clears the error. */
  predicate Tells(y: Trail, r: Record) {
    && r.workerId == WorkerIn(y.placing)
    && r.assignedAt == r.startedAt == TimeIn(y.dispatch)
    && r.completedAt == TimeIn(y.ending) && r.exitCode == ExitCodeIn(y.ending)
    && r.output == OutputIn(y.success) && r.error == ErrorIn(y.trouble)
    && (r.state != Queued ==> y.placing == y.dispatch && y.dispatch.Last? && y.dispatch.move.Dispatch?)
  }

  function Extended(f: Found, m: Move, k: Kind, kinds: set<Kind>): Found {
    if k in kinds then Last(m) else f
  }

  function Followed(y: Trail, m: Move, k: Kind): Trail {
    Trail(Extended(y.dispatch, m, k, DISPATCHES), Extended(y.placing, m, k, PLACINGS),
          Extended(y.ending, m, k, ENDINGS), Extended(y.success, m, k, SUCCESSES),
          Extended(y.trouble, m, k, TROUBLES))
  }

  lemma LastTrail(ms: seq<Move>, t: Task)
    requires ms != []
    ensures var before, m := ms[..|ms| - 1], ms[|ms| - 1];
      TrailOf(ms, t) == if m.task == t then Followed(TrailOf(before, t), m, KindOf(Exec(before), m))
                        else TrailOf(before, t)
  {
    hide Exec, KindOf;
  }

  /** A failure leaves its message, exit code and time, and no other trace. */
  lemma FailureWrites(r: Record, error: Text, exitCode: int, now: int, jitter: nat)
    requires r.state == Running
    ensures var f := AfterFailure(r, error, exitCode, now, jitter);
      && f.state != Queued && f.error == error && f.exitCode == exitCode && f.completedAt == now
      && f.workerId == r.workerId && f.assignedAt == r.assignedAt && f.startedAt == r.startedAt
      && f.output == r.output
  {
    hide Clock.Backoff;
  }

  lemma TellsStep(y: Trail, r: Record, m: Move, k: Kind)
    requires Tells(y, r) && Does(m, k) && StartsFrom(r, k)
    ensures Tells(Followed(y, m, k), NextRecord(r, m))
  {
    if m.Fail? {
      FailureWrites(r, m.error, m.exitCode, m.now, m.jitter);
    } else if m.Expire? {
      FailureWrites(r, TIMEOUT_MESSAGE, -1, m.now, m.jitter);
    }
    hide AfterFailure;
  }

  lemma IgnoredLeavesNoTrail(y: Trail, m: Move)
    ensures Followed(y, m, Ignored) == y && Followed(y, m, Enqueued) == y
  {
  }

  /** A task that was never enqueued has no trail. */
  lemma {:induction false} UnknownHasNoTrail(ms: seq<Move>, loose: set<Task>, t: Task)
    requires LegalExcept(ms, loose) && t !in loose && t !in Exec(ms).tasks
    ensures TrailOf(ms, t) == Trail(Nothing, Nothing, Nothing, Nothing, Nothing)
  {
    hide Apply, Allowed, SoundFor, KindOf, Followed, TrailOf;
    if ms == [] {
      NoTrailYet(t);
    } else {
      var before, m := ms[..|ms| - 1], ms[|ms| - 1];
      LastTrail(ms, t);
      KnownStays(Exec(before), m, t);
      UnknownHasNoTrail(before, loose, t);
      if m.task == t {
        ContainerDeterminesState(before, loose, t);
        UnknownIsIgnored(Exec(before), m);
        IgnoredLeavesNoTrail(TrailOf(before, t), m);
      }
    }
  }

  lemma NoTrailYet(t: Task)
    ensures TrailOf([], t) == Trail(Nothing, Nothing, Nothing, Nothing, Nothing)
  {
  }

  lemma KnownStays(s: Sched, m: Move, t: Task)
    ensures t in s.tasks ==> t in Apply(s, m).tasks
  {
    hide AfterFailure, AfterAssign, AfterStart, AfterComplete, AfterTransition, AfterRetryFromDLQ, RemoveFirst;
  }

  lemma UnknownIsIgnored(s: Sched, m: Move)
    requires SoundFor(s, m.task) && m.task !in s.tasks && m.task !in Apply(s, m).tasks
    ensures KindOf(s, m) == Ignored
  {
    HeldIsKnown(s, m.task);
    hide SoundFor;
  }

  /** Over every run the fields of a known task are what its last moves say. */
  lemma {:induction false} FieldsFromMoves(ms: seq<Move>, loose: set<Task>, t: Task)
    requires LegalExcept(ms, loose) && t !in loose && t in Exec(ms).tasks
    ensures Tells(TrailOf(ms, t), Exec(ms).tasks[t])
  {
    hide Tells, TrailOf, Followed, NextRecord, Apply, Allowed, SoundFor, KindOf, StartsFrom, Does;
    var before, m := ms[..|ms| - 1], ms[|ms| - 1];
    var s := Exec(before);
    LastTrail(ms, t);
    ContainerDeterminesState(before, loose, t);
    if m.task != t {
      OtherTasksStay(s, m, t);
      FieldsFromMoves(before, loose, t);
    } else if t !in s.tasks {
      FirstSeen(s, m);
      UnknownHasNoTrail(before, loose, t);
      IgnoredLeavesNoTrail(TrailOf(before, t), m);
      FreshHasNoTrail(t.spec);
    } else {
      FieldsFromMoves(before, loose, t);
      RecordsStep(s, m);
      if KindOf(s, m) == Ignored {
        IgnoredLeavesNoTrail(TrailOf(before, t), m);
      } else {
        SourceState(s, m);
        KindDoes(s, m);
        KnownIsNotEnqueued(s, m);
        TellsStep(TrailOf(before, t), s.tasks[t], m, KindOf(s, m));
      }
    }
  }

  lemma FreshHasNoTrail(spec: Spec)
    ensures Tells(Trail(Nothing, Nothing, Nothing, Nothing, Nothing), Fresh(spec))
  {
  }

  lemma KindDoes(s: Sched, m: Move)
    requires KindOf(s, m) != Ignored
    ensures Does(m, KindOf(s, m))
  {
  }

  /** The task was last dispatched to this worker. */
  predicate DispatchedTo(ms: seq<Move>, t: Task, worker: Text) {
    var d := LastOf(ms, t, DISPATCHES);
    d.Last? && d.move.Dispatch? && d.move.worker == worker
  }

  function DispatchTime(ms: seq<Move>, t: Task): int {
    TimeIn(LastOf(ms, t, DISPATCHES))
  }

  /** A task that is in flight bears the worker and the time of its last dispatch. */
  lemma InFlightWhereDispatched(ms: seq<Move>, loose: set<Task>, t: Task)
    requires LegalExcept(ms, loose) && t !in loose && t in Exec(ms).inFlight
    ensures t in Exec(ms).tasks
    ensures forall worker :: DispatchedTo(ms, t, worker) <==> Exec(ms).tasks[t].workerId == worker
    ensures Exec(ms).tasks[t].startedAt == Exec(ms).tasks[t].assignedAt == DispatchTime(ms, t)
  {
    hide Exec, LegalExcept, LastOf;
    ContainerDeterminesState(ms, loose, t);
    FieldsFromMoves(ms, loose, t);
  }

  /** The tasks completed by a run, oldest first. */
  function Completions(ms: seq<Move>): seq<Task> {
    if ms == [] then []
    else
      var before, m := ms[..|ms| - 1], ms[|ms| - 1];
      Completions(before)
      + if m.Complete? && m.task in Exec(before).inFlight && m.task in Exec(before).tasks then [m.task] else []
  }

  lemma {:induction false} CompletionsInOrder(ms: seq<Move>)
    ensures Exec(ms).finished == Completions(ms)
  {
    hide Apply;
    if ms != [] {
      CompletionsInOrder(ms[..|ms| - 1]);
      FinishedStep(Exec(ms[..|ms| - 1]), ms[|ms| - 1]);
    }
  }

  lemma FinishedStep(s: Sched, m: Move)
    ensures Apply(s, m).finished
         == s.finished + if m.Complete? && m.task in s.inFlight && m.task in s.tasks then [m.task] else []
  {
    hide AfterFailure, AfterAssign, AfterStart, AfterComplete, AfterTransition, AfterRetryFromDLQ, RemoveFirst;
    assert s.finished + [] == s.finished;
  }
}
