/** Timeouts over whole runs, from the time a task was dispatched, and the
    workers that tasks were dispatched to. */
module Deadlines {
  import opened Clock
  import opened Tasks
  import opened SchedulerModel
  import opened Runs
  import opened Scheduling
  import opened Trails

  /** The deadline of a task, read off the run: its timeout after its last dispatch. */
  predicate PastDeadline(ms: seq<Move>, t: Task, now: int) {
    t.spec.timeoutSec > 0 && now > DispatchTime(ms, t) + t.spec.timeoutSec * SECOND
  }

  /** A task in flight is overdue exactly when it is past that deadline. */
  lemma OverdueExactly(ms: seq<Move>, loose: set<Task>, t: Task, now: int)
    requires LegalExcept(ms, loose) && t !in loose && t in Exec(ms).inFlight
    requires t.spec.timeoutSec <= LONGEST_TIMEOUT
    ensures t in Overdue(Exec(ms), now) <==> PastDeadline(ms, t, now)
  {
    hide Exec, LegalExcept, DispatchTime;
    ContainerDeterminesState(ms, loose, t);
    InFlightWhereDispatched(ms, loose, t);
  }

  /** No run expires a task before its timeout has passed since it was dispatched. */
  lemma NeverExpiredEarly(ms: seq<Move>, loose: set<Task>, t: Task, now: int, jitter: nat)
    requires LegalExcept(ms + [Expire(t, now, jitter)], loose) && t !in loose
    requires t.spec.timeoutSec <= LONGEST_TIMEOUT
    ensures t.spec.timeoutSec > 0 && now > DispatchTime(ms, t) + t.spec.timeoutSec * SECOND
  {
    hide Exec, DispatchTime;
    assert (ms + [Expire(t, now, jitter)])[..|ms|] == ms;
    OverdueExactly(ms, loose, t, now);
  }

  /** A task is in flight on the worker it was last dispatched to. */
  lemma OwnedExactly(ms: seq<Move>, loose: set<Task>, t: Task, worker: Text)
    requires LegalExcept(ms, loose) && t !in loose && t in Exec(ms).inFlight
    ensures t in Owned(Exec(ms), worker) <==> DispatchedTo(ms, t, worker)
  {
    hide Exec, LegalExcept, DispatchedTo;
    InFlightWhereDispatched(ms, loose, t);
  }

  lemma OwnedOverRun(log: seq<Move>, loose: set<Task>, worker: Text)
    requires LegalExcept(log, loose)
    ensures forall t :: t in Exec(log).inFlight && t !in loose ==>
      (t in Owned(Exec(log), worker) <==> DispatchedTo(log, t, worker))
  {
    hide Exec, LegalExcept, Owned, DispatchedTo;
    forall t | t in Exec(log).inFlight && t !in loose
      ensures t in Owned(Exec(log), worker) <==> DispatchedTo(log, t, worker)
    {
      OwnedExactly(log, loose, t, worker);
    }
  }

  lemma OverdueOverRun(log: seq<Move>, loose: set<Task>, now: int)
    requires LegalExcept(log, loose)
    ensures forall t :: t in Exec(log).inFlight && t !in loose && t.spec.timeoutSec <= LONGEST_TIMEOUT ==>
      (t in Overdue(Exec(log), now) <==> PastDeadline(log, t, now))
  {
    hide Exec, LegalExcept, Overdue, PastDeadline;
    forall t | t in Exec(log).inFlight && t !in loose && t.spec.timeoutSec <= LONGEST_TIMEOUT
      ensures t in Overdue(Exec(log), now) <==> PastDeadline(log, t, now)
    {
      OverdueExactly(log, loose, t, now);
    }
  }
}
