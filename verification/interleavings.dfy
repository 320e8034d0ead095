/** Runs in which Dequeue, Assign, Start and Send are separate steps that any
    other operation may come between. The steps may come in any order at all,
    which covers every interleaving of dispatch loops, reports and sweeps. */
module Interleavings {
  import opened Basics
  import opened Tasks
  import opened SchedulerModel
  import opened Runs

  /** How many places hold the task. */
  function Occurrences(s: Sched, t: Task): nat {
    var c := CountsOf(s, t);
    c.queued + c.flying + c.waiting + c.dead + c.done
  }

  /** A failed send puts the task on the queue and leaves it in flight. */
  function Duplicates(s: Sched, m: Move, u: Task): bool {
    m.SendFailed? && m.task == u && u in s.tasks
  }

  /** Dequeuing a task that is still in flight finds its entry there. */
  function Merges(s: Sched, m: Move, u: Task): bool {
    (m.Dequeue? || m.Dispatch?) && m.task == u && u in s.queue && u in s.inFlight
  }

  predicate Moved(a: nat, b: nat, added: bool, removed: bool) {
    b + One(removed) == a + One(added)
  }

  lemma EnqueueCounts(s: Sched, t: Task, r: Record, u: Task)
    ensures Moved(Occurrences(s, u), Occurrences(OnEnqueue(s, t, r), u), u == t, false)
  {
  }

  lemma DequeueCounts(s: Sched, t: Task, u: Task)
    ensures Moved(Occurrences(s, u), Occurrences(OnDequeue(s, t), u), false, u == t && t in s.queue && t in s.inFlight)
  {
  }

  lemma RecordOnly(s: Sched, n: Sched, u: Task)
    requires n == s.(tasks := n.tasks)
    ensures Occurrences(n, u) == Occurrences(s, u)
  {
  }

  lemma CompleteCounts(s: Sched, t: Task, output: Text, exitCode: int, now: int, u: Task)
    ensures Occurrences(OnComplete(s, t, output, exitCode, now), u) == Occurrences(s, u)
  {
    CountAppend(s.finished, t, u);
  }

  lemma SettleCounts(s: Sched, t: Task, r: Record, u: Task)
    requires t in s.inFlight
    ensures Occurrences(Settle(s, t, r), u) == Occurrences(s, u)
  {
    CountAppend(s.retry, t, u);
    CountAppend(s.dead, t, u);
  }

  lemma ReclaimCounts(s: Sched, t: Task, u: Task)
    ensures Occurrences(OnReclaim(s, t), u) == Occurrences(s, u)
  {
  }

  lemma ReleaseCounts(s: Sched, t: Task, u: Task)
    ensures Occurrences(OnRelease(s, t), u) == Occurrences(s, u)
  {
    CountRemove(s.retry, t, u);
  }

  lemma ReviveCounts(s: Sched, t: Task, u: Task)
    ensures Occurrences(OnRevive(s, t), u) == Occurrences(s, u)
  {
    CountRemove(s.dead, t, u);
  }

  lemma KnownStep(s: Sched, m: Move, u: Task)
    ensures u in Apply(s, m).tasks <==> u in s.tasks || (m.Enqueue? && m.task == u)
  {
    hide AfterFailure, AfterAssign, AfterStart, AfterComplete, AfterTransition, AfterRetryFromDLQ;
  }

  lemma DispatchCounts(s: Sched, t: Task, worker: Text, now: int, u: Task)
    ensures Occurrences(OnDispatch(s, t, worker, now), u) == Occurrences(OnDequeue(s, t), u)
  {
    if t in s.queue {
      RecordOnly(OnDequeue(s, t), OnDispatch(s, t, worker, now), u);
    }
  }

  lemma StepCounts(s: Sched, m: Move, u: Task)
    requires Possible(s, m)
    ensures Moved(Occurrences(s, u), Occurrences(Apply(s, m), u),
                  Duplicates(s, m, u) || (m.Enqueue? && m.task == u), Merges(s, m, u))
  {
    hide Occurrences, AfterFailure, Settle, OnDispatch, OnFail, OnExpire;
    match m
    case Enqueue(t, r) => EnqueueCounts(s, t, r, u);
    case Dequeue(t) => DequeueCounts(s, t, u);
    case Assign(t, worker, now) => RecordOnly(s, OnAssign(s, t, worker, now), u);
    case Start(t, now) => RecordOnly(s, OnStart(s, t, now), u);
    case SendFailed(t) =>
      if t in s.tasks {
        EnqueueCounts(s, t, s.tasks[t].(state := Queued, workerId := EMPTY_TEXT), u);
      }
    case Dispatch(t, worker, now) =>
      DequeueCounts(s, t, u);
      DispatchCounts(s, t, worker, now, u);
    case Complete(t, output, exitCode, now) => CompleteCounts(s, t, output, exitCode, now, u);
    case Fail(t, error, exitCode, now, jitter) =>
      if t in s.inFlight && t in s.tasks {
        FailCounts(s, t, error, exitCode, now, jitter, u);
      } else {
        NotInFlight(s, t, error, exitCode, now, jitter);
      }
    case Expire(t, now, jitter) =>
      if t in s.inFlight && t in s.tasks {
        FailCounts(s, t, TIMEOUT_MESSAGE, -1, now, jitter, u);
      } else {
        NotInFlight(s, t, TIMEOUT_MESSAGE, -1, now, jitter);
      }
    case Reclaim(t) => ReclaimCounts(s, t, u);
    case Release(t, now) => ReleaseCounts(s, t, u);
    case Revive(t) => ReviveCounts(s, t, u);
  }

  lemma NotInFlight(s: Sched, t: Task, error: Text, exitCode: int, now: int, jitter: nat)
    requires t !in s.inFlight || t !in s.tasks
    ensures OnFail(s, t, error, exitCode, now, jitter) == s && OnExpire(s, t, now, jitter) == s
  {
  }

  lemma FailCounts(s: Sched, t: Task, error: Text, exitCode: int, now: int, jitter: nat, u: Task)
    requires t in s.inFlight && t in s.tasks
    ensures Occurrences(OnFail(s, t, error, exitCode, now, jitter), u) == Occurrences(s, u)
    ensures Occurrences(OnExpire(s, t, now, jitter), u) == Occurrences(s, u)
  {
    SettleCounts(s, t, AfterFailure(s.tasks[t], error, exitCode, now, jitter), u);
    SettleCounts(s, t, AfterFailure(s.tasks[t], TIMEOUT_MESSAGE, -1, now, jitter), u);
    hide AfterFailure, Settle;
  }

  function FailedSends(ms: seq<Move>, t: Task): nat {
    if ms == [] then 0
    else FailedSends(ms[..|ms| - 1], t) + One(Duplicates(Exec(ms[..|ms| - 1]), ms[|ms| - 1], t))
  }

  function Merged(ms: seq<Move>, t: Task): nat {
    if ms == [] then 0
    else Merged(ms[..|ms| - 1], t) + One(Merges(Exec(ms[..|ms| - 1]), ms[|ms| - 1], t))
  }

  /** Over every run, the places that hold a known task are one, plus one for
      each failed send, less one for each dequeue that found it in flight. */
  lemma {:induction false} OccurrenceLaw(ms: seq<Move>, t: Task)
    requires Free(ms)
    ensures t in Exec(ms).tasks ==> Occurrences(Exec(ms), t) + Merged(ms, t) == 1 + FailedSends(ms, t)
    ensures t !in Exec(ms).tasks ==> Occurrences(Exec(ms), t) == Merged(ms, t) == FailedSends(ms, t) == 0
  {
    hide Occurrences;
    if ms == [] {
      assert Occurrences(EMPTY, t) == 0 by { NothingHeld(t); }
    } else {
      var before, m := ms[..|ms| - 1], ms[|ms| - 1];
      OccurrenceLaw(before, t);
      StepCounts(Exec(before), m, t);
      KnownStep(Exec(before), m, t);
      if Merges(Exec(before), m, t) && t !in Exec(before).tasks {
        HeldTwice(Exec(before), t);
      }
    }
  }

  lemma NothingHeld(t: Task)
    ensures Occurrences(EMPTY, t) == 0
  {
  }

  lemma HeldTwice(s: Sched, t: Task)
    requires t in s.queue && t in s.inFlight
    ensures Occurrences(s, t) >= 2
  {
  }

  /** No task is ever lost. */
  lemma {:induction false} NothingIsLost(ms: seq<Move>, t: Task)
    requires Free(ms) && t in Exec(ms).tasks
    ensures Occurrences(Exec(ms), t) >= 1
  {
    hide Occurrences;
    var before, m := ms[..|ms| - 1], ms[|ms| - 1];
    StepCounts(Exec(before), m, t);
    KnownStep(Exec(before), m, t);
    if t in Exec(before).tasks {
      NothingIsLost(before, t);
      if Merges(Exec(before), m, t) {
        HeldTwice(Exec(before), t);
      }
    }
  }

  /** A task is in exactly one place just when every failed send has been made
      good by a later dequeue. */
  lemma OnePlaceExactly(ms: seq<Move>, t: Task)
    requires Free(ms) && t in Exec(ms).tasks
    ensures Occurrences(Exec(ms), t) == 1 <==> FailedSends(ms, t) == Merged(ms, t)
  {
    hide Occurrences, Exec, Free;
    OccurrenceLaw(ms, t);
  }

  lemma FreeOneMore(ms: seq<Move>, m: Move)
    requires Free(ms) && Possible(Exec(ms), m)
    ensures Free(ms + [m]) && Exec(ms + [m]) == Apply(Exec(ms), m)
  {
    hide Apply, Possible;
    assert (ms + [m])[..|ms|] == ms;
  }

  /** A failed send leaves its task queued and in flight at once. */
  lemma FailedSendDuplicates(t: Task, worker: Text) returns (ms: seq<Move>)
    ensures ms == [Enqueue(t, Fresh(t.spec)), Dispatch(t, worker, 0), SendFailed(t)]
    ensures Free(ms) && Occurrences(Exec(ms), t) == 2
  {
    var queued, sending := [Enqueue(t, Fresh(t.spec))], [Enqueue(t, Fresh(t.spec)), Dispatch(t, worker, 0)];
    ms := sending + [SendFailed(t)];
    hide Exec, Free, Occurrences, AfterStart, AfterAssign;
    NoMoves();
    FreeOneMore([], Enqueue(t, Fresh(t.spec)));
    assert [] + queued == queued;
    NothingHeld(t);
    StepCounts(EMPTY, Enqueue(t, Fresh(t.spec)), t);
    FreeOneMore(queued, Dispatch(t, worker, 0));
    assert queued + [Dispatch(t, worker, 0)] == sending;
    StepCounts(Exec(queued), Dispatch(t, worker, 0), t);
    KnownStep(Exec(queued), Dispatch(t, worker, 0), t);
    FreeOneMore(sending, SendFailed(t));
    StepCounts(Exec(sending), SendFailed(t), t);
  }

  lemma NoMoves()
    ensures Free([]) && Exec([]) == EMPTY
  {
  }
}
