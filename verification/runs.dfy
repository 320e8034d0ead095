/** Whole runs of the scheduler in which a dispatch is one step: where every
    task is, what its state says, and which transitions happen. */
module Runs {
  import opened Basics
  import opened Clock
  import opened Tasks
  import opened SchedulerModel

  /** The moves possible in s. A report may concern any task, in flight or not. */
  predicate Allowed(s: Sched, m: Move) {
    match m
    case Enqueue(t, r) => t !in s.tasks && r == Fresh(t.spec)
    case Dispatch(t, _, _) => t in s.queue && Front(s, t)
    case Complete(_, _, _, _) => true
    case Fail(_, _, _, _, _) => true
    case Expire(t, now, _) => t in s.inFlight && t in s.tasks && Expired(s.tasks[t], now)
    case Reclaim(t) => t in s.inFlight
    case Release(t, now) => t in s.retry && t in s.tasks && now > s.tasks[t].nextRetryAt
    case Revive(t) => t in s.dead
    case Dequeue(_) => false
    case Assign(_, _, _) => false
    case Start(_, _) => false
    case SendFailed(_) => false
  }

  function Exec(ms: seq<Move>): Sched {
    Play(EMPTY, ms)
  }

  /** What any interleaving of the code's steps keeps to: new tasks are new. */
  predicate Possible(s: Sched, m: Move) {
    m.Enqueue? ==> m.task !in s.tasks && m.record == Fresh(m.task.spec)
  }

  /** Runs in which the steps of a dispatch may come apart and sends may fail. */
  predicate Free(ms: seq<Move>) {
    ms == [] || (Free(ms[..|ms| - 1]) && Possible(Exec(ms[..|ms| - 1]), ms[|ms| - 1]))
  }

  /** Runs in which only the tasks of `loose` may move in every possible way. */
  predicate LegalExcept(ms: seq<Move>, loose: set<Task>) {
    ms == [] ||
      (var before, m := ms[..|ms| - 1], ms[|ms| - 1];
       && LegalExcept(before, loose) && Possible(Exec(before), m)
       && (m.task in loose || Allowed(Exec(before), m)))
  }

  /** Runs in which every dispatch is one step and every send succeeds. */
  predicate Legal(ms: seq<Move>) {
    LegalExcept(ms, {})
  }

  /** How often a task occurs in each container. */
  datatype Counts = Counts(queued: nat, flying: nat, waiting: nat, dead: nat, done: nat)

  function CountsOf(s: Sched, t: Task): Counts {
    Counts(s.queue[t], One(t in s.inFlight), multiset(s.retry)[t], multiset(s.dead)[t], multiset(s.finished)[t])
  }

  const NOWHERE := Counts(0, 0, 0, 0, 0)

  /** Exactly one container holds the task, once, and the state says which. */
  predicate Agree(r: Record, c: Counts) {
    && r.state != Assigned && r.state != Failed
    && c == Counts(One(r.state == Queued), One(r.state == Running), One(r.state == Retrying),
                   One(r.state == Dead), One(r.state == Completed))
    && (r.state == Retrying ==> r.attempt < r.spec.maxRetries)
    && (r.state == Dead ==> r.attempt >= r.spec.maxRetries)
    && (r.state == Running || r.state == Completed ==> r.attempt >= 1)
  }

  /** What holds of t in s: an unknown task is nowhere. */
  predicate SoundFor(s: Sched, t: Task) {
    if t in s.tasks then s.tasks[t].spec == t.spec && Agree(s.tasks[t], CountsOf(s, t))
    else CountsOf(s, t) == NOWHERE
  }

  // What each operation does to its own task ...

  lemma CountAppend(q: seq<Task>, t: Task, u: Task)
    ensures multiset(q + [t])[u] == multiset(q)[u] + One(u == t)
  {
  }

  lemma CountRemove(q: seq<Task>, t: Task, u: Task)
    ensures t in q <==> multiset(q)[t] > 0
    ensures multiset(RemoveFirst(q, t))[u] == if u == t && t in q then multiset(q)[u] - 1 else multiset(q)[u]
  {
    RemoveFirstBag(q, t);
  }

  lemma EnqueueKeeps(s: Sched, t: Task)
    requires SoundFor(s, t) && t !in s.tasks
    ensures SoundFor(OnEnqueue(s, t, Fresh(t.spec)), t)
  {
  }

  lemma DispatchKeeps(s: Sched, t: Task, worker: Text, now: int)
    requires SoundFor(s, t)
    ensures SoundFor(OnDispatch(s, t, worker, now), t)
  {
  }

  lemma CompleteKeeps(s: Sched, t: Task, output: Text, exitCode: int, now: int)
    requires SoundFor(s, t)
    ensures SoundFor(OnComplete(s, t, output, exitCode, now), t)
  {
    CountAppend(s.finished, t, t);
  }

  /** A running task that fails or times out goes on to retry, or to
      dead-letter once its attempts are used up. */
  lemma FailureOutcome(r: Record, error: Text, exitCode: int, now: int, jitter: nat)
    requires r.state == Running
    ensures var f := AfterFailure(r, error, exitCode, now, jitter);
      && f.spec == r.spec && f.attempt == r.attempt && f.workerId == r.workerId
      && f.state == (if r.attempt >= r.spec.maxRetries then Dead else Retrying)
      && (f.state == Retrying ==> f.nextRetryAt == now + Backoff(r.attempt) + jitter)
  {
  }

  lemma SettleKeeps(s: Sched, t: Task, error: Text, exitCode: int, now: int, jitter: nat)
    requires SoundFor(s, t) && t in s.inFlight
    ensures SoundFor(Settle(s, t, AfterFailure(s.tasks[t], error, exitCode, now, jitter)), t)
  {
    FailureOutcome(s.tasks[t], error, exitCode, now, jitter);
    hide AfterFailure;
    CountAppend(s.retry, t, t);
    CountAppend(s.dead, t, t);
  }

  lemma ReclaimKeeps(s: Sched, t: Task)
    requires SoundFor(s, t)
    ensures SoundFor(OnReclaim(s, t), t)
  {
  }

  lemma ReleaseKeeps(s: Sched, t: Task)
    requires SoundFor(s, t)
    ensures SoundFor(OnRelease(s, t), t)
  {
    CountRemove(s.retry, t, t);
  }

  lemma ReviveKeeps(s: Sched, t: Task)
    requires SoundFor(s, t)
    ensures SoundFor(OnRevive(s, t), t)
  {
    CountRemove(s.dead, t, t);
  }

  lemma StepKeeps(s: Sched, m: Move)
    requires Allowed(s, m) && SoundFor(s, m.task)
    ensures SoundFor(Apply(s, m), m.task)
  {
    hide SoundFor, OnEnqueue, OnDispatch, OnComplete, OnReclaim, OnRelease, OnRevive, AfterFailure, Fresh;
    match m
    case Enqueue(t, r) => EnqueueKeeps(s, t);
    case Dispatch(t, worker, now) => DispatchKeeps(s, t, worker, now);
    case Complete(t, output, exitCode, now) => CompleteKeeps(s, t, output, exitCode, now);
    case Fail(t, error, exitCode, now, jitter) => FailKeeps(s, t, error, exitCode, now, jitter);
    case Expire(t, now, jitter) => FailKeeps(s, t, EMPTY_TEXT, 0, now, jitter);
    case Reclaim(t) => ReclaimKeeps(s, t);
    case Release(t, now) => ReleaseKeeps(s, t);
    case Revive(t) => ReviveKeeps(s, t);
  }

  lemma FailKeeps(s: Sched, t: Task, error: Text, exitCode: int, now: int, jitter: nat)
    requires SoundFor(s, t)
    ensures SoundFor(OnFail(s, t, error, exitCode, now, jitter), t)
    ensures SoundFor(OnExpire(s, t, now, jitter), t)
  {
    if t in s.inFlight {
      SettleKeeps(s, t, error, exitCode, now, jitter);
      SettleKeeps(s, t, TIMEOUT_MESSAGE, -1, now, jitter);
    }
    hide AfterFailure, Settle;
  }

  // ... and to the others: nothing.

  lemma OtherTasksStay(s: Sched, m: Move, u: Task)
    requires u != m.task
    ensures u in s.tasks <==> u in Apply(s, m).tasks
    ensures u in s.tasks ==> Apply(s, m).tasks[u] == s.tasks[u]
  {
    hide AfterFailure, AfterAssign, AfterStart, AfterComplete, AfterTransition, AfterRetryFromDLQ;
  }

  lemma OtherOfPutBack(s: Sched, t: Task, r: Record, u: Task)
    requires u != t
    ensures CountsOf(PutBack(s, t, r), u) == CountsOf(s, u)
  {
  }

  lemma OtherOfSettle(s: Sched, t: Task, r: Record, u: Task)
    requires u != t
    ensures CountsOf(Settle(s, t, r), u) == CountsOf(s, u)
  {
    CountAppend(s.retry, t, u);
    CountAppend(s.dead, t, u);
  }

  lemma OtherOfDispatch(s: Sched, t: Task, worker: Text, now: int, u: Task)
    requires u != t
    ensures CountsOf(OnDequeue(s, t), u) == CountsOf(s, u)
    ensures CountsOf(OnDispatch(s, t, worker, now), u) == CountsOf(s, u)
  {
    hide AfterAssign, AfterStart;
  }

  lemma OtherCountsStay(s: Sched, m: Move, u: Task)
    requires u != m.task
    ensures CountsOf(Apply(s, m), u) == CountsOf(s, u)
  {
    var t := m.task;
    hide AfterFailure, AfterAssign, AfterStart, AfterComplete, AfterTransition, AfterRetryFromDLQ, RemoveFirst;
    hide PutBack, Settle, OnDequeue, OnDispatch;
    match m
    case Enqueue(_, r) => OtherOfPutBack(s, t, r, u);
    case Dequeue(_) => OtherOfDispatch(s, t, EMPTY_TEXT, 0, u);
    case Dispatch(_, worker, now) => OtherOfDispatch(s, t, worker, now, u);
    case Assign(_, _, _) =>
    case Start(_, _) =>
    case Complete(_, _, _, _) => CountAppend(s.finished, t, u);
    case Fail(_, error, exitCode, now, jitter) =>
      if t in s.tasks {
        OtherOfSettle(s, t, AfterFailure(s.tasks[t], error, exitCode, now, jitter), u);
      }
    case Expire(_, now, jitter) =>
      if t in s.tasks {
        OtherOfSettle(s, t, AfterFailure(s.tasks[t], TIMEOUT_MESSAGE, -1, now, jitter), u);
      }
    case SendFailed(_) =>
      if t in s.tasks {
        OtherOfPutBack(s, t, s.tasks[t].(state := Queued, workerId := EMPTY_TEXT), u);
      }
    case Reclaim(_) =>
      if t in s.tasks {
        OtherOfPutBack(s.(inFlight := s.inFlight - {t}), t, s.tasks[t].(state := Queued, workerId := EMPTY_TEXT), u);
      }
    case Release(_, _) =>
      if t in s.tasks {
        CountRemove(s.retry, t, u);
        OtherOfPutBack(s.(retry := RemoveFirst(s.retry, t)), t, AfterTransition(s.tasks[t], Queued), u);
      }
    case Revive(_) =>
      if t in s.tasks {
        CountRemove(s.dead, t, u);
        OtherOfPutBack(s.(dead := RemoveFirst(s.dead, t)), t, AfterRetryFromDLQ(s.tasks[t]), u);
      }
  }

  /** Over every run a known task is in exactly one container, the one its state
      names, and an unknown one is in none - whatever other tasks go through. */
  lemma {:induction false} ContainerDeterminesState(ms: seq<Move>, loose: set<Task>, u: Task)
    requires LegalExcept(ms, loose) && u !in loose
    ensures SoundFor(Exec(ms), u)
  {
    hide Apply, Allowed, Agree;
    if ms != [] {
      var before, m := ms[..|ms| - 1], ms[|ms| - 1];
      ContainerDeterminesState(before, loose, u);
      if m.task == u {
        StepKeeps(Exec(before), m);
      } else {
        OtherTasksStay(Exec(before), m, u);
        OtherCountsStay(Exec(before), m, u);
      }
    } else {
      NothingAtFirst(u);
    }
  }

  lemma NothingAtFirst(u: Task)
    ensures SoundFor(EMPTY, u)
  {
  }

  lemma {:induction false} LegalIsFree(ms: seq<Move>, loose: set<Task>)
    requires LegalExcept(ms, loose)
    ensures Free(ms)
  {
    hide Possible, Exec;
    if ms != [] {
      LegalIsFree(ms[..|ms| - 1], loose);
    }
  }

  /** With more tasks loose a run stays legal. */
  lemma {:induction false} MoreLoose(ms: seq<Move>, loose: set<Task>, more: set<Task>)
    requires LegalExcept(ms, loose) && loose <= more
    ensures LegalExcept(ms, more)
  {
    hide Possible, Exec, Allowed;
    if ms != [] {
      MoreLoose(ms[..|ms| - 1], loose, more);
    }
  }

  lemma LegalOneMore(ms: seq<Move>, loose: set<Task>, m: Move)
    requires LegalExcept(ms, loose) && Possible(Exec(ms), m) && (m.task in loose || Allowed(Exec(ms), m))
    ensures LegalExcept(ms + [m], loose) && Exec(ms + [m]) == Apply(Exec(ms), m)
  {
    assert (ms + [m])[..|ms|] == ms;
    hide Apply, Possible, Allowed;
  }

  lemma AllowedIsPossible(s: Sched, m: Move)
    requires Allowed(s, m)
    ensures Possible(s, m)
  {
    hide Front, Expired;
  }

  /** The specification of a task never changes. */
  lemma {:induction false} SpecKept(ms: seq<Move>, t: Task)
    requires Free(ms) && t in Exec(ms).tasks
    ensures Exec(ms).tasks[t].spec == t.spec
  {
    hide Apply, Fresh;
    var before, m := ms[..|ms| - 1], ms[|ms| - 1];
    if m.task != t {
      OtherTasksStay(Exec(before), m, t);
    }
    if t in Exec(before).tasks {
      SpecKept(before, t);
    }
    if m.task == t {
      SpecStep(Exec(before), m);
    }
  }

  lemma FailureKeepsSpec(r: Record, error: Text, exitCode: int, now: int, jitter: nat)
    ensures AfterFailure(r, error, exitCode, now, jitter).spec == r.spec
  {
    hide Backoff;
  }

  lemma SpecStep(s: Sched, m: Move)
    requires Possible(s, m) && m.task in Apply(s, m).tasks
    requires m.task in s.tasks ==> s.tasks[m.task].spec == m.task.spec
    ensures Apply(s, m).tasks[m.task].spec == m.task.spec
  {
    if m.task in s.tasks {
      if m.Fail? {
        FailureKeepsSpec(s.tasks[m.task], m.error, m.exitCode, m.now, m.jitter);
      } else if m.Expire? {
        FailureKeepsSpec(s.tasks[m.task], TIMEOUT_MESSAGE, -1, m.now, m.jitter);
      }
    }
    hide AfterFailure, RemoveFirst;
  }
}
