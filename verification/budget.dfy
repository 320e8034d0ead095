/** Attempts, retries and dead-lettering over whole runs. */
module Budget {
  import opened Basics
  import opened Tasks
  import opened SchedulerModel
  import opened Runs
  import opened Accounts

  /** What happened to a task since it was enqueued or last revived. `fatal`
      counts the failures and timeouts that found its attempts used up. */
  datatype Tally = Tally(failures: nat, timeouts: nat, reclaims: nat, fatal: nat)

  const NO_TALLY := Tally(0, 0, 0, 0)

  function UsedUp(s: Sched, t: Task): bool {
    t in s.tasks && s.tasks[t].attempt >= s.tasks[t].spec.maxRetries
  }

  function Score(y: Tally, k: Kind, usedUp: bool): Tally {
    match k
    case Enqueued => NO_TALLY
    case Revived => NO_TALLY
    case Failure => y.(failures := y.failures + 1, fatal := y.fatal + One(usedUp))
    case Timeout => y.(timeouts := y.timeouts + 1, fatal := y.fatal + One(usedUp))
    case Reclaimed => y.(reclaims := y.reclaims + 1)
    case Dispatched => y
    case Succeeded => y
    case Released => y
    case Ignored => y
  }

  function TallyOf(ms: seq<Move>, t: Task): Tally {
    if ms == [] then NO_TALLY
    else
      var before, m := ms[..|ms| - 1], ms[|ms| - 1];
      if m.task != t then TallyOf(before, t)
      else Score(TallyOf(before, t), KindOf(Exec(before), m), UsedUp(Exec(before), t))
  }

  /** The attempt number is the sum of what ended an attempt, and of the attempt under way. */
  predicate AttemptsAddUp(r: Record, y: Tally) {
    r.attempt == y.failures + y.timeouts + y.reclaims + One(r.state == Running || r.state == Completed)
  }

  /** A task dies exactly of its first failure or timeout with no attempts left. */
  predicate DiesOnce(r: Record, y: Tally) {
    y.fatal == One(r.state == Dead)
  }

  predicate WithinBudget(r: Record, y: Tally) {
    y.failures + y.timeouts <= if r.state == Dead then Max(1, r.spec.maxRetries) else Max(0, r.spec.maxRetries - 1)
  }

  predicate Accounted(r: Record, y: Tally) {
    AttemptsAddUp(r, y) && DiesOnce(r, y) && WithinBudget(r, y)
  }

  /** How a move of kind k changes the record of its task. */
  predicate Evolves(r: Record, n: Record, k: Kind) {
    && n.spec == r.spec
    && match k
       case Dispatched => r.state == Queued && n.state == Running && n.attempt == r.attempt + 1
       case Succeeded => r.state == Running && n.state == Completed && n.attempt == r.attempt
       case Failure => EndsBadly(r, n)
       case Timeout => EndsBadly(r, n)
       case Reclaimed => r.state == Running && n.state == Queued && n.attempt == r.attempt
       case Released => r.state == Retrying && n.state == Queued && n.attempt == r.attempt
       case Revived => r.state == Dead && n.state == Queued && n.attempt == 0
       case Enqueued => n.state == Queued && n.attempt == 0
       case Ignored => n == r
  }

  predicate EndsBadly(r: Record, n: Record) {
    && r.state == Running && n.attempt == r.attempt
    && n.state == if r.attempt >= r.spec.maxRetries then Dead else Retrying
  }

  /** The record of the task of an effective move, after the move. */
  function NextRecord(r: Record, m: Move): Record {
    match m
    case Dispatch(_, worker, now) => AfterStart(AfterAssign(r, worker, now), now)
    case Complete(_, output, exitCode, now) => AfterComplete(r, output, exitCode, now)
    case Fail(_, error, exitCode, now, jitter) => AfterFailure(r, error, exitCode, now, jitter)
    case Expire(_, now, jitter) => AfterFailure(r, TIMEOUT_MESSAGE, -1, now, jitter)
    case Reclaim(_) => r.(state := Queued, workerId := EMPTY_TEXT)
    case Release(_, _) => AfterTransition(r, Queued)
    case Revive(_) => AfterRetryFromDLQ(r)
    case Enqueue(_, first) => first
    case Dequeue(_) => r
    case Assign(_, worker, now) => AfterAssign(r, worker, now)
    case Start(_, now) => AfterStart(r, now)
    case SendFailed(_) => r.(state := Queued, workerId := EMPTY_TEXT)
  }

  lemma HeldIsKnown(s: Sched, t: Task)
    requires SoundFor(s, t)
    ensures t in s.queue || t in s.inFlight || t in s.retry || t in s.dead ==> t in s.tasks
  {
    CountRemove(s.retry, t, t);
    CountRemove(s.dead, t, t);
  }

  lemma RecordsStep(s: Sched, m: Move)
    requires Allowed(s, m) && SoundFor(s, m.task)
    ensures KindOf(s, m) == Ignored ==> Apply(s, m) == s
    ensures KindOf(s, m) != Ignored ==>
      && (!m.Enqueue? ==> m.task in s.tasks)
      && Apply(s, m).tasks == s.tasks[m.task := NextRecord(if m.Enqueue? then m.record else s.tasks[m.task], m)]
  {
    HeldIsKnown(s, m.task);
    hide SoundFor, Front, Expired, Fresh, RemoveFirst;
    hide AfterFailure, AfterAssign, AfterStart, AfterComplete, AfterTransition, AfterRetryFromDLQ;
  }

  lemma EvolvesStep(s: Sched, m: Move)
    requires Allowed(s, m) && SoundFor(s, m.task) && m.task in s.tasks
    ensures m.task in Apply(s, m).tasks
    ensures Evolves(s.tasks[m.task], Apply(s, m).tasks[m.task], KindOf(s, m))
    ensures UsedUp(s, m.task) <==> s.tasks[m.task].attempt >= s.tasks[m.task].spec.maxRetries
  {
    RecordsStep(s, m);
    if KindOf(s, m) != Ignored {
      SourceState(s, m);
      NextEvolves(s.tasks[m.task], m, KindOf(s, m));
    }
    hide Apply, KindOf, NextRecord;
  }

  /** The state an effective move finds its task in. */
  predicate StartsFrom(r: Record, k: Kind) {
    match k
    case Dispatched => r.state == Queued
    case Released => r.state == Retrying
    case Revived => r.state == Dead
    case Enqueued => false
    case Ignored => true
    case Succeeded => r.state == Running
    case Failure => r.state == Running
    case Timeout => r.state == Running
    case Reclaimed => r.state == Running
  }

  lemma SourceState(s: Sched, m: Move)
    requires Allowed(s, m) && SoundFor(s, m.task) && m.task in s.tasks
    ensures StartsFrom(s.tasks[m.task], KindOf(s, m))
  {
    CountRemove(s.retry, m.task, m.task);
    CountRemove(s.dead, m.task, m.task);
  }

  predicate Does(m: Move, k: Kind) {
    match m
    case Enqueue(_, _) => k == Enqueued
    case Dispatch(_, _, _) => k == Dispatched
    case Complete(_, _, _, _) => k == Succeeded
    case Fail(_, _, _, _, _) => k == Failure
    case Expire(_, _, _) => k == Timeout
    case Reclaim(_) => k == Reclaimed
    case Release(_, _) => k == Released
    case Revive(_) => k == Revived
    case Dequeue(_) => false
    case Assign(_, _, _) => false
    case Start(_, _) => false
    case SendFailed(_) => false
  }

  lemma NextEvolves(r: Record, m: Move, k: Kind)
    requires Does(m, k) && StartsFrom(r, k)
    ensures Evolves(r, NextRecord(r, m), k)
  {
    if m.Fail? {
      FailureOutcome(r, m.error, m.exitCode, m.now, m.jitter);
    } else if m.Expire? {
      FailureOutcome(r, TIMEOUT_MESSAGE, -1, m.now, m.jitter);
    }
    hide AfterFailure;
  }

  lemma AccountedStep(r: Record, y: Tally, n: Record, k: Kind, usedUp: bool)
    requires Accounted(r, y) && Evolves(r, n, k) && usedUp == (r.attempt >= r.spec.maxRetries)
    ensures Accounted(n, Score(y, k, usedUp))
  {
    assert AttemptsAddUp(n, Score(y, k, usedUp)) by {
      hide DiesOnce, WithinBudget;
    }
    assert DiesOnce(n, Score(y, k, usedUp)) by {
      hide AttemptsAddUp, WithinBudget;
    }
    assert WithinBudget(n, Score(y, k, usedUp)) by {
      hide DiesOnce;
    }
    hide AttemptsAddUp, DiesOnce, WithinBudget;
  }

  lemma {:induction false} RetryBudget(ms: seq<Move>, loose: set<Task>, t: Task)
    requires LegalExcept(ms, loose) && t !in loose && t in Exec(ms).tasks
    ensures Accounted(Exec(ms).tasks[t], TallyOf(ms, t))
  {
    hide Accounted, Evolves, Score, Apply, Allowed, SoundFor, KindOf, UsedUp;
    var before, m := ms[..|ms| - 1], ms[|ms| - 1];
    var s := Exec(before);
    ContainerDeterminesState(before, loose, t);
    if m.task != t {
      OtherTasksStay(s, m, t);
      RetryBudget(before, loose, t);
    } else if t in s.tasks {
      RetryBudget(before, loose, t);
      EvolvesStep(s, m);
      AccountedStep(s.tasks[t], TallyOf(before, t), Exec(ms).tasks[t], KindOf(s, m), UsedUp(s, t));
    } else {
      FirstSeen(s, m);
      FreshAccounted(t.spec, TallyOf(before, t));
    }
  }

  lemma FirstSeen(s: Sched, m: Move)
    requires Allowed(s, m) && SoundFor(s, m.task) && m.task !in s.tasks && m.task in Apply(s, m).tasks
    ensures m.Enqueue? && KindOf(s, m) == Enqueued && !UsedUp(s, m.task)
    ensures Apply(s, m).tasks[m.task] == Fresh(m.task.spec)
  {
    CountRemove(s.retry, m.task, m.task);
    CountRemove(s.dead, m.task, m.task);
  }

  lemma KnownIsNotEnqueued(s: Sched, m: Move)
    requires Allowed(s, m) && m.task in s.tasks
    ensures !m.Enqueue?
  {
  }

  lemma FreshAccounted(spec: Spec, y: Tally)
    ensures Accounted(Fresh(spec), Score(y, Enqueued, false))
  {
    var r := Fresh(spec);
    assert r.state == Queued && r.attempt == 0;
    hide Fresh;
  }
}
