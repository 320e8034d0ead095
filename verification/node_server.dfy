/** The master's server object: every operation that touches the scheduler or
    the store, proved to extend a run of the models. */
module NodeServers {
  import opened Basics
  import opened Clock
  import opened Tasks
  import opened Scheduling
  import opened BadgerStore
  import opened Runs
  import opened Accounts
  import opened Transitions
  import opened Recovery
  import opened Interleavings
  import opened Trails
  import opened Deadlines
  import opened RetryTiming
  import M = SchedulerModel
  import Sweeps
  import CircuitBreakers
  import BreakerRegistry
  import FailureDetector

  // What one more move does to a run, to the scheduler and to the store.

  lemma SavedOneMore(log: seq<M.Move>, m: M.Move)
    ensures Saved(log + [m]) ==
      if SavedBy(Exec(log), m) && m.task in M.Apply(Exec(log), m).tasks
      then Saved(log)[m.task.spec.id := M.Apply(Exec(log), m).tasks[m.task]]
      else Saved(log)
  {
    hide M.Apply, SavedBy;
    assert (log + [m])[..|log|] == log;
    M.PlayOneMore(M.EMPTY, log, m);
    hide M.Play;
  }

  /** Moves that are not saved: the tasks of a sweep, a revival, a failed send. */
  predicate Unsaved(m: M.Move) {
    m.Reclaim? || m.Release? || m.Expire? || m.Revive? || m.SendFailed?
  }

  lemma NothingSaved(s: M.Sched, m: M.Move)
    requires Unsaved(m)
    ensures Possible(s, m) && !SavedBy(s, m)
  {
  }

  lemma {:induction false} SavedAsBefore(log: seq<M.Move>, ns: seq<M.Move>)
    requires forall m :: m in ns ==> Unsaved(m)
    ensures Saved(log + ns) == Saved(log)
  {
    hide Exec, Saved, M.Apply, SavedBy, Unsaved;
    if ns == [] {
      assert log + ns == log;
    } else {
      var k := |ns| - 1;
      SavedAsBefore(log, ns[..k]);
      NothingSaved(Exec(log + ns[..k]), ns[k]);
      SavedOneMore(log + ns[..k], ns[k]);
      assert log + ns == log + ns[..k] + [ns[k]];
    }
  }

  lemma OutcomesOfOne(s: M.Sched, m: M.Move)
    ensures M.OutcomesOf(s, [m]) == M.Outcomes(s, m)
  {
    hide M.Outcomes, M.Apply;
    assert [m][..0] == [] && [] + M.Outcomes(s, m) == M.Outcomes(s, m);
  }

  /** A move the server makes of a task: the run goes on, and dropped errors are about loose tasks. */
  lemma LogOneMore(log: seq<M.Move>, loose: set<Task>, m: M.Move)
    requires LegalExcept(log, loose) && Possible(Exec(log), m) && (m.task in loose || Allowed(Exec(log), m))
    ensures LegalExcept(log + [m], loose) && Exec(log + [m]) == M.Apply(Exec(log), m)
    ensures Blames(M.Outcomes(Exec(log), m), loose)
  {
    hide Exec, LegalExcept, Possible, Allowed, M.Apply, M.Outcomes, M.OutcomesOf, Blames;
    LegalOneMore(log, loose, m);
    DroppedErrors(log, [m], loose);
    OutcomesOfOne(Exec(log), m);
  }

  lemma LogEnqueue(log: seq<M.Move>, loose: set<Task>, t: Task)
    requires LegalExcept(log, loose) && t !in Exec(log).tasks
    ensures var m, s := M.Enqueue(t, Fresh(t.spec)), Exec(log);
      && LegalExcept(log + [m], loose) && Exec(log + [m]) == M.OnEnqueue(s, t, Fresh(t.spec))
      && Saved(log + [m]) == Saved(log)[t.spec.id := Fresh(t.spec)]
  {
    hide Exec, Saved, LegalExcept, Fresh;
    LogOneMore(log, loose, M.Enqueue(t, Fresh(t.spec)));
    SavedOneMore(log, M.Enqueue(t, Fresh(t.spec)));
  }

  lemma LogComplete(log: seq<M.Move>, loose: set<Task>, t: Task, output: Text, exitCode: int, now: int)
    requires LegalExcept(log, loose) && t in Exec(log).inFlight && t in Exec(log).tasks
    ensures var m, s := M.Complete(t, output, exitCode, now), Exec(log);
      && LegalExcept(log + [m], loose) && Exec(log + [m]) == M.OnComplete(s, t, output, exitCode, now)
      && t in Exec(log + [m]).tasks
      && Saved(log + [m]) == Saved(log)[t.spec.id := Exec(log + [m]).tasks[t]]
      && Blames(M.Outcomes(s, m), loose)
  {
    hide Exec, Saved, LegalExcept, Blames, M.Outcomes;
    LogOneMore(log, loose, M.Complete(t, output, exitCode, now));
    SavedOneMore(log, M.Complete(t, output, exitCode, now));
  }

  lemma LogFail(log: seq<M.Move>, loose: set<Task>, t: Task, error: Text, exitCode: int, now: int, jitter: nat)
    requires LegalExcept(log, loose) && t in Exec(log).inFlight && t in Exec(log).tasks
    ensures var m, s := M.Fail(t, error, exitCode, now, jitter), Exec(log);
      && LegalExcept(log + [m], loose) && Exec(log + [m]) == M.OnFail(s, t, error, exitCode, now, jitter)
      && t in Exec(log + [m]).tasks
      && Saved(log + [m]) == Saved(log)[t.spec.id := Exec(log + [m]).tasks[t]]
      && Blames(M.Outcomes(s, m), loose)
  {
    hide Exec, Saved, LegalExcept, Blames, M.Outcomes, AfterFailure;
    LogOneMore(log, loose, M.Fail(t, error, exitCode, now, jitter));
    SavedOneMore(log, M.Fail(t, error, exitCode, now, jitter));
  }

  /** What a report does to a running task. */
  predicate EndsAs(r: Record, n: Record, completed: bool, output: Text, error: Text, exitCode: int, now: int) {
    if completed then n == r.(state := Completed, output := output, exitCode := exitCode, completedAt := now)
    else
      && n.state == (if r.attempt >= r.spec.maxRetries then Dead else Retrying)
      && n == r.(state := n.state, error := error, exitCode := exitCode, completedAt := now,
                 nextRetryAt := n.nextRetryAt)
  }

  lemma CompletedFields(log: seq<M.Move>, loose: set<Task>, t: Task, output: Text, exitCode: int, now: int)
    requires LegalExcept(log, loose) && t in Exec(log).inFlight && t in Exec(log).tasks
    ensures var s, n := Exec(log), M.OnComplete(Exec(log), t, output, exitCode, now);
      && t in n.tasks && (t !in loose ==> s.tasks[t].state == Running)
      && (s.tasks[t].state == Running ==>
           EndsAs(s.tasks[t], n.tasks[t], true, output, EMPTY_TEXT, exitCode, now))
  {
    hide Exec, LegalExcept;
    if t !in loose {
      ContainerDeterminesState(log, loose, t);
    }
  }

  lemma FailedFields(log: seq<M.Move>, loose: set<Task>, t: Task, error: Text, exitCode: int, now: int, jitter: nat)
    requires LegalExcept(log, loose) && t in Exec(log).inFlight && t in Exec(log).tasks
    ensures var s, n := Exec(log), M.OnFail(Exec(log), t, error, exitCode, now, jitter);
      && t in n.tasks && (t !in loose ==> s.tasks[t].state == Running)
      && (s.tasks[t].state == Running ==>
           EndsAs(s.tasks[t], n.tasks[t], false, EMPTY_TEXT, error, exitCode, now))
  {
    hide Exec, LegalExcept, Backoff;
    if t !in loose {
      ContainerDeterminesState(log, loose, t);
    }
  }

  /** A task assigned and started. */
  function Started(s: M.Sched, t: Task, worker: Text, now: int): M.Sched
    requires t in s.tasks
  {
    s.(tasks := s.tasks[t := AfterStart(AfterAssign(s.tasks[t], worker, now), now)])
  }

  lemma DispatchByParts(s: M.Sched, t: Task, worker: Text, now: int)
    requires t in s.queue && t in s.tasks
    ensures M.OnDispatch(s, t, worker, now) == Started(M.OnDequeue(s, t), t, worker, now)
    ensures M.DispatchOutcomes(s.tasks[t], t.spec.id) == M.Outcomes(s, M.Dispatch(t, worker, now))
  {
    hide AfterStart, AfterAssign, M.DispatchOutcomes;
  }

  lemma LogDispatch(log: seq<M.Move>, loose: set<Task>, t: Task, worker: Text, now: int)
    requires LegalExcept(log, loose) && t in Exec(log).queue && t in Exec(log).tasks && M.Front(Exec(log), t)
    ensures var m, s := M.Dispatch(t, worker, now), Exec(log);
      && LegalExcept(log + [m], loose) && Exec(log + [m]) == Started(M.OnDequeue(s, t), t, worker, now)
      && t in Exec(log + [m]).tasks
      && Saved(log + [m]) == Saved(log)[t.spec.id := Exec(log + [m]).tasks[t]]
      && Blames(M.Outcomes(s, m), loose)
  {
    hide Exec, Saved, LegalExcept, Blames, M.Outcomes, M.Front, M.OnDispatch;
    LogOneMore(log, loose, M.Dispatch(t, worker, now));
    SavedOneMore(log, M.Dispatch(t, worker, now));
    DispatchByParts(Exec(log), t, worker, now);
  }

  /** A queued task that is dispatched runs on that worker from that time on. */
  lemma LaunchedFields(log: seq<M.Move>, loose: set<Task>, t: Task, worker: Text, now: int)
    requires LegalExcept(log, loose) && t in Exec(log).queue && t in Exec(log).tasks
    ensures var r := Exec(log).tasks[t];
      && (t !in loose ==> r.state == Queued)
      && (r.state == Queued ==>
           AfterStart(AfterAssign(r, worker, now), now)
             == r.(state := Running, workerId := worker, assignedAt := now, startedAt := now,
                   attempt := r.attempt + 1))
  {
    hide Exec, LegalExcept;
    if t !in loose {
      ContainerDeterminesState(log, loose, t);
    }
  }

  lemma PutBackTwice(s: M.Sched, t: Task, r: Record)
    ensures M.PutBack(s.(tasks := s.tasks[t := r]), t, r) == M.PutBack(s, t, r)
  {
  }

  /** After a failed send the task is loose. */
  lemma LogSendFailed(log: seq<M.Move>, loose: set<Task>, t: Task)
    requires LegalExcept(log, loose) && t in Exec(log).tasks
    ensures var m, s := M.SendFailed(t), Exec(log);
      && LegalExcept(log + [m], loose + {t}) && Saved(log + [m]) == Saved(log)
      && Exec(log + [m]) == M.PutBack(s, t, s.tasks[t].(state := Queued, workerId := EMPTY_TEXT))
  {
    hide Exec, Saved, LegalExcept, Blames;
    MoreLoose(log, loose, loose + {t});
    LogOneMore(log, loose + {t}, M.SendFailed(t));
    SavedOneMore(log, M.SendFailed(t));
  }

  lemma LogRevive(log: seq<M.Move>, loose: set<Task>, t: Task)
    requires LegalExcept(log, loose) && t in Exec(log).dead
    ensures var m := M.Revive(t);
      && LegalExcept(log + [m], loose)
      && Exec(log + [m]) == M.OnRevive(Exec(log), t) && Saved(log + [m]) == Saved(log)
      && Blames(M.Outcomes(Exec(log), m), loose)
  {
    hide Exec, Saved, LegalExcept, Blames, M.Outcomes;
    LogOneMore(log, loose, M.Revive(t));
    SavedOneMore(log, M.Revive(t));
  }

  // The sweeps: nothing is saved, and the run stays legal.

  lemma {:induction false} SweepsUnsaved(order: seq<Task>, now: int, jitter: TaskId -> nat)
    ensures forall m :: m in Reclaims(order) ==> Unsaved(m)
    ensures forall m :: m in Releases(order, now) ==> Unsaved(m)
    ensures forall m :: m in Expiries(order, now, jitter) ==> Unsaved(m)
  {
    if order != [] {
      SweepsUnsaved(order[..|order| - 1], now, jitter);
    }
  }

  lemma LogReclaims(log: seq<M.Move>, loose: set<Task>, order: seq<Task>, worker: Text)
    requires LegalExcept(log, loose) && Enumerates(order, Owned(Exec(log), worker))
    ensures var ns := Reclaims(order);
      && LegalExcept(log + ns, loose) && Exec(log + ns) == M.Play(Exec(log), ns) && Saved(log + ns) == Saved(log)
      && Owned(Exec(log + ns), worker) == {} && Exec(log + ns).queue == Exec(log).queue + multiset(order)
  {
    hide Exec, Saved, LegalExcept, M.Play, Enumerates, Unsaved;
    SweepsUnsaved(order, 0, _ => 0);
    SavedAsBefore(log, Reclaims(order));
    Sweeps.RequeueIsLegal(log, loose, order, worker);
    Sweeps.LostWorkerSweepExact(Exec(log), order, worker);
  }

  lemma LogExpiries(log: seq<M.Move>, loose: set<Task>, order: seq<Task>, now: int, jitter: TaskId -> nat)
    requires LegalExcept(log, loose) && Enumerates(order, Overdue(Exec(log), now))
    ensures var ns := Expiries(order, now, jitter);
      && LegalExcept(log + ns, loose) && Exec(log + ns) == M.Play(Exec(log), ns) && Saved(log + ns) == Saved(log)
      && Overdue(Exec(log + ns), now) == {}
      && Blames(M.OutcomesOf(Exec(log), ns), loose)
  {
    hide Exec, Saved, LegalExcept, M.Play, Enumerates, Unsaved, Blames, M.OutcomesOf, Sweeps.Swept;
    SweepsUnsaved(order, now, jitter);
    SavedAsBefore(log, Expiries(order, now, jitter));
    Sweeps.TimeoutSweepIsLegal(log, loose, order, now, jitter);
    Sweeps.TimeoutSweepExact(Exec(log), order, now, jitter);
    DroppedErrors(log, Expiries(order, now, jitter), loose);
  }

  lemma LogReleases(log: seq<M.Move>, loose: set<Task>, now: int)
    requires LegalExcept(log, loose) && forall t :: t in Exec(log).retry ==> t in Exec(log).tasks
    ensures var ns := Releases(ByDue(Exec(log).tasks, Exec(log).retry, now, true), now);
      && LegalExcept(log + ns, loose) && Exec(log + ns) == M.Play(Exec(log), ns) && Saved(log + ns) == Saved(log)
      && Sweeps.Requeued(Exec(log), Exec(log + ns), ByDue(Exec(log).tasks, Exec(log).retry, now, true))
      && Exec(log + ns).queue == Exec(log).queue + multiset(ByDue(Exec(log).tasks, Exec(log).retry, now, true))
      && Blames(M.OutcomesOf(Exec(log), ns), loose)
  {
    hide Exec, Saved, LegalExcept, M.Play, Unsaved, Blames, M.OutcomesOf, ByDue, Releases, Sweeps.RequeuedRecords;
    Sweeps.RetrySweepExact(Exec(log), now);
    var due := ByDue(Exec(log).tasks, Exec(log).retry, now, true);
    SweepsUnsaved(due, now, _ => 0);
    SavedAsBefore(log, Releases(due, now));
    Sweeps.RetriesAreLegal(log, loose, now);
    DroppedErrors(log, Releases(due, now), loose);
  }

  /** A tick that releases what is due and keeps the rest: exactly the tasks whose
      wait is over go, and none is left waiting past its time. */
  lemma TickOverRun(log: seq<M.Move>, log': seq<M.Move>, loose: set<Task>, now: int, released: seq<Task>)
    requires LegalExcept(log, loose) && LegalExcept(log', loose)
    requires Sweeps.Requeued(Exec(log), Exec(log'), released)
    requires Parts(Exec(log).retry, released, Exec(log').retry)
    requires forall t :: t in Exec(log).retry ==> t in Exec(log).tasks
    requires forall t :: t in released ==> t in Exec(log).tasks && now > Exec(log).tasks[t].nextRetryAt
    requires forall t :: t in Exec(log').retry ==> t in Exec(log).tasks && now <= Exec(log).tasks[t].nextRetryAt
    ensures forall t :: t in Exec(log).retry && WaitsExactly(t, loose) ==>
      (t in released <==> t in Exec(log).tasks && WaitIsOver(log, t, now))
    ensures forall t :: t in Exec(log').retry && WaitsExactly(t, loose) ==>
      t in Exec(log').tasks && !WaitIsOver(log', t, now)
  {
    hide Exec, LegalExcept, WaitIsOver, WaitsExactly, Parts;
    PartsElements(Exec(log).retry, released, Exec(log').retry);
    DueOverRun(log, loose, now);
    DueOverRun(log', loose, now);
    forall t | t in Exec(log).retry && WaitsExactly(t, loose)
      ensures t in released <==> WaitIsOver(log, t, now)
    {
      assert now > Exec(log).tasks[t].nextRetryAt <==> WaitIsOver(log, t, now);
      assert t in released || t in Exec(log').retry;
    }
  }

  /** The moves of one report; none if its task is not in flight. */
  function MovesOfReport(t: Task?, completed: bool, output: Text, error: Text,
                         exitCode: int, now: int, jitter: nat): seq<M.Move> {
    if t == null then []
    else if completed then [M.Complete(t, output, exitCode, now)]
    else [M.Fail(t, error, exitCode, now, jitter)]
  }

  /** The moves of one turn of a dispatch loop. */
  function MovesOfTurn(t: Task?, worker: Text, now: int, sent: bool): seq<M.Move> {
    if t == null then []
    else if sent then [M.Dispatch(t, worker, now)]
    else [M.Dispatch(t, worker, now), M.SendFailed(t)]
  }

  /** One turn of a dispatch loop that its breaker lets through: nothing on an
      empty queue; else a front task is dispatched, and put back if the send
      fails. Dropped errors are about tasks loose before. */
  ghost predicate Turn(s: M.Sched, t: Task?, worker: Text, now: int, sent: bool, dropped: seq<Outcome>,
                       log: seq<M.Move>, log': seq<M.Move>, loose: set<Task>, loose': set<Task>) {
    && (t == null <==> s.queue == multiset{})
    && (t != null ==> t in s.queue && forall u :: u in s.queue ==>
         || u.spec.priority < t.spec.priority
         || (u.spec.priority == t.spec.priority && t.spec.createdAt <= u.spec.createdAt))
    && log' == log + MovesOfTurn(t, worker, now, sent)
    && loose' == (if t != null && !sent then loose + {t} else loose)
    && Blames(dropped, loose)
  }

  class NodeServer {
    const scheduler: Scheduler
    const store: Store
    const breakers: BreakerRegistry.Registry
    const workers: FailureDetector.WorkerTable

    ghost var log: seq<M.Move>    // what has happened so far
    ghost var unsent: set<Task>   // the tasks a send of which has failed

    /** The scheduler and the store are what the run so far makes of them. */
    ghost predicate Valid()
      reads this, scheduler, scheduler.records.Keys, store
    {
      && scheduler.Valid()
      && scheduler.View() == Exec(log) && store.db == Saved(log)
      && LegalExcept(log, unsent)
    }

    constructor (detection: FailureDetector.Config)
      ensures Valid() && log == [] && unsent == {}
      ensures breakers.Valid() && breakers.conf == CircuitBreakers.Config(5, 2, 30 * SECOND) && workers.Valid()
    {
      scheduler := new Scheduler();
      store := new Store();
      breakers := new BreakerRegistry.Registry(CircuitBreakers.Config(5, 2, 30 * SECOND));
      workers := new FailureDetector.WorkerTable(detection);
      log, unsent := [], {};
    }

    // Every operation returns, as a ghost, the outcomes of the Task calls whose
    // errors the code drops: an error there is about a task whose send failed.

    method Enqueue(t: Task)
      requires Valid() && t !in scheduler.records && UniqueIds(scheduler.records.Keys + {t})
      requires t.Value() == Fresh(t.spec)
      modifies `log, scheduler, scheduler.notify, store
      ensures scheduler.Signalled()
      ensures Valid() && log == old(log) + [M.Enqueue(t, Fresh(t.spec))] && unsent == old(unsent)
    {
      hide Exec, Saved, LegalExcept, Fresh, M.OnEnqueue;
      LogEnqueue(log, unsent, t);
      store.Save(t);
      scheduler.Enqueue(t);
      log := log + [M.Enqueue(t, Fresh(t.spec))];
    }

    /** ReportTaskStatus for a completed task; a report that comes late or twice changes nothing. */
    method ReportCompleted(taskId: TaskId, output: Text, exitCode: int, now: int)
      returns (t: Task?, ghost dropped: seq<Outcome>)
      requires Valid()
      modifies `log, scheduler, scheduler.records.Keys, store
      ensures old(scheduler.Signalled()) ==> scheduler.Signalled()
      ensures Valid() && unsent == old(unsent)
      ensures t == if taskId in old(scheduler.inFlight) then old(scheduler.inFlight)[taskId] else null
      ensures log == if t == null then old(log) else old(log) + [M.Complete(t, output, exitCode, now)]
      ensures Blames(dropped, unsent)
      ensures t != null ==>
        && t in old(scheduler.records)
        && (t !in unsent ==> old(scheduler.records)[t].state == Running)
        && (old(scheduler.records)[t].state == Running ==>
             EndsAs(old(scheduler.records)[t], t.Value(), true, output, EMPTY_TEXT, exitCode, now))
    {
      hide Exec, Saved, LegalExcept, M.OnComplete, Scheduler.Shape, Blames, M.Outcomes, Scheduler.Valid, EndsAs;
      NoBlame(unsent);
      t, dropped := scheduler.Complete(taskId, output, exitCode, now);
      if t != null {
        LogComplete(log, unsent, t, output, exitCode, now);
        CompletedFields(log, unsent, t, output, exitCode, now);
        scheduler.ValueIsRecorded(t);
        store.Save(t);
        log := log + [M.Complete(t, output, exitCode, now)];
      }
    }

    method ReportFailed(taskId: TaskId, error: Text, exitCode: int, now: int, jitter: nat)
      returns (t: Task?, ghost dropped: seq<Outcome>)
      requires Valid()
      modifies `log, scheduler, scheduler.records.Keys, store
      ensures old(scheduler.Signalled()) ==> scheduler.Signalled()
      ensures Valid() && unsent == old(unsent)
      ensures t == if taskId in old(scheduler.inFlight) then old(scheduler.inFlight)[taskId] else null
      ensures log == if t == null then old(log) else old(log) + [M.Fail(t, error, exitCode, now, jitter)]
      ensures Blames(dropped, unsent)
      ensures t != null ==>
        && t in old(scheduler.records)
        && (t !in unsent ==> old(scheduler.records)[t].state == Running)
        && (old(scheduler.records)[t].state == Running ==>
             EndsAs(old(scheduler.records)[t], t.Value(), false, EMPTY_TEXT, error, exitCode, now))
    {
      hide Exec, Saved, LegalExcept, M.OnFail, Scheduler.Shape, Blames, M.Outcomes, Scheduler.Valid, EndsAs;
      NoBlame(unsent);
      t, dropped := scheduler.Fail(taskId, error, exitCode, now, jitter);
      if t != null {
        LogFail(log, unsent, t, error, exitCode, now, jitter);
        FailedFields(log, unsent, t, error, exitCode, now, jitter);
        scheduler.ValueIsRecorded(t);
        store.Save(t);
        log := log + [M.Fail(t, error, exitCode, now, jitter)];
      }
    }

    /** Dequeue, Assign and Start of one task for a worker. */
    method LaunchTask(worker: Text, now: int) returns (t: Task?, ghost dropped: seq<Outcome>)
      requires scheduler.Valid()
      modifies scheduler, scheduler.notify, scheduler.records.Keys
      ensures scheduler.Signalled()
      ensures scheduler.Valid() && scheduler.records.Keys == old(scheduler.records.Keys)
      ensures t == null <==> |old(scheduler.queue)| == 0
      ensures t == null ==> scheduler.View() == old(scheduler.View()) && dropped == []
      ensures t != null ==>
        && t in old(scheduler.View()).queue && t in old(scheduler.records) && M.Front(old(scheduler.View()), t)
        && scheduler.View() == Started(M.OnDequeue(old(scheduler.View()), t), t, worker, now)
        && t in scheduler.records
        && scheduler.records[t] == AfterStart(AfterAssign(old(scheduler.records)[t], worker, now), now)
        && dropped == M.DispatchOutcomes(old(scheduler.records)[t], t.spec.id)
    {
      hide AfterAssign, AfterStart, M.OnDequeue, M.DispatchOutcomes, Scheduler.Shape, M.Front;
      t := scheduler.Dequeue();
      dropped := [];
      if t != null {
        SameRecords(old(scheduler.View()), t);
        dropped := scheduler.StartTask(t, worker, now);
      }
    }

    /** The same, saved. */
    method TakeTask(worker: Text, now: int) returns (t: Task?, ghost dropped: seq<Outcome>)
      requires Valid()
      modifies `log, scheduler, scheduler.notify, scheduler.records.Keys, store
      ensures scheduler.Signalled()
      ensures Valid() && unsent == old(unsent) && scheduler.records.Keys == old(scheduler.records.Keys)
      ensures t == null <==> |old(scheduler.queue)| == 0
      ensures t == null ==> log == old(log)
      ensures t != null ==>
        && t in scheduler.records && log == old(log) + [M.Dispatch(t, worker, now)]
        && t in old(scheduler.View()).queue && M.Front(old(scheduler.View()), t)
      ensures Blames(dropped, unsent)
      ensures t != null ==> t in old(scheduler.records)
      ensures t != null ==>
        var r := old(scheduler.records)[t];
        && (t !in unsent ==> r.state == Queued)
        && (r.state == Queued ==>
             t.Value() == r.(state := Running, workerId := worker, assignedAt := now, startedAt := now,
                             attempt := r.attempt + 1))
    {
      hide Exec, Saved, LegalExcept, Started, M.OnDequeue, M.DispatchOutcomes, Scheduler.Shape, Blames, M.Outcomes,
        M.Front, Scheduler.Valid, AfterAssign, AfterStart;
      NoBlame(unsent);
      t, dropped := LaunchTask(worker, now);
      if t != null {
        LogDispatch(log, unsent, t, worker, now);
        LaunchedFields(log, unsent, t, worker, now);
        DispatchByParts(old(scheduler.View()), t, worker, now);
        scheduler.ValueIsRecorded(t);
        store.Save(t);
        log := log + [M.Dispatch(t, worker, now)];
      }
    }

    /** Back on the queue, as a queued task without a worker. */
    method RequeueUnsent(t: Task)
      requires scheduler.Valid() && t in scheduler.records
      modifies scheduler, scheduler.notify, t
      ensures scheduler.Valid() && scheduler.notify.pending
      ensures scheduler.View() == var v := old(scheduler.View());
        M.PutBack(v, t, v.tasks[t].(state := Queued, workerId := EMPTY_TEXT))
      ensures t.state == Queued && t.workerId == Text("") && t in scheduler.queue && t in scheduler.records
    {
      PutBackTwice(scheduler.View(), t, t.Value().(state := Queued, workerId := EMPTY_TEXT));
      hide M.PutBack;
      scheduler.ResetTask(t);
      assert scheduler.records.Keys + {t} == scheduler.records.Keys;
      hide Scheduler.Shape;
      scheduler.Enqueue(t);
      assert t in scheduler.View().queue && t in scheduler.View().tasks;
    }

    /** What the loop does when the send fails: the task goes back on the queue. */
    method PutBackUnsent(t: Task)
      requires Valid() && t in scheduler.records
      modifies `log, `unsent, scheduler, scheduler.notify, t
      ensures Valid() && unsent == old(unsent) + {t} && scheduler.notify.pending
      ensures log == old(log) + [M.SendFailed(t)]
      ensures t.state == Queued && t.workerId == Text("") && t in scheduler.queue
    {
      hide Exec, Saved, LegalExcept, M.PutBack, Scheduler.Shape, Scheduler.Valid;
      LogSendFailed(log, unsent, t);
      RequeueUnsent(t);
      log, unsent := log + [M.SendFailed(t)], unsent + {t};
    }

    /** The scheduler part of the cleanup when a worker's stream ends: nothing of
        the worker stays in flight. */
    method Disconnect(worker: Text) returns (count: nat, ghost order: seq<Task>)
      requires Valid()
      modifies `log, scheduler, scheduler.notify, scheduler.records.Keys
      ensures old(scheduler.Signalled()) ==> scheduler.Signalled()
      ensures Valid() && unsent == old(unsent)
      ensures Enumerates(order, Owned(old(scheduler.View()), worker)) && count == |order|
      ensures Owned(scheduler.View(), worker) == {}
      ensures log == old(log) + Reclaims(order)
      ensures multiset(scheduler.queue) == old(multiset(scheduler.queue)) + multiset(order)
      ensures forall t :: t in old(scheduler.flying) && t !in unsent ==>
        (t in order <==> DispatchedTo(old(log), t, worker))
      ensures forall t :: t in scheduler.flying && t !in unsent ==> !DispatchedTo(log, t, worker)
    {
      hide Exec, Saved, LegalExcept, M.Play, Enumerates, Owned, Scheduler.Shape, Scheduler.Valid, DispatchedTo;
      OwnedOverRun(log, unsent, worker);
      count, order := scheduler.RequeueFromWorker(worker);
      SameElements(order, Owned(old(scheduler.View()), worker));
      LogReclaims(log, unsent, order, worker);
      log := log + Reclaims(order);
      OwnedOverRun(log, unsent, worker);
    }

    /** The cleanup when a worker's stream ends: its tasks go back on the
        queue and its entry is marked dead. */
    method EndStream(worker: Text) returns (count: nat, ghost order: seq<Task>)
      requires Valid() && workers.Valid()
      modifies `log, scheduler, scheduler.notify, scheduler.records.Keys, workers, workers.made
      ensures old(scheduler.Signalled()) ==> scheduler.Signalled()
      ensures Valid() && workers.Valid() && unsent == old(unsent)
      ensures Enumerates(order, Owned(old(scheduler.View()), worker)) && count == |order|
      ensures Owned(scheduler.View(), worker) == {}
      ensures log == old(log) + Reclaims(order)
      ensures worker in workers.workers ==> workers.workers[worker].state == FailureDetector.Dead
      ensures worker in old(workers.history) ==>
        workers.history == old(workers.history)[worker := old(workers.history)[worker] + [FailureDetector.End]]
      ensures multiset(scheduler.queue) == old(multiset(scheduler.queue)) + multiset(order)
      ensures forall t :: t in old(scheduler.flying) && t !in unsent ==>
        (t in order <==> DispatchedTo(old(log), t, worker))
      ensures forall t :: t in scheduler.flying && t !in unsent ==> !DispatchedTo(log, t, worker)
    {
      hide Exec, Saved, LegalExcept, Enumerates, Owned, Scheduler.Shape, FailureDetector.After, Scheduler.Valid,
        FailureDetector.WorkerTable.Valid, DispatchedTo;
      count, order := Disconnect(worker);
      workers.EndStream(worker);
    }

    /** One tick of the health timer: it judges the workers and leaves every
        task where it is, those of a worker it declares dead too. */
    method CheckWorkerHealth(now: int)
      requires Valid() && workers.Valid()
      modifies workers, workers.made
      ensures Valid() && workers.Valid() && scheduler.View() == old(scheduler.View())
      ensures workers.history ==
        map id | id in old(workers.history) :: old(workers.history)[id] + [FailureDetector.Check(now)]
    {
      hide Exec, Saved, LegalExcept, Scheduler.Shape, FailureDetector.After;
      workers.CheckWorkerHealth(now);
    }

    /** One tick of the retry timer. */
    method ProcessRetries(now: int)
      returns (count: nat, ghost released: seq<Task>, ghost dropped: seq<Outcome>)
      requires Valid()
      modifies `log, scheduler, scheduler.notify, scheduler.records.Keys
      ensures old(scheduler.Signalled()) ==> scheduler.Signalled()
      ensures Valid() && unsent == old(unsent)
      ensures forall t :: t in old(scheduler.View()).retry ==> t in old(scheduler.View()).tasks
      ensures released == ByDue(old(scheduler.View()).tasks, old(scheduler.View()).retry, now, true)
      ensures count == |released| && log == old(log) + Releases(released, now)
      ensures Blames(dropped, unsent)
      ensures multiset(scheduler.queue) == old(multiset(scheduler.queue)) + multiset(released)
      ensures Parts(old(scheduler.retryQueue), released, scheduler.retryQueue)
      ensures forall t :: t in old(scheduler.retryQueue) && WaitsExactly(t, unsent) ==>
        (t in released <==> t in Exec(old(log)).tasks && WaitIsOver(old(log), t, now))
      ensures forall t :: t in scheduler.retryQueue && WaitsExactly(t, unsent) ==>
        t in Exec(log).tasks && !WaitIsOver(log, t, now)
    {
      hide Exec, Saved, LegalExcept, M.Play, ByDue, Scheduler.Shape, Blames, M.OutcomesOf, WaitIsOver, WaitsExactly,
        Parts, Releases, Scheduler.Valid, Sweeps.Requeued;
      count, released, dropped := scheduler.ProcessRetries(now);
      LogReleases(log, unsent, now);
      TickOverRun(log, log + Releases(released, now), unsent, now, released);
      log := log + Releases(released, now);
    }

    /** One tick of the timeout timer. */
    method CheckTimeouts(now: int, jitter: TaskId -> nat)
      returns (count: nat, ghost order: seq<Task>, ghost dropped: seq<Outcome>)
      requires Valid()
      modifies `log, scheduler, scheduler.records.Keys
      ensures old(scheduler.Signalled()) ==> scheduler.Signalled()
      ensures Valid() && unsent == old(unsent)
      ensures Enumerates(order, Overdue(old(scheduler.View()), now)) && count == |order|
      ensures Overdue(scheduler.View(), now) == {}
      ensures log == old(log) + Expiries(order, now, jitter)
      ensures Blames(dropped, unsent)
      ensures forall t :: t in old(scheduler.flying) && t !in unsent && t.spec.timeoutSec <= LONGEST_TIMEOUT ==>
        (t in order <==> PastDeadline(old(log), t, now))
      ensures forall t :: t in scheduler.flying && t !in unsent && t.spec.timeoutSec <= LONGEST_TIMEOUT ==>
        !PastDeadline(log, t, now)
    {
      hide Exec, Saved, LegalExcept, M.Play, Enumerates, Overdue, Scheduler.Shape, Blames, M.OutcomesOf, PastDeadline,
        Scheduler.Valid;
      OverdueOverRun(log, unsent, now);
      count, order, dropped := scheduler.CheckTimeouts(now, jitter);
      SameElements(order, Overdue(old(scheduler.View()), now));
      LogExpiries(log, unsent, order, now, jitter);
      log := log + Expiries(order, now, jitter);
      OverdueOverRun(log, unsent, now);
    }

    method RetryFromDLQ(taskId: TaskId)
      returns (found: bool, ghost revived: Task?, ghost dropped: seq<Outcome>)
      requires Valid()
      modifies `log, scheduler, scheduler.notify, scheduler.records.Keys
      ensures old(scheduler.Signalled()) ==> scheduler.Signalled()
      ensures Valid() && unsent == old(unsent) && found == (revived != null)
      ensures found <==> exists t :: t in old(scheduler.View()).dead && t.spec.id == taskId
      ensures revived != null ==> revived in old(scheduler.View()).dead && revived.spec.id == taskId
      ensures log == if revived == null then old(log) else old(log) + [M.Revive(revived)]
      ensures Blames(dropped, unsent)
    {
      hide Exec, Saved, LegalExcept, M.OnRevive, Scheduler.Shape, Blames, M.Outcomes, Scheduler.Valid;
      NoBlame(unsent);
      found, revived, dropped := scheduler.RetryFromDLQ(taskId);
      if found {
        LogRevive(log, unsent, revived);
        log := log + [M.Revive(revived)];
      }
    }

    /** The task's part of a report, completed or failed. */
    method Report(taskId: TaskId, completed: bool, output: Text, error: Text,
                  exitCode: int, now: int, jitter: nat) returns (t: Task?, ghost dropped: seq<Outcome>)
      requires Valid()
      modifies `log, scheduler, scheduler.records.Keys, store
      ensures old(scheduler.Signalled()) ==> scheduler.Signalled()
      ensures Valid() && unsent == old(unsent)
      ensures t == if taskId in old(scheduler.inFlight) then old(scheduler.inFlight)[taskId] else null
      ensures log == old(log) + MovesOfReport(t, completed, output, error, exitCode, now, jitter)
      ensures Blames(dropped, unsent)
      ensures t != null ==>
        && t in old(scheduler.records)
        && (t !in unsent ==> old(scheduler.records)[t].state == Running)
        && (old(scheduler.records)[t].state == Running ==>
             EndsAs(old(scheduler.records)[t], t.Value(), completed, output, error, exitCode, now))
    {
      hide Exec, Saved, LegalExcept, Scheduler.Shape, Blames, Scheduler.Valid;
      if completed {
        t, dropped := ReportCompleted(taskId, output, exitCode, now);
      } else {
        t, dropped := ReportFailed(taskId, error, exitCode, now, jitter);
      }
    }

    /** ReportTaskStatus: the task moves on, and the breaker of the reporting
        worker hears of it even when the report comes late. */
    method ReportTaskStatus(worker: Text, taskId: TaskId, completed: bool, output: Text, error: Text,
                            exitCode: int, now: int, jitter: nat) returns (t: Task?, ghost dropped: seq<Outcome>)
      requires Valid() && breakers.Valid()
      modifies `log, scheduler, scheduler.records.Keys, store, breakers, breakers.made
      ensures old(scheduler.Signalled()) ==> scheduler.Signalled()
      ensures Valid() && breakers.Valid() && unsent == old(unsent)
      ensures t == if taskId in old(scheduler.inFlight) then old(scheduler.inFlight)[taskId] else null
      ensures log == old(log) + MovesOfReport(t, completed, output, error, exitCode, now, jitter)
      ensures breakers.History(worker) == old(breakers.History(worker))
        + [if completed then CircuitBreakers.Success else CircuitBreakers.Failure(now)]
      ensures Blames(dropped, unsent)
      ensures t != null ==>
        && t in old(scheduler.records)
        && (t !in unsent ==> old(scheduler.records)[t].state == Running)
        && (old(scheduler.records)[t].state == Running ==>
             EndsAs(old(scheduler.records)[t], t.Value(), completed, output, error, exitCode, now))
    {
      hide Exec, Saved, LegalExcept, Scheduler.Shape, CircuitBreakers.After, CircuitBreakers.Answers, Blames,
        Scheduler.Valid, BreakerRegistry.Registry.Valid, EndsAs;
      t, dropped := Report(taskId, completed, output, error, exitCode, now, jitter);
      breakers.Record(worker, completed, now);
    }

    method Dispatch(worker: Text, now: int, sent: bool) returns (t: Task?, ghost dropped: seq<Outcome>)
      requires Valid()
      modifies `log, `unsent, scheduler, scheduler.notify, scheduler.records.Keys, store
      ensures scheduler.Signalled()
      ensures Valid()
      ensures Turn(old(scheduler.View()), t, worker, now, sent, dropped, old(log), log, old(unsent), unsent)
      ensures t != null ==> t in old(scheduler.records)
      ensures t != null ==>
        var r := old(scheduler.records)[t];
        && (t !in old(unsent) ==> r.state == Queued)
        && (sent && r.state == Queued ==>
             t.Value() == r.(state := Running, workerId := worker, assignedAt := now, startedAt := now,
                             attempt := r.attempt + 1))
      ensures t != null && !sent ==> t.state == Queued && t.workerId == Text("") && t in scheduler.queue
    {
      hide Exec, Saved, LegalExcept, Scheduler.Shape, Blames, M.Front, Scheduler.Valid;
      assert |multiset(scheduler.queue)| == |scheduler.queue|;
      t, dropped := TakeTask(worker, now);
      if t != null {
        M.FrontIsFirst(old(scheduler.View()), t);
      }
      if t != null && !sent {
        PutBackUnsent(t);
      }
    }

    /** Takes the token and asks the worker's breaker. */
    method Admit(worker: Text, now: int) returns (ok: bool)
      requires breakers.Valid()
      modifies scheduler.notify, breakers, breakers.made
      ensures breakers.Valid()
      ensures breakers.History(worker) == old(breakers.History(worker)) + [CircuitBreakers.Event.Allow(now, ok)]
      ensures ok <==>
        !(CircuitBreakers.After(breakers.conf, old(breakers.History(worker))).state == CircuitBreakers.Open
          && now - CircuitBreakers.LastBlow(old(breakers.History(worker))) <= breakers.conf.timeout)
    {
      hide CircuitBreakers.After, CircuitBreakers.Answers, BreakerRegistry.Registry.Valid;
      var _ := scheduler.notify.TryReceive();
      ok := breakers.Allow(worker, now);
    }

    /** One turn of the dispatch loop of AssignTask: it takes the token, and
        leaves one behind if tasks are still queued. `sent` is whether the
        stream accepts the assignment. */
    method Serve(worker: Text, now: int, sent: bool) returns (ok: bool, t: Task?, ghost dropped: seq<Outcome>)
      requires Valid() && breakers.Valid() && scheduler.notify.pending
      modifies `log, `unsent, scheduler, scheduler.notify, scheduler.records.Keys, store, breakers, breakers.made
      ensures scheduler.Signalled()
      ensures Valid() && breakers.Valid()
      ensures breakers.History(worker) == old(breakers.History(worker)) + [CircuitBreakers.Event.Allow(now, ok)]
      ensures ok ==>
        Turn(old(scheduler.View()), t, worker, now, sent, dropped, old(log), log, old(unsent), unsent)
      ensures !ok ==> t == null && dropped == [] && log == old(log) && unsent == old(unsent)
      ensures ok <==>
        !(CircuitBreakers.After(breakers.conf, old(breakers.History(worker))).state == CircuitBreakers.Open
          && now - CircuitBreakers.LastBlow(old(breakers.History(worker))) <= breakers.conf.timeout)
      ensures t != null ==> t in old(scheduler.records)
      ensures t != null ==>
        var r := old(scheduler.records)[t];
        && (t !in old(unsent) ==> r.state == Queued)
        && (sent && r.state == Queued ==>
             t.Value() == r.(state := Running, workerId := worker, assignedAt := now, startedAt := now,
                             attempt := r.attempt + 1))
      ensures t != null && !sent ==> t.state == Queued && t.workerId == Text("") && t in scheduler.queue
    {
      hide Exec, Saved, LegalExcept, Scheduler.Shape, CircuitBreakers.After, CircuitBreakers.Answers, Turn;
      hide Scheduler.Valid, BreakerRegistry.Registry.Valid;
      ok := Admit(worker, now);
      if ok {
        t, dropped := Dispatch(worker, now, sent);
      } else {
        scheduler.Notify();
        t, dropped := null, [];
      }
    }

    // What the run models say of the objects.

    /** A task none of whose sends has failed is in exactly one container, the
        one its state names, whatever has happened to other tasks. */
    lemma EveryTaskInItsPlace(t: Task)
      requires Valid() && t !in unsent
      ensures SoundFor(scheduler.View(), t)
      ensures t in scheduler.records ==> scheduler.records[t] == t.Value()
    {
      ContainerDeterminesState(log, unsent, t);
      hide Exec, LegalExcept, Saved, SoundFor, Scheduler.Shape;
    }

    /** The fields of such a task are what its last moves say. */
    lemma EveryFieldFromItsMoves(t: Task)
      requires Valid() && t in scheduler.records && t !in unsent
      ensures Tells(TrailOf(log, t), t.Value()) && t.nextRetryAt == RetryTimeOf(log, t)
    {
      hide Exec, LegalExcept, Saved, Tells, TrailOf, RetryTimeOf, Scheduler.Shape;
      FieldsFromMoves(log, unsent, t);
      RetryTimeFromMoves(log, unsent, t);
    }

    /** The completed list is the last 100 tasks completed, in order. */
    lemma LastCompletions()
      requires Valid()
      ensures scheduler.completed == Completions(log)[|Completions(log)| - Min(|Completions(log)|, 100)..]
    {
      hide Exec, LegalExcept, Saved, Completions;
      CompletionsInOrder(log);
      scheduler.CompletedWindow();
    }

    /** As long as every send has succeeded the counts balance. */
    lemma CountsBalance()
      requires Valid() && unsent == {}
      ensures Balanced(scheduler.View(), log)
    {
      Conservation(log);
      hide Exec, LegalExcept, Saved, Balanced, Scheduler.Shape;
    }

    /** Failed sends or not, no task is ever lost. */
    lemma NoTaskIsLost(t: Task)
      requires Valid() && t in scheduler.records
      ensures Occurrences(scheduler.View(), t) >= 1
    {
      hide Exec, LegalExcept, Saved, Free, Occurrences, Scheduler.Shape;
      LegalIsFree(log, unsent);
      NothingIsLost(log, t);
    }

    /** What a crash now, and a recovery from the store, would bring back of a
        task none of whose sends has failed. */
    lemma RecoveryFromHere(keys: seq<TaskId>, t: Task)
      requires Valid() && t in scheduler.records && t !in unsent && WalksOver(keys, store.db)
      ensures (exists n :: n in Recoverable(Records(store.db, keys)) && n.spec.id == t.spec.id)
        <==> ComesBack(t.Value(), LastDeath(log, t))
    {
      hide Exec, LegalExcept, Saved, LastDeath, ComesBack, Recoverable, Records;
      RecoveryExact(log, unsent, keys, t);
    }
  }

  lemma SameElements<T>(order: seq<T>, ts: set<T>)
    requires Enumerates(order, ts)
    ensures forall t :: t in order <==> t in ts
  {
  }

  lemma NoBlame(loose: set<Task>)
    ensures Blames([], loose)
  {
  }

  lemma SameRecords(s: M.Sched, t: Task)
    ensures M.OnDequeue(s, t).tasks == s.tasks
  {
  }
}
