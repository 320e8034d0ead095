/** The sweeps over many tasks as parts of legal runs, and what the timeout
    sweep leaves behind. */
module Sweeps {
  import opened Basics
  import opened Tasks
  import opened SchedulerModel
  import opened Runs
  import opened Interleavings
  import opened Scheduling

  /** Those of `order` whose attempts are used up (or are not), in order. */
  function ByUse(tasks: map<Task, Record>, order: seq<Task>, usedUp: bool): seq<Task>
    requires forall t :: t in order ==> t in tasks
  {
    if order == [] then []
    else
      var last := order[|order| - 1];
      ByUse(tasks, order[..|order| - 1], usedUp)
      + if (tasks[last].attempt >= tasks[last].spec.maxRetries) == usedUp then [last] else []
  }

  ghost function Elements(order: seq<Task>): set<Task> {
    set t | t in order
  }

  /** How the timeout sweep stands once it has dealt with the tasks of `order`. */
  ghost predicate Swept(s: Sched, n: Sched, order: seq<Task>)
    requires forall t :: t in order ==> t in s.tasks
  {
    && n.tasks.Keys == s.tasks.Keys
    && n.queue == s.queue && n.finished == s.finished && n.totalFailed == s.totalFailed
    && n.inFlight == s.inFlight - Elements(order)
    && n.retry == s.retry + ByUse(s.tasks, order, false)
    && n.dead == s.dead + ByUse(s.tasks, order, true)
    && forall t :: t in s.tasks && t !in order ==> n.tasks[t] == s.tasks[t]
  }

  lemma ByUseOneMore(tasks: map<Task, Record>, order: seq<Task>, k: nat, usedUp: bool)
    requires k < |order| && forall t :: t in order ==> t in tasks
    ensures ByUse(tasks, order[..k + 1], usedUp) == ByUse(tasks, order[..k], usedUp)
      + if (tasks[order[k]].attempt >= tasks[order[k]].spec.maxRetries) == usedUp then [order[k]] else []
  {
    assert order[..k + 1][..k] == order[..k];
  }

  lemma ElementsOneMore(order: seq<Task>, k: nat)
    requires k < |order|
    ensures Elements(order[..k + 1]) == Elements(order[..k]) + {order[k]}
  {
    assert order[..k + 1] == order[..k] + [order[k]];
  }

  lemma SweptStep(s: Sched, n: Sched, order: seq<Task>, k: nat, now: int, jitter: nat)
    requires k < |order| && order[k] !in order[..k]
    requires forall t :: t in order ==> t in s.tasks && t in s.inFlight && s.tasks[t].state == Running
    requires Swept(s, n, order[..k])
    ensures Swept(s, OnExpire(n, order[k], now, jitter), order[..k + 1])
  {
    FailureOutcome(s.tasks[order[k]], TIMEOUT_MESSAGE, -1, now, jitter);
    ByUseOneMore(s.tasks, order, k, true);
    ByUseOneMore(s.tasks, order, k, false);
    ElementsOneMore(order, k);
    hide AfterFailure, ByUse, Elements;
  }

  lemma {:induction false} SweptAll(s: Sched, order: seq<Task>, k: nat, now: int, jitter: TaskId -> nat)
    requires Enumerates(order, Overdue(s, now)) && k <= |order|
    ensures forall t :: t in order ==> t in s.tasks
    ensures Swept(s, Play(s, Expiries(order[..k], now, jitter)), order[..k])
  {
    hide Swept, Play, Expiries;
    if k == 0 {
      NothingSwept(s, now, jitter);
      assert order[..0] == [];
    } else {
      SweptAll(s, order, k - 1, now, jitter);
      SweptStep(s, Play(s, Expiries(order[..k - 1], now, jitter)), order, k - 1, now, jitter(order[k - 1].spec.id));
      PlayExpire(s, order, k - 1, now, jitter);
    }
  }

  lemma NothingSwept(s: Sched, now: int, jitter: TaskId -> nat)
    ensures Swept(s, Play(s, Expiries([], now, jitter)), [])
  {
    assert s.retry + [] == s.retry && s.dead + [] == s.dead;
  }

  /** The sweep at `now` moves exactly the tasks past their deadline, whatever
      order the in-flight map is walked in: none stays in flight, every other
      task is untouched, and the swept ones are appended to retry or dead-letter
      by whether attempts are left. */
  lemma TimeoutSweepExact(s: Sched, order: seq<Task>, now: int, jitter: TaskId -> nat)
    requires Enumerates(order, Overdue(s, now))
    ensures forall t :: t in order ==> t in s.tasks
    ensures Swept(s, Play(s, Expiries(order, now, jitter)), order)
    ensures Overdue(Play(s, Expiries(order, now, jitter)), now) == {}
    ensures |order| == |Overdue(s, now)|
  {
    hide Play, Expiries;
    SweptAll(s, order, |order|, now, jitter);
    assert order[..|order|] == order;
    EnumerationCount(order, Overdue(s, now));
    NoneOverdue(s, Play(s, Expiries(order, now, jitter)), order, now);
  }

  lemma NoneOverdue(s: Sched, n: Sched, order: seq<Task>, now: int)
    requires Enumerates(order, Overdue(s, now)) && Swept(s, n, order)
    ensures Overdue(n, now) == {}
  {
    forall t | t in n.inFlight && t in n.tasks
      ensures !Expired(n.tasks[t], now)
    {
      assert t !in order && n.tasks[t] == s.tasks[t];
    }
  }

  /** What taking back `order` makes of the records. */
  ghost predicate TakenRecords(a: map<Task, Record>, b: map<Task, Record>, order: seq<Task>) {
    && b.Keys == a.Keys
    && (forall t :: t in a && t !in order ==> b[t] == a[t])
    && (forall t :: t in a && t in order ==> b[t] == a[t].(state := Queued, workerId := EMPTY_TEXT))
  }

  /** How the cleanup for a lost worker stands once it has taken back `order`. */
  ghost predicate TakenBack(s: Sched, n: Sched, order: seq<Task>) {
    && TakenRecords(s.tasks, n.tasks, order)
    && n.queue == s.queue + multiset(order) && n.inFlight == s.inFlight - Elements(order)
    && n.retry == s.retry && n.dead == s.dead && n.finished == s.finished && n.totalFailed == s.totalFailed
  }

  lemma TakenRecordsStep(a: map<Task, Record>, b: map<Task, Record>, order: seq<Task>, t: Task)
    requires TakenRecords(a, b, order) && t in a && t !in order
    ensures TakenRecords(a, b[t := b[t].(state := Queued, workerId := EMPTY_TEXT)], order + [t])
  {
  }

  lemma TakenBackStep(s: Sched, n: Sched, order: seq<Task>, k: nat)
    requires k < |order| && order[k] !in order[..k]
    requires forall t :: t in order ==> t in s.tasks && t in s.inFlight
    requires TakenBack(s, n, order[..k])
    ensures TakenBack(s, OnReclaim(n, order[k]), order[..k + 1])
  {
    assert order[k] in n.inFlight && order[k] in n.tasks;
    TakenRecordsStep(s.tasks, n.tasks, order[..k], order[k]);
    ElementsOneMore(order, k);
    assert order[..k + 1] == order[..k] + [order[k]];
    hide Elements, TakenRecords;
  }

  lemma {:induction false} TakenBackAll(s: Sched, order: seq<Task>, k: nat)
    requires Distinct(order) && k <= |order| && forall t :: t in order ==> t in s.tasks && t in s.inFlight
    ensures TakenBack(s, Play(s, Reclaims(order[..k])), order[..k])
  {
    hide TakenBack, Play, Reclaims, OnReclaim;
    if k == 0 {
      NothingTakenBack(s);
      assert order[..0] == [];
    } else {
      TakenBackAll(s, order, k - 1);
      TakenBackStep(s, Play(s, Reclaims(order[..k - 1])), order, k - 1);
      assert order[..k - 1] + [order[k - 1]] == order[..k];
      PlayReclaim(s, order[..k - 1], order[k - 1]);
    }
  }

  lemma NothingTakenBack(s: Sched)
    ensures TakenBack(s, Play(s, Reclaims([])), [])
  {
  }

  /** When a worker's stream ends, nothing of that worker stays in flight, in
      whatever order the map is walked: exactly its tasks join the queue, as
      queued tasks without a worker, and everything else is untouched. */
  lemma LostWorkerSweepExact(s: Sched, order: seq<Task>, workerId: Text)
    requires Enumerates(order, Owned(s, workerId))
    ensures TakenBack(s, Play(s, Reclaims(order)), order)
    ensures Owned(Play(s, Reclaims(order)), workerId) == {}
    ensures |order| == |Owned(s, workerId)|
  {
    hide Play, Reclaims;
    TakenBackAll(s, order, |order|);
    assert order[..|order|] == order;
    EnumerationCount(order, Owned(s, workerId));
    NoneOwned(s, Play(s, Reclaims(order)), order, workerId);
  }

  lemma NoneOwned(s: Sched, n: Sched, order: seq<Task>, workerId: Text)
    requires Enumerates(order, Owned(s, workerId)) && TakenBack(s, n, order)
    ensures Owned(n, workerId) == {}
  {
    forall t | t in n.inFlight && t in n.tasks
      ensures n.tasks[t].workerId != workerId
    {
      assert t !in order && n.tasks[t] == s.tasks[t];
    }
  }

  /** How the release of waiting tasks stands once it has dealt with those of `order`. */
  ghost predicate Requeued(s: Sched, n: Sched, order: seq<Task>) {
    && n.queue == s.queue + multiset(order) && multiset(n.retry) == multiset(s.retry) - multiset(order)
    && n.inFlight == s.inFlight && n.dead == s.dead && n.finished == s.finished && n.totalFailed == s.totalFailed
    && RequeuedRecords(s.tasks, n.tasks, order)
  }

  /** What releasing `order` makes of the records. */
  ghost predicate RequeuedRecords(a: map<Task, Record>, b: map<Task, Record>, order: seq<Task>) {
    && b.Keys == a.Keys
    && (forall t :: t in a && t !in order ==> b[t] == a[t])
    && (forall t :: t in a && t in order && a[t].state == Retrying ==> b[t] == a[t].(state := Queued))
  }

  lemma RequeuedRecordsStep(a: map<Task, Record>, b: map<Task, Record>, order: seq<Task>, t: Task)
    requires RequeuedRecords(a, b, order) && t in a
    ensures RequeuedRecords(a, b[t := AfterTransition(b[t], Queued)], order + [t])
  {
  }

  lemma RequeuedStep(s: Sched, n: Sched, order: seq<Task>, t: Task)
    requires Requeued(s, n, order) && t in s.tasks && multiset(order) + multiset{t} <= multiset(s.retry)
    ensures Requeued(s, OnRelease(n, t), order + [t])
  {
    RequeuedRecordsStep(s.tasks, n.tasks, order, t);
    CountRemove(n.retry, t, t);
    RemoveFirstBag(n.retry, t);
    hide RequeuedRecords, AfterTransition, RemoveFirst;
  }

  lemma {:induction false} RequeuedAll(s: Sched, order: seq<Task>, now: int)
    requires multiset(order) <= multiset(s.retry) && forall t :: t in order ==> t in s.tasks
    ensures Requeued(s, Play(s, Releases(order, now)), order)
  {
    hide Play, Releases;
    if order == [] {
      NothingRequeued(s, now);
    } else {
      var rest, last := order[..|order| - 1], order[|order| - 1];
      assert order == rest + [last];
      RequeuedAll(s, rest, now);
      RequeuedStep(s, Play(s, Releases(rest, now)), rest, last);
      PlayRelease(s, rest, last, now);
      hide Requeued, OnRelease;
    }
  }

  lemma NothingRequeued(s: Sched, now: int)
    ensures Requeued(s, Play(s, Releases([], now)), [])
  {
  }

  /** A retry tick puts exactly the due tasks back on the queue, the waiting
      ones as QUEUED, and leaves everything else as it is. */
  lemma RetrySweepExact(s: Sched, now: int)
    requires forall t :: t in s.retry ==> t in s.tasks
    ensures var due := ByDue(s.tasks, s.retry, now, true);
      Requeued(s, Play(s, Releases(due, now)), due)
  {
    hide Play, Releases, ByDue, Requeued;
    ByDueBag(s.tasks, s.retry, now, true);
    RequeuedAll(s, ByDue(s.tasks, s.retry, now, true), now);
  }

  lemma {:induction false} EnumerationCount(order: seq<Task>, ts: set<Task>)
    requires Enumerates(order, ts)
    ensures |order| == |ts|
  {
    if order != [] {
      var k := |order| - 1;
      EnumerationCount(order[..k], ts - {order[k]});
    } else {
      assert ts == {};
    }
  }

  /** A sweep move a task with record r is ready for. */
  predicate Ready(r: Record, m: Move) {
    match m
    case Expire(_, now, _) => Expired(r, now)
    case Reclaim(_) => r.state == Running
    case Release(_, now) => r.state == Retrying && Due(r, now)
    case _ => false
  }

  lemma ReadyIsAllowed(s: Sched, m: Move)
    requires m.task in s.tasks && SoundFor(s, m.task) && Ready(s.tasks[m.task], m)
    ensures Allowed(s, m)
  {
    CountRemove(s.retry, m.task, m.task);
  }

  /** Moves of known tasks: those that are not loose are distinct and ready. */
  ghost predicate Batch(s: Sched, ns: seq<Move>, loose: set<Task>) {
    && (forall i :: 0 <= i < |ns| ==> ns[i].task in s.tasks && !ns[i].Enqueue?)
    && (forall i :: 0 <= i < |ns| && ns[i].task !in loose ==> Ready(s.tasks[ns[i].task], ns[i]))
    && (forall i, j :: 0 <= i < j < |ns| && ns[j].task !in loose ==> ns[i].task != ns[j].task)
  }

  ghost predicate Spares(ns: seq<Move>, t: Task) {
    forall i :: 0 <= i < |ns| ==> ns[i].task != t
  }

  lemma BatchPrefix(s: Sched, ns: seq<Move>, loose: set<Task>)
    requires Batch(s, ns, loose) && ns != []
    ensures Batch(s, ns[..|ns| - 1], loose)
    ensures ns[|ns| - 1].task !in loose ==> Spares(ns[..|ns| - 1], ns[|ns| - 1].task)
  {
    hide Ready;
  }

  /** A sweep over such tasks can be made one task at a time. */
  lemma {:induction false} BatchIsLegal(ms: seq<Move>, ns: seq<Move>, loose: set<Task>)
    requires LegalExcept(ms, loose) && Batch(Exec(ms), ns, loose)
    ensures LegalExcept(ms + ns, loose)
    ensures forall t :: t in Exec(ms).tasks && Spares(ns, t) ==>
      t in Exec(ms + ns).tasks && Exec(ms + ns).tasks[t] == Exec(ms).tasks[t]
  {
    hide Exec, LegalExcept, Allowed, Apply, Ready, SoundFor;
    if ns == [] {
      assert ms + ns == ms;
    } else {
      var k, m := |ns| - 1, ns[|ns| - 1];
      BatchPrefix(Exec(ms), ns, loose);
      BatchIsLegal(ms, ns[..k], loose);
      var s, n := Exec(ms), Exec(ms + ns[..k]);
      if m.task !in loose {
        ContainerDeterminesState(ms + ns[..k], loose, m.task);
        ReadyIsAllowed(n, m);
      }
      LegalOneMore(ms + ns[..k], loose, m);
      assert ms + ns == (ms + ns[..k]) + [m];
      forall t | t in s.tasks && Spares(ns, t)
        ensures t in Exec(ms + ns).tasks && Exec(ms + ns).tasks[t] == s.tasks[t]
      {
        assert t != m.task && Spares(ns[..k], t);
        OtherTasksStay(n, m, t);
      }
    }
  }

  lemma {:induction false} SweepMoves(order: seq<Task>, now: int, jitter: TaskId -> nat, i: nat)
    requires i < |order|
    ensures |Expiries(order, now, jitter)| == |Reclaims(order)| == |Releases(order, now)| == |order|
    ensures Expiries(order, now, jitter)[i] == Expire(order[i], now, jitter(order[i].spec.id))
    ensures Reclaims(order)[i] == Reclaim(order[i])
    ensures Releases(order, now)[i] == Release(order[i], now)
  {
    var k := |order| - 1;
    if i < k {
      SweepMoves(order[..k], now, jitter, i);
    } else if k > 0 {
      SweepMoves(order[..k], now, jitter, 0);
    }
  }

  /** Only loose tasks are listed twice. */
  ghost predicate OnceEach(order: seq<Task>, loose: set<Task>) {
    forall i, j :: 0 <= i < j < |order| && order[j] !in loose ==> order[i] != order[j]
  }

  lemma OnePerTask(s: Sched, order: seq<Task>, ns: seq<Move>, loose: set<Task>)
    requires OnceEach(order, loose) && |ns| == |order|
    requires forall i :: 0 <= i < |ns| ==> ns[i].task == order[i] && !ns[i].Enqueue? && order[i] in s.tasks
    requires forall i :: 0 <= i < |ns| && order[i] !in loose ==> Ready(s.tasks[order[i]], ns[i])
    ensures Batch(s, ns, loose)
  {
    hide Ready;
  }

  lemma ExpiriesBatch(s: Sched, order: seq<Task>, now: int, jitter: TaskId -> nat, loose: set<Task>)
    requires Distinct(order) && forall t :: t in order ==> t in s.tasks && Expired(s.tasks[t], now)
    ensures Batch(s, Expiries(order, now, jitter), loose)
  {
    hide Expiries, Batch, Expired;
    SweepLengths(order, now, jitter);
    forall i | 0 <= i < |order|
      ensures Expiries(order, now, jitter)[i] == Expire(order[i], now, jitter(order[i].spec.id))
    {
      SweepMoves(order, now, jitter, i);
    }
    OnePerTask(s, order, Expiries(order, now, jitter), loose);
  }

  lemma ReclaimsBatch(s: Sched, order: seq<Task>, loose: set<Task>)
    requires Distinct(order) && forall t :: t in order ==> t in s.tasks && (t in loose || s.tasks[t].state == Running)
    ensures Batch(s, Reclaims(order), loose)
  {
    hide Reclaims, Batch;
    SweepLengths(order, 0, _ => 0);
    forall i | 0 <= i < |order|
      ensures Reclaims(order)[i] == Reclaim(order[i])
    {
      SweepMoves(order, 0, _ => 0, i);
    }
    OnePerTask(s, order, Reclaims(order), loose);
  }

  lemma ReleasesBatch(s: Sched, order: seq<Task>, now: int, loose: set<Task>)
    requires OnceEach(order, loose)
    requires forall t :: t in order ==>
      t in s.tasks && (t in loose || (s.tasks[t].state == Retrying && Due(s.tasks[t], now)))
    ensures Batch(s, Releases(order, now), loose)
  {
    hide Releases, Batch, OnceEach, Due;
    SweepLengths(order, now, _ => 0);
    forall i | 0 <= i < |order|
      ensures Releases(order, now)[i] == Release(order[i], now)
    {
      SweepMoves(order, now, _ => 0, i);
    }
    OnePerTask(s, order, Releases(order, now), loose);
  }

  lemma SweepLengths(order: seq<Task>, now: int, jitter: TaskId -> nat)
    ensures |Expiries(order, now, jitter)| == |Reclaims(order)| == |Releases(order, now)| == |order|
  {
    if order != [] {
      SweepMoves(order, now, jitter, 0);
    }
  }

  lemma ExecAppend(ms: seq<Move>, ns: seq<Move>)
    ensures Exec(ms + ns) == Play(Exec(ms), ns)
  {
    hide Play;
    PlayAppend(EMPTY, ms, ns);
  }

  /** A timeout sweep is a stretch of a legal run, one Expire per task. */
  lemma TimeoutSweepIsLegal(ms: seq<Move>, loose: set<Task>, order: seq<Task>, now: int, jitter: TaskId -> nat)
    requires LegalExcept(ms, loose) && Enumerates(order, Overdue(Exec(ms), now))
    ensures LegalExcept(ms + Expiries(order, now, jitter), loose)
    ensures Exec(ms + Expiries(order, now, jitter)) == Play(Exec(ms), Expiries(order, now, jitter))
  {
    hide LegalExcept, Exec, Play, Expiries, Batch, Expired;
    ExpiriesBatch(Exec(ms), order, now, jitter, loose);
    BatchIsLegal(ms, Expiries(order, now, jitter), loose);
    ExecAppend(ms, Expiries(order, now, jitter));
  }

  /** Taking back a worker's tasks is a stretch of a legal run. */
  lemma RequeueIsLegal(ms: seq<Move>, loose: set<Task>, order: seq<Task>, workerId: Text)
    requires LegalExcept(ms, loose) && Enumerates(order, Owned(Exec(ms), workerId))
    ensures LegalExcept(ms + Reclaims(order), loose)
    ensures Exec(ms + Reclaims(order)) == Play(Exec(ms), Reclaims(order))
  {
    hide LegalExcept, Exec, Play, Reclaims, Batch;
    forall t | t in order
      ensures t in Exec(ms).tasks && (t in loose || Exec(ms).tasks[t].state == Running)
    {
      if t !in loose {
        ContainerDeterminesState(ms, loose, t);
      }
    }
    ReclaimsBatch(Exec(ms), order, loose);
    BatchIsLegal(ms, Reclaims(order), loose);
    ExecAppend(ms, Reclaims(order));
  }

  lemma {:induction false} ByDueBag(tasks: map<Task, Record>, ts: seq<Task>, now: int, due: bool)
    requires forall t :: t in ts ==> t in tasks
    ensures multiset(ByDue(tasks, ts, now, due)) <= multiset(ts)
  {
    if ts != [] {
      var rest, last := ts[..|ts| - 1], ts[|ts| - 1];
      ByDueBag(tasks, rest, now, due);
      var more := if Due(tasks[last], now) == due then [last] else [];
      assert ByDue(tasks, ts, now, due) == ByDue(tasks, rest, now, due) + more;
      hide ByDue;
      BagOneMore(ByDue(tasks, rest, now, due), more, rest, last, ts);
    }
  }

  lemma BagOneMore(part: seq<Task>, more: seq<Task>, rest: seq<Task>, t: Task, whole: seq<Task>)
    requires multiset(part) <= multiset(rest) && (more == [] || more == [t]) && whole == rest + [t]
    ensures multiset(part + more) <= multiset(whole)
  {
    assert part + [] == part;
  }

  lemma OnceInBag(q: seq<Task>, loose: set<Task>)
    requires forall t :: t in q && t !in loose ==> multiset(q)[t] <= 1
    ensures OnceEach(q, loose)
  {
    forall i, j | 0 <= i < j < |q| && q[j] !in loose
      ensures q[i] != q[j]
    {
      assert q == q[..j] + [q[j]] + q[j + 1..];
      assert q[i] in multiset(q[..j]) by { assert q[..j][i] == q[i]; }
      assert multiset(q)[q[j]] >= multiset(q[..j])[q[j]] + 1;
    }
  }

  lemma WaitingIsKnown(ms: seq<Move>, t: Task)
    requires Free(ms) && t in Exec(ms).retry
    ensures t in Exec(ms).tasks
  {
    hide Free, Exec;
    OccurrenceLaw(ms, t);
    CountRemove(Exec(ms).retry, t, t);
  }

  /** Releasing the due tasks of the retry list is a stretch of a legal run. */
  lemma RetriesAreLegal(ms: seq<Move>, loose: set<Task>, now: int)
    requires LegalExcept(ms, loose)
    ensures forall t :: t in Exec(ms).retry ==> t in Exec(ms).tasks
    ensures var due := ByDue(Exec(ms).tasks, Exec(ms).retry, now, true);
      && LegalExcept(ms + Releases(due, now), loose)
      && Exec(ms + Releases(due, now)) == Play(Exec(ms), Releases(due, now))
  {
    hide LegalExcept, Exec, Free, Play, Releases, Batch, ByDue, OnceEach;
    var s := Exec(ms);
    LegalIsFree(ms, loose);
    forall t | t in s.retry
      ensures t in s.tasks && (t in loose || (s.tasks[t].state == Retrying && multiset(s.retry)[t] == 1))
    {
      WaitingIsKnown(ms, t);
      if t !in loose {
        ContainerDeterminesState(ms, loose, t);
        CountRemove(s.retry, t, t);
      }
    }
    var due := ByDue(s.tasks, s.retry, now, true);
    ByDueBag(s.tasks, s.retry, now, true);
    OnceInBag(due, loose);
    ReleasesBatch(s, due, now, loose);
    BatchIsLegal(ms, Releases(due, now), loose);
    ExecAppend(ms, Releases(due, now));
  }
}
