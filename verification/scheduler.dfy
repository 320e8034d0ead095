/** The scheduler object: its containers of task objects and its locked
    operations, each proved against the moves of `SchedulerModel`. */
module Scheduling {
  import opened Basics
  import opened Tasks
  import opened PriorityQueue
  import Clock
  import Dashboard
  import M = SchedulerModel

  const MAX_COMPLETED := 100
  const MAX_QUEUED_IN_DASH := 200
  const MAX_COMPLETED_IN_DASH := 50

  datatype Stats = Stats(queueDepth: nat, inFlight: nat, retryPending: nat,
                         deadLettered: nat, totalCompleted: int, totalFailed: int)

  /** IDs tell the known tasks apart. */
  ghost predicate UniqueIds(known: set<Task>) {
    forall t, u :: t in known && u in known && t.spec.id == u.spec.id ==> t == u
  }

  /** The in-flight map holds exactly the tasks of `flying`, under their IDs. */
  ghost predicate KeyedById(inFlight: map<TaskId, Task>, flying: set<Task>) {
    && (forall id :: id in inFlight ==> inFlight[id].spec.id == id && inFlight[id] in flying)
    && (forall t :: t in flying ==> t.spec.id in inFlight && inFlight[t.spec.id] == t)
  }

  lemma {:induction false} KeyedCount(inFlight: map<TaskId, Task>, flying: set<Task>)
    requires KeyedById(inFlight, flying)
    ensures |inFlight| == |flying|
    decreases flying
  {
    if t :| t in flying {
      var rest := inFlight - {t.spec.id};
      assert rest.Keys == inFlight.Keys - {t.spec.id};
      KeyedCount(rest, flying - {t});
    } else {
      assert inFlight == map[];
    }
  }

  lemma KeyedOneMore(inFlight: map<TaskId, Task>, flying: set<Task>, known: set<Task>, t: Task)
    requires KeyedById(inFlight, flying) && UniqueIds(known) && flying <= known && t in known
    ensures KeyedById(inFlight[t.spec.id := t], flying + {t})
  {
  }

  lemma KeyedOneLess(inFlight: map<TaskId, Task>, flying: set<Task>, t: Task)
    requires KeyedById(inFlight, flying) && t in flying
    ensures KeyedById(inFlight - {t.spec.id}, flying - {t})
  {
  }

  lemma EnumerateOneMore(order: seq<Task>, ts: set<Task>, t: Task)
    requires Enumerates(order, ts) && t !in ts
    ensures Enumerates(order + [t], ts + {t})
  {
  }

  lemma Visit(goal: set<Task>, todo: set<Task>, t: Task)
    requires t in todo
    ensures t in goal ==> goal - (todo - {t}) == (goal - todo) + {t}
    ensures t !in goal ==> goal - (todo - {t}) == goal - todo
  {
  }

  /** The tasks in flight on a worker. */
  ghost function Owned(s: M.Sched, workerId: Text): set<Task> {
    set t | t in s.inFlight && t in s.tasks && s.tasks[t].workerId == workerId
  }

  /** The running tasks past their deadline. */
  ghost function Overdue(s: M.Sched, now: int): set<Task> {
    set t | t in s.inFlight && t in s.tasks && Expired(s.tasks[t], now)
  }

  /** The last `cap` elements, or all if there are fewer. */
  function LastUpTo<T>(s: seq<T>, cap: nat): seq<T> {
    s[|s| - Min(|s|, cap)..]
  }

  /** A window no longer than the second part sees only the second part. */
  lemma LastOfAppend<T>(a: seq<T>, b: seq<T>, cap: nat)
    requires a == [] || |b| >= cap
    ensures LastUpTo(a + b, cap) == LastUpTo(b, cap)
  {
    assert a == [] ==> a + b == b;
  }

  lemma CutAt<T>(a: seq<T>, b: seq<T>, n: nat)
    requires n <= |b|
    ensures a + b == (a + b[..n]) + b[n..]
  {
  }

  /** The tasks at these positions of ts do not have to come after t: each has
      a higher priority, or the same and was created no later. */
  ghost predicate NotAfter(ts: seq<Task>, positions: set<nat>, t: Task) {
    forall j :: j in positions ==>
      && j < |ts|
      && (|| ts[j].spec.priority > t.spec.priority
          || (ts[j].spec.priority == t.spec.priority && ts[j].spec.createdAt <= t.spec.createdAt))
  }

  ghost predicate ManyNotAfter(ts: seq<Task>, many: nat, t: Task) {
    exists positions :: |positions| >= many && NotAfter(ts, positions, t)
  }

  predicate Due(r: Record, now: int) {
    now > r.nextRetryAt
  }

  /** Those of ts whose retry time has passed (or has not), in order. */
  function ByDue(records: map<Task, Record>, ts: seq<Task>, now: int, due: bool): (r: seq<Task>)
    requires forall t :: t in ts ==> t in records
    ensures forall t :: t in r ==> t in ts && Due(records[t], now) == due
  {
    if ts == [] then []
    else
      var last := ts[|ts| - 1];
      ByDue(records, ts[..|ts| - 1], now, due) + if Due(records[last], now) == due then [last] else []
  }

  lemma ByDueOneMore(records: map<Task, Record>, ts: seq<Task>, k: nat, now: int, due: bool)
    requires forall t :: t in ts ==> t in records
    requires k < |ts|
    ensures ByDue(records, ts[..k + 1], now, due)
         == ByDue(records, ts[..k], now, due) + if Due(records[ts[k]], now) == due then [ts[k]] else []
  {
    assert ts[..k + 1][..k] == ts[..k];
  }

  /** The due and the others make up the list, each in the list's order. */
  lemma {:induction false} ByDueParts(records: map<Task, Record>, ts: seq<Task>, now: int)
    requires forall t :: t in ts ==> t in records
    ensures Parts(ts, ByDue(records, ts, now, true), ByDue(records, ts, now, false))
  {
    if ts != [] {
      hide Parts, Due, ByDue;
      var rest := ts[..|ts| - 1];
      ByDueParts(records, rest, now);
      ByDueLast(records, ts, now);
      PartsOneMore(ts, ByDue(records, rest, now, true), ByDue(records, rest, now, false),
                   ByDue(records, ts, now, true), ByDue(records, ts, now, false));
    }
  }

  lemma ByDueLast(records: map<Task, Record>, ts: seq<Task>, now: int)
    requires ts != [] && forall t :: t in ts ==> t in records
    ensures var rest, last := ts[..|ts| - 1], ts[|ts| - 1];
      var due, others := ByDue(records, rest, now, true), ByDue(records, rest, now, false);
      if Due(records[last], now)
      then ByDue(records, ts, now, true) == due + [last] && ByDue(records, ts, now, false) == others
      else ByDue(records, ts, now, true) == due && ByDue(records, ts, now, false) == others + [last]
  {
    hide Due;
    var rest := ts[..|ts| - 1];
    assert ByDue(records, rest, now, true) + [] == ByDue(records, rest, now, true);
    assert ByDue(records, rest, now, false) + [] == ByDue(records, rest, now, false);
  }

  /** Those are due whose retry time has passed, and the others are not. */
  lemma ByDueTimes(records: map<Task, Record>, ts: seq<Task>, now: int)
    requires forall t :: t in ts ==> t in records
    ensures forall t :: t in ByDue(records, ts, now, true) ==> t in ts && now > records[t].nextRetryAt
    ensures forall t :: t in ByDue(records, ts, now, false) ==> t in ts && now <= records[t].nextRetryAt
  {
  }

  lemma {:induction false} RemoveFirstAt(q: seq<Task>, i: nat)
    requires i < |q| && q[i] !in q[..i]
    ensures M.RemoveFirst(q, q[i]) == q[..i] + q[i + 1..]
  {
    if i > 0 {
      var rest := q[1..];
      assert forall k :: 0 <= k < i - 1 ==> rest[k] == q[..i][k + 1];
      RemoveFirstAt(rest, i - 1);
      assert [q[0]] + rest[..i - 1] == q[..i] && rest[i..] == q[i + 1..];
    }
  }

  // Operations that the methods carry out in parts.

  lemma FailureByParts(s: M.Sched, t: Task, error: Text, exitCode: int, now: int, jitter: nat)
    requires t in s.inFlight && t in s.tasks
    ensures var settled := M.Settle(s, t, AfterFailure(s.tasks[t], error, exitCode, now, jitter));
      && M.OnFail(s, t, error, exitCode, now, jitter) == settled.(totalFailed := settled.totalFailed + 1)
      && M.Outcomes(s, M.Fail(t, error, exitCode, now, jitter)) == M.FailureOutcomes(s.tasks[t], t.spec.id)
    ensures M.OnExpire(s, t, now, jitter)
         == M.Settle(s, t, AfterFailure(s.tasks[t], M.TIMEOUT_MESSAGE, -1, now, jitter))
    ensures M.Outcomes(s, M.Expire(t, now, jitter)) == M.FailureOutcomes(s.tasks[t], t.spec.id)
  {
    hide AfterFailure, M.FailureOutcomes;
  }

  lemma RevivalByParts(s: M.Sched, t: Task)
    requires t in s.dead && t in s.tasks
    ensures M.OnRevive(s, t) == s.(dead := M.RemoveFirst(s.dead, t), queue := s.queue + multiset{t},
                                   tasks := s.tasks[t := AfterRetryFromDLQ(s.tasks[t])])
    ensures M.Outcomes(s, M.Revive(t)) == [Attempted(s.tasks[t].state, Queued, t.spec.id)]
  {
    hide AfterRetryFromDLQ;
  }

  // The moves that make up one sweep over several tasks.

  function Reclaims(ts: seq<Task>): seq<M.Move> {
    if ts == [] then [] else Reclaims(ts[..|ts| - 1]) + [M.Reclaim(ts[|ts| - 1])]
  }

  function Releases(ts: seq<Task>, now: int): seq<M.Move> {
    if ts == [] then [] else Releases(ts[..|ts| - 1], now) + [M.Release(ts[|ts| - 1], now)]
  }

  function Expiries(ts: seq<Task>, now: int, jitter: TaskId -> nat): seq<M.Move> {
    if ts == [] then []
    else
      var last := ts[|ts| - 1];
      Expiries(ts[..|ts| - 1], now, jitter) + [M.Expire(last, now, jitter(last.spec.id))]
  }

  lemma PlayReclaim(s: M.Sched, ts: seq<Task>, t: Task)
    ensures M.Play(s, Reclaims(ts + [t])) == M.OnReclaim(M.Play(s, Reclaims(ts)), t)
  {
    hide M.OnReclaim;
    assert (ts + [t])[..|ts|] == ts;
    M.PlayOneMore(s, Reclaims(ts), M.Reclaim(t));
  }

  lemma PlayRelease(s: M.Sched, ts: seq<Task>, t: Task, now: int)
    ensures M.Play(s, Releases(ts + [t], now)) == M.OnRelease(M.Play(s, Releases(ts, now)), t)
    ensures M.OutcomesOf(s, Releases(ts + [t], now))
         == M.OutcomesOf(s, Releases(ts, now)) + M.Outcomes(M.Play(s, Releases(ts, now)), M.Release(t, now))
  {
    hide M.Outcomes, M.OnRelease;
    assert (ts + [t])[..|ts|] == ts;
    M.PlayOneMore(s, Releases(ts, now), M.Release(t, now));
    M.OutcomesOneMore(s, Releases(ts, now), M.Release(t, now));
    hide M.Play, M.OutcomesOf;
  }

  lemma PlayExpire(s: M.Sched, ts: seq<Task>, k: nat, now: int, jitter: TaskId -> nat)
    requires k < |ts|
    ensures M.Play(s, Expiries(ts[..k + 1], now, jitter))
         == M.OnExpire(M.Play(s, Expiries(ts[..k], now, jitter)), ts[k], now, jitter(ts[k].spec.id))
    ensures M.OutcomesOf(s, Expiries(ts[..k + 1], now, jitter))
         == M.OutcomesOf(s, Expiries(ts[..k], now, jitter))
            + M.Outcomes(M.Play(s, Expiries(ts[..k], now, jitter)), M.Expire(ts[k], now, jitter(ts[k].spec.id)))
  {
    hide M.Outcomes, M.OnExpire;
    assert ts[..k + 1][..k] == ts[..k];
    M.PlayOneMore(s, Expiries(ts[..k], now, jitter), M.Expire(ts[k], now, jitter(ts[k].spec.id)));
    M.OutcomesOneMore(s, Expiries(ts[..k], now, jitter), M.Expire(ts[k], now, jitter(ts[k].spec.id)));
    hide M.Play, M.OutcomesOf;
  }

  /** How `RequeueFromWorker`, started in s, stands in v: the tasks of `todo` are
      still to be looked at, those of `order` have been taken back. */
  ghost predicate Taking(s: M.Sched, workerId: Text, todo: set<Task>, v: M.Sched, order: seq<Task>) {
    && v == M.Play(s, Reclaims(order))
    && todo <= v.inFlight && todo <= s.inFlight && s.inFlight <= s.tasks.Keys && v.tasks.Keys == s.tasks.Keys
    && (forall t :: t in todo ==> v.tasks[t] == s.tasks[t])
    && Enumerates(order, Owned(s, workerId) - todo)
  }

  lemma NoneTaken(s: M.Sched, workerId: Text)
    requires s.inFlight <= s.tasks.Keys
    ensures Taking(s, workerId, s.inFlight, s, [])
  {
    assert Owned(s, workerId) - s.inFlight == {};
  }

  lemma SkipStep(s: M.Sched, workerId: Text, todo: set<Task>, v: M.Sched, order: seq<Task>, t: Task)
    requires Taking(s, workerId, todo, v, order) && t in todo && v.tasks[t].workerId != workerId
    ensures Taking(s, workerId, todo - {t}, v, order)
  {
    hide M.Play, Reclaims, Enumerates;
    Visit(Owned(s, workerId), todo, t);
  }

  lemma TakeStep(s: M.Sched, workerId: Text, todo: set<Task>, v: M.Sched, order: seq<Task>, t: Task)
    requires Taking(s, workerId, todo, v, order) && t in todo && v.tasks[t].workerId == workerId
    ensures Taking(s, workerId, todo - {t}, M.OnReclaim(v, t), order + [t])
  {
    hide M.Play, Reclaims, Enumerates;
    PlayReclaim(s, order, t);
    Visit(Owned(s, workerId), todo, t);
    EnumerateOneMore(order, Owned(s, workerId) - todo, t);
  }

  lemma AllTaken(s: M.Sched, workerId: Text, v: M.Sched, order: seq<Task>)
    requires Taking(s, workerId, {}, v, order)
    ensures v == M.Play(s, Reclaims(order)) && Enumerates(order, Owned(s, workerId))
  {
    hide M.Play, Reclaims, Enumerates;
    assert Owned(s, workerId) - {} == Owned(s, workerId);
  }

  /** The same tasks with the same retry times. */
  predicate SameRetryTimes(a: map<Task, Record>, b: map<Task, Record>) {
    && a.Keys == b.Keys
    && forall t :: t in a ==> a[t].nextRetryAt == b[t].nextRetryAt
  }

  /** The first k tasks of the retry list fall into `released` and `kept`. */
  predicate Looked(s: M.Sched, now: int, k: nat, released: seq<Task>, kept: seq<Task>) {
    && k <= |s.retry|
    && (forall t :: t in s.retry ==> t in s.tasks)
    && released == ByDue(s.tasks, s.retry[..k], now, true)
    && kept == ByDue(s.tasks, s.retry[..k], now, false)
  }

  predicate Played(s: M.Sched, now: int, w: M.Sched, released: seq<Task>, dropped: seq<Outcome>) {
    && w == M.Play(s, Releases(released, now))
    && dropped == M.OutcomesOf(s, Releases(released, now))
  }

  /** How `ProcessRetries`, started in s, stands after the first k tasks of its
      list: `released` are back on the queue of v, `kept` wait again, and the
      rest is still to be looked at. */
  predicate Midway(s: M.Sched, now: int, k: nat, v: M.Sched, released: seq<Task>, kept: seq<Task>,
                   dropped: seq<Outcome>) {
    && Looked(s, now, k, released, kept) && SameRetryTimes(v.tasks, s.tasks)
    && Played(s, now, v.(retry := kept + s.retry[k..]), released, dropped)
  }

  lemma NothingLookedAt(s: M.Sched, now: int)
    requires forall t :: t in s.retry ==> t in s.tasks
    ensures Midway(s, now, 0, s, [], [], [])
  {
    assert [] + s.retry[0..] == s.retry;
  }

  lemma LookedOneMore(s: M.Sched, now: int, k: nat, released: seq<Task>, kept: seq<Task>)
    requires k < |s.retry| && Looked(s, now, k, released, kept)
    ensures s.retry[k] in s.tasks
    ensures Due(s.tasks[s.retry[k]], now) ==>
      s.retry[k] !in kept && Looked(s, now, k + 1, released + [s.retry[k]], kept)
    ensures !Due(s.tasks[s.retry[k]], now) ==> Looked(s, now, k + 1, released, kept + [s.retry[k]])
  {
    ByDueOneMore(s.tasks, s.retry, k, now, true);
    ByDueOneMore(s.tasks, s.retry, k, now, false);
  }

  lemma PlayedOneMore(s: M.Sched, now: int, w: M.Sched, released: seq<Task>, dropped: seq<Outcome>, t: Task)
    requires Played(s, now, w, released, dropped) && t in w.retry && t in w.tasks
    ensures Played(s, now, M.OnRelease(w, t), released + [t], dropped + [Attempted(w.tasks[t].state, Queued,
                   t.spec.id)])
  {
    hide M.Play, M.OutcomesOf, Releases, M.OnRelease;
    PlayRelease(s, released, t, now);
  }

  lemma KeepPast(kept: seq<Task>, ts: seq<Task>, k: nat)
    requires k < |ts|
    ensures kept + [ts[k]] + ts[k + 1..] == kept + ts[k..]
  {
  }

  lemma KeepStep(s: M.Sched, now: int, k: nat, v: M.Sched, released: seq<Task>, kept: seq<Task>, dropped: seq<Outcome>)
    requires k < |s.retry| && Midway(s, now, k, v, released, kept, dropped)
    requires s.retry[k] in v.tasks && !Due(v.tasks[s.retry[k]], now)
    ensures Midway(s, now, k + 1, v, released, kept + [s.retry[k]], dropped)
  {
    hide Looked, Played;
    LookedOneMore(s, now, k, released, kept);
    KeepPast(kept, s.retry, k);
  }

  /** Releasing the first task past `kept` leaves the rest of the list behind it. */
  lemma RemovePast(kept: seq<Task>, ts: seq<Task>, k: nat)
    requires k < |ts| && ts[k] !in kept
    ensures ts[k] in kept + ts[k..]
    ensures M.RemoveFirst(kept + ts[k..], ts[k]) == kept + ts[k + 1..]
  {
    var q := kept + ts[k..];
    assert q[|kept|] == ts[k] && q[..|kept|] == kept;
    RemoveFirstAt(q, |kept|);
    assert q[|kept| + 1..] == ts[k + 1..];
  }

  lemma ReleaseMove(v: M.Sched, kept: seq<Task>, ts: seq<Task>, k: nat)
    requires k < |ts| && ts[k] !in kept && ts[k] in v.tasks
    ensures ts[k] in kept + ts[k..]
    ensures M.PutBack(v, ts[k], AfterTransition(v.tasks[ts[k]], Queued)).(retry := kept + ts[k + 1..])
         == M.OnRelease(v.(retry := kept + ts[k..]), ts[k])
  {
    RemovePast(kept, ts, k);
  }

  lemma SameTimesKept(a: map<Task, Record>, b: map<Task, Record>, t: Task, r: Record)
    requires SameRetryTimes(a, b) && t in a && r.nextRetryAt == a[t].nextRetryAt
    ensures SameRetryTimes(a[t := r], b)
  {
  }

  lemma ReleaseStep(s: M.Sched, now: int, k: nat, v: M.Sched, released: seq<Task>, kept: seq<Task>,
                    dropped: seq<Outcome>)
    requires k < |s.retry| && Midway(s, now, k, v, released, kept, dropped)
    requires s.retry[k] in v.tasks && Due(v.tasks[s.retry[k]], now)
    ensures var t := s.retry[k];
      Midway(s, now, k + 1, M.PutBack(v, t, AfterTransition(v.tasks[t], Queued)), released + [t], kept,
             dropped + [Attempted(v.tasks[t].state, Queued, t.spec.id)])
  {
    hide Looked, Played, M.OnRelease;
    var t := s.retry[k];
    LookedOneMore(s, now, k, released, kept);
    SameTimesKept(v.tasks, s.tasks, t, AfterTransition(v.tasks[t], Queued));
    ReleaseMove(v, kept, s.retry, k);
    PlayedOneMore(s, now, v.(retry := kept + s.retry[k..]), released, dropped, t);
    hide SameRetryTimes;
  }

  lemma MidwayKnows(s: M.Sched, now: int, k: nat, v: M.Sched, released: seq<Task>, kept: seq<Task>,
                    dropped: seq<Outcome>)
    requires k < |s.retry| && Midway(s, now, k, v, released, kept, dropped)
    ensures s.retry[k] in v.tasks
  {
  }

  lemma AllLookedAt(s: M.Sched, now: int, v: M.Sched, released: seq<Task>, kept: seq<Task>, dropped: seq<Outcome>)
    requires Midway(s, now, |s.retry|, v, released, kept, dropped)
    ensures (forall t :: t in s.retry ==> t in s.tasks) && v.tasks.Keys == s.tasks.Keys
    ensures released == ByDue(s.tasks, s.retry, now, true) && kept == ByDue(s.tasks, s.retry, now, false)
    ensures v.(retry := kept) == M.Play(s, Releases(released, now))
    ensures dropped == M.OutcomesOf(s, Releases(released, now))
  {
    assert s.retry[..|s.retry|] == s.retry && kept + [] == kept;
    hide ByDue, M.Play, M.OutcomesOf, Releases;
  }

  /** The one-slot channel that wakes dispatch loops. */
  class Signal {
    var pending: bool

    constructor ()
      ensures !pending
    {
      pending := false;
    }

    /** A send that gives up when the slot is taken. */
    method TrySend()
      modifies this
      ensures pending
    {
      pending := true;
    }

    /** Takes the token, if there is one. */
    method TryReceive() returns (got: bool)
      modifies this
      ensures got == old(pending) && !pending
    {
      got := pending;
      pending := false;
    }
  }

  class Scheduler {
    var queue: seq<Task>
    var inFlight: map<TaskId, Task>
    var retryQueue: seq<Task>
    var deadLetter: seq<Task>
    var completed: seq<Task>
    var totalCompleted: int
    var totalFailed: nat
    const notify: Signal

    ghost var records: map<Task, Record>  // every task ever enqueued, with its value
    ghost var flying: set<Task>           // the tasks in `inFlight`
    ghost var archived: seq<Task>         // completions that left `completed`
    ghost var finished: seq<Task>         // every completion, oldest first

    // What holds of the containers, whatever the tasks' own fields say.

    ghost predicate QueueShape()
      reads `queue, `records
    {
      IsHeap(queue) && forall t :: t in queue ==> t in records
    }

    ghost predicate FlightShape()
      reads `inFlight, `flying, `records
    {
      flying <= records.Keys && KeyedById(inFlight, flying)
    }

    ghost predicate WaitingShape()
      reads `retryQueue, `records
    {
      forall t :: t in retryQueue ==> t in records
    }

    ghost predicate DeadShape()
      reads `deadLetter, `records
    {
      forall t :: t in deadLetter ==> t in records
    }

    ghost predicate HistoryShape()
      reads `completed, `archived, `finished, `totalCompleted
    {
      && finished == archived + completed && totalCompleted == |finished|
      && |completed| <= MAX_COMPLETED && (|archived| > 0 ==> |completed| == MAX_COMPLETED)
    }

    ghost predicate Shape()
      reads this
    {
      && UniqueIds(records.Keys)
      && QueueShape() && FlightShape() && WaitingShape() && DeadShape() && HistoryShape()
    }

    ghost predicate Valid()
      reads this, records.Keys
    {
      && Shape()
      && forall t :: t in records ==> records[t] == t.Value()
    }

    /** The scheduler as a value. */
    ghost function View(): M.Sched
      reads this
    {
      M.Sched(records, multiset(queue), flying, retryQueue, deadLetter, finished, totalFailed)
    }

    /** Whenever tasks are queued a token waits for a dispatch loop. */
    ghost predicate Signalled()
      reads this, notify
    {
      queue != [] ==> notify.pending
    }

    constructor ()
      ensures Valid() && View() == M.EMPTY && fresh(notify) && !notify.pending
    {
      queue, inFlight, retryQueue, deadLetter, completed := [], map[], [], [], [];
      totalCompleted, totalFailed := 0, 0;
      records, flying, archived, finished := map[], {}, [], [];
      notify := new Signal();
    }

    /** A task found in flight by its ID is known. */
    lemma InFlightIsKnown(taskId: TaskId)
      requires Valid() && taskId in inFlight
      ensures inFlight[taskId] in flying && inFlight[taskId] in records
    {
    }

    lemma ValueIsRecorded(t: Task)
      requires Valid() && t in records
      ensures records[t] == t.Value()
    {
    }

    lemma WaitingIsKnown()
      requires Valid()
      ensures forall t :: t in retryQueue ==> t in records
    {
    }

    lemma FlyingIsKnown()
      requires Valid()
      ensures flying <= records.Keys
    {
    }

    // The elementary steps: each moves or updates one task and keeps the invariant.

    method PushTask(t: Task)
      requires Valid() && t in records
      modifies `queue
      ensures Valid()
      ensures View() == old(View()).(queue := old(View()).queue + multiset{t})
    {
      hide FlightShape, WaitingShape, DeadShape, HistoryShape, IsHeap, UniqueIds;
      queue := Push(queue, t);
      assert forall u :: u in queue ==> u in multiset(queue);
    }

    method PopTask() returns (t: Task)
      requires Valid() && queue != []
      modifies `queue
      ensures Valid()
      ensures t in old(View()).queue && t in records && M.Front(old(View()), t)
      ensures View() == old(View()).(queue := old(View()).queue - multiset{t})
      ensures forall u :: u in old(queue) ==>
        || u.spec.priority < t.spec.priority
        || (u.spec.priority == t.spec.priority && t.spec.createdAt <= u.spec.createdAt)
    {
      hide FlightShape, WaitingShape, DeadShape, HistoryShape, UniqueIds;
      ghost var was := queue;
      t, queue := Pop(queue);
      assert t in multiset(was);
      forall u | u in queue
        ensures u in was
      {
        assert u in multiset(was);
      }
    }

    method Launch(t: Task)
      requires Valid() && t in records
      modifies `inFlight, `flying
      ensures Valid()
      ensures View() == old(View()).(inFlight := old(View()).inFlight + {t})
    {
      hide QueueShape, WaitingShape, DeadShape, HistoryShape;
      KeyedOneMore(inFlight, flying, records.Keys, t);
      hide KeyedById, UniqueIds;
      inFlight := inFlight[t.spec.id := t];
      flying := flying + {t};
    }

    method Land(t: Task)
      requires Valid() && t in flying
      modifies `inFlight, `flying
      ensures Valid()
      ensures View() == old(View()).(inFlight := old(View()).inFlight - {t})
    {
      hide QueueShape, WaitingShape, DeadShape, HistoryShape;
      KeyedOneLess(inFlight, flying, t);
      hide KeyedById, UniqueIds;
      inFlight := inFlight - {t.spec.id};
      flying := flying - {t};
    }

    /** Files a failed task under retry or dead-letter. */
    method FileFailed(t: Task)
      requires Valid() && t in records
      modifies `deadLetter, `retryQueue
      ensures Valid()
      ensures View() == var v := old(View());
        if t.state == Dead then v.(dead := v.dead + [t]) else v.(retry := v.retry + [t])
    {
      hide QueueShape, FlightShape, HistoryShape;
      if t.state == Dead {
        deadLetter := deadLetter + [t];
      } else {
        retryQueue := retryQueue + [t];
      }
    }

    /** Appends to the completed list and cuts it to its last 100. */
    method RecordCompletion(t: Task)
      requires Valid()
      modifies `totalCompleted, `completed, `archived, `finished
      ensures Valid()
      ensures View() == old(View()).(finished := old(View()).finished + [t])
    {
      hide QueueShape, FlightShape, WaitingShape, DeadShape;
      totalCompleted := totalCompleted + 1;
      completed := completed + [t];
      finished := finished + [t];
      if |completed| > MAX_COMPLETED {
        CutAt(archived, completed, |completed| - MAX_COMPLETED);
        archived := archived + completed[..|completed| - MAX_COMPLETED];
        completed := completed[|completed| - MAX_COMPLETED..];
      }
    }

    method CountFailure()
      requires Valid()
      modifies `totalFailed
      ensures Valid()
      ensures View() == old(View()).(totalFailed := old(View()).totalFailed + 1)
    {
      hide QueueShape, FlightShape, WaitingShape, DeadShape, HistoryShape;
      totalFailed := totalFailed + 1;
    }

    /** The tasks in flight, to be visited in any order. */
    method FlyingTasks() returns (ts: set<Task>)
      requires Valid()
      ensures ts == flying
    {
      ts := inFlight.Values;
      assert forall t :: t in flying ==> inFlight[t.spec.id] in inFlight.Values;
    }

    /** `Fail` and `ScheduleRetry` on one task; the code discards both errors. */
    method FailTask(t: Task, errMsg: Text, exitCode: int, now: int, jitter: nat) returns (ghost dropped: seq<Outcome>)
      requires Valid() && t in records
      modifies `records, t
      ensures Valid()
      ensures View() == var v := old(View());
        v.(tasks := v.tasks[t := AfterFailure(v.tasks[t], errMsg, exitCode, now, jitter)])
      ensures dropped == M.FailureOutcomes(old(records)[t], t.spec.id)
    {
      var failed := t.Fail(errMsg, exitCode, now);
      var filed := t.ScheduleRetry(now, jitter);
      dropped := [failed, filed];
      records := records[t := t.Value()];
    }

    method CompleteTask(t: Task, output: Text, exitCode: int, now: int) returns (ghost dropped: seq<Outcome>)
      requires Valid() && t in records
      modifies `records, t
      ensures Valid()
      ensures View() == var v := old(View());
        v.(tasks := v.tasks[t := AfterComplete(v.tasks[t], output, exitCode, now)])
      ensures dropped == [Attempted(old(records)[t].state, Completed, t.spec.id)]
    {
      var completion := t.Complete(output, exitCode, now);
      dropped := [completion];
      records := records[t := t.Value()];
    }

    /** What a dispatch loop does to a task it has dequeued: Assign, then Start;
        the code discards both errors. */
    method StartTask(t: Task, worker: Text, now: int) returns (ghost dropped: seq<Outcome>)
      requires Valid() && t in records
      modifies `records, t
      ensures Valid() && notify.pending == old(notify.pending)
      ensures View() == var v := old(View());
        v.(tasks := v.tasks[t := AfterStart(AfterAssign(v.tasks[t], worker, now), now)])
      ensures dropped == M.DispatchOutcomes(old(records)[t], t.spec.id)
    {
      var assignment := t.Assign(worker, now);
      var start := t.Start(now);
      dropped := [assignment, start];
      records := records[t := t.Value()];
    }

    method Notify()
      modifies notify
      ensures notify.pending
    {
      notify.TrySend();
    }

    /** Ghost bookkeeping: the task is known from here on. */
    ghost method Remember(t: Task)
      requires Valid() && UniqueIds(records.Keys + {t})
      modifies `records
      ensures Valid() && t in records
      ensures View() == old(View()).(tasks := old(View()).tasks[t := t.Value()])
    {
      assert records[t := t.Value()].Keys == records.Keys + {t};
      hide UniqueIds, HistoryShape, KeyedById, IsHeap;
      records := records[t := t.Value()];
    }

    // The operations.

    method Enqueue(t: Task)
      requires Valid() && UniqueIds(records.Keys + {t})
      modifies `queue, notify, `records
      ensures Valid() && notify.pending
      ensures View() == M.OnEnqueue(old(View()), t, t.Value())
    {
      Remember(t);
      hide Shape, UniqueIds;
      PushTask(t);
      Notify();
    }

    method Dequeue() returns (t: Task?)
      requires Valid()
      modifies `queue, `inFlight, `flying, notify
      ensures Valid()
      ensures t == null <==> |old(queue)| == 0
      ensures t == null ==> View() == old(View()) && notify.pending == old(notify.pending)
      ensures t != null ==>
        && t in old(View()).queue && t in old(records) && M.Front(old(View()), t)
        && View() == M.OnDequeue(old(View()), t)
        && notify.pending == (old(notify.pending) || |queue| > 0)
      ensures t != null ==> forall u :: u in old(queue) ==>
        || u.spec.priority < t.spec.priority
        || (u.spec.priority == t.spec.priority && t.spec.createdAt <= u.spec.createdAt)
    {
      hide Shape, Valid, M.Front;
      if |queue| == 0 {
        return null;
      }
      t := PopTask();
      Launch(t);
      if |queue| > 0 {
        Notify();
      }
    }

    method Complete(taskId: TaskId, output: Text, exitCode: int, now: int)
      returns (t: Task?, ghost dropped: seq<Outcome>)
      requires Valid()
      modifies `inFlight, `flying, `totalCompleted, `archived, `completed, `finished, `records, records.Keys
      ensures Valid()
      ensures t == if taskId in old(inFlight) then old(inFlight)[taskId] else null
      ensures t != null ==> t in old(flying) && t in old(records)
      ensures View() == if t == null then old(View()) else M.OnComplete(old(View()), t, output, exitCode, now)
      ensures dropped == if t == null then [] else M.Outcomes(old(View()), M.Complete(t, output, exitCode, now))
    {
      if taskId !in inFlight {
        return null, [];
      }
      InFlightIsKnown(taskId);
      t := inFlight[taskId];
      hide Shape, AfterComplete, Valid;
      Land(t);
      dropped := CompleteTask(t, output, exitCode, now);
      RecordCompletion(t);
    }

    /** Takes a failing task out of flight and files it. */
    method FailOne(t: Task, errMsg: Text, exitCode: int, now: int, jitter: nat) returns (ghost dropped: seq<Outcome>)
      requires Valid() && t in flying
      modifies `inFlight, `flying, `deadLetter, `retryQueue, `records, t
      ensures Valid()
      ensures View() == M.Settle(old(View()), t, AfterFailure(old(records)[t], errMsg, exitCode, now, jitter))
      ensures dropped == M.FailureOutcomes(old(records)[t], t.spec.id)
    {
      FlyingIsKnown();
      hide Shape, AfterFailure, M.FailureOutcomes, Valid;
      Land(t);
      dropped := FailTask(t, errMsg, exitCode, now, jitter);
      FileFailed(t);
    }

    method Fail(taskId: TaskId, errMsg: Text, exitCode: int, now: int, jitter: nat)
      returns (t: Task?, ghost dropped: seq<Outcome>)
      requires Valid()
      modifies `inFlight, `flying, `deadLetter, `retryQueue, `records, `totalFailed, records.Keys
      ensures Valid()
      ensures t == if taskId in old(inFlight) then old(inFlight)[taskId] else null
      ensures t != null ==> t in old(flying) && t in old(records)
      ensures View() == if t == null then old(View()) else M.OnFail(old(View()), t, errMsg, exitCode, now, jitter)
      ensures dropped == if t == null then [] else M.Outcomes(old(View()), M.Fail(t, errMsg, exitCode, now, jitter))
    {
      if taskId !in inFlight {
        return null, [];
      }
      InFlightIsKnown(taskId);
      t := inFlight[taskId];
      FailureByParts(View(), t, errMsg, exitCode, now, jitter);
      hide Shape, Valid, AfterFailure, M.FailureOutcomes, M.Settle, M.OnFail, M.Outcomes;
      dropped := FailOne(t, errMsg, exitCode, now, jitter);
      CountFailure();
    }

    /** One task of `RequeueFromWorker`. The code writes the state directly. */
    method RequeueOne(t: Task)
      requires Valid() && t in flying
      modifies `inFlight, `flying, `queue, `records, t
      ensures Valid()
      ensures View() == M.OnReclaim(old(View()), t)
      ensures flying == old(flying) - {t} && records.Keys == old(records.Keys)
    {
      FlyingIsKnown();
      hide Shape, Valid;
      Land(t);
      ResetTask(t);
      PushTask(t);
    }

    method ResetTask(t: Task)
      requires Valid() && t in records
      modifies `records, t
      ensures Valid()
      ensures View() == var v := old(View());
        v.(tasks := v.tasks[t := v.tasks[t].(state := Queued, workerId := EMPTY_TEXT)])
      ensures t.state == Queued && t.workerId == EMPTY_TEXT
    {
      t.state := Queued;
      t.workerId := EMPTY_TEXT;
      records := records[t := t.Value()];
    }

    /** One turn of the loop of `RequeueFromWorker`. */
    method TakeIfOwned(t: Task, workerId: Text, ghost start: M.Sched, ghost todo: set<Task>, ghost order: seq<Task>)
      returns (took: bool)
      requires Valid() && Taking(start, workerId, todo, View(), order) && t in todo && todo <= flying
      modifies `inFlight, `flying, `queue, `records, t
      ensures Valid() && Taking(start, workerId, todo - {t}, View(), if took then order + [t] else order)
      ensures todo - {t} <= flying && records.Keys == old(records.Keys) && (!took ==> queue == old(queue))
    {
      FlyingIsKnown();
      hide M.OnReclaim, Taking, Shape;
      took := t.workerId == workerId;
      if took {
        TakeStep(start, workerId, todo, View(), order, t);
        RequeueOne(t);
      } else {
        SkipStep(start, workerId, todo, View(), order, t);
      }
    }

    /** The loop of `RequeueFromWorker`. */
    method TakeEach(todoAtFirst: set<Task>, workerId: Text, ghost start: M.Sched)
      returns (count: nat, ghost order: seq<Task>)
      requires Valid() && Taking(start, workerId, todoAtFirst, View(), [])
      requires todoAtFirst <= flying && todoAtFirst <= records.Keys
      modifies `inFlight, `flying, `queue, `records, records.Keys
      ensures Valid() && Taking(start, workerId, {}, View(), order)
      ensures count == |order| && (count == 0 ==> queue == old(queue))
    {
      hide M.OnReclaim, Taking, Shape, Valid;
      count, order := 0, [];
      var todo := todoAtFirst;
      while todo != {}
        invariant Valid() && Taking(start, workerId, todo, View(), order)
        invariant todo <= flying && todo <= todoAtFirst && records.Keys == old(records.Keys)
        invariant count == |order| && (count == 0 ==> queue == old(queue))
        decreases todo
      {
        var t :| t in todo;
        var took := TakeIfOwned(t, workerId, start, todo, order);
        if took {
          order := order + [t];
          count := count + 1;
        }
        todo := todo - {t};
      }
    }

    method RequeueOwned(workerId: Text) returns (count: nat, ghost order: seq<Task>)
      requires Valid()
      modifies `inFlight, `flying, `queue, `records, records.Keys
      ensures Valid()
      ensures Enumerates(order, Owned(old(View()), workerId)) && count == |order|
      ensures View() == M.Play(old(View()), Reclaims(order))
      ensures count == 0 ==> queue == old(queue)
    {
      FlyingIsKnown();
      var ts := FlyingTasks();
      ghost var start := View();
      NoneTaken(start, workerId);
      hide M.Play, Reclaims, Enumerates, Owned, Taking, Shape, Valid;
      count, order := TakeEach(ts, workerId, start);
      AllTaken(start, workerId, View(), order);
    }

    method RequeueFromWorker(workerId: Text) returns (count: nat, ghost order: seq<Task>)
      requires Valid()
      modifies `inFlight, `flying, `queue, `records, notify, records.Keys
      ensures Valid()
      ensures Enumerates(order, Owned(old(View()), workerId)) && count == |order|
      ensures forall t :: t in order ==> t in old(flying)
      ensures forall t :: t in old(flying) ==>
        t in old(records) && (t in order <==> old(records)[t].workerId == workerId)
      ensures View() == M.Play(old(View()), Reclaims(order))
      ensures notify.pending == (old(notify.pending) || count > 0)
      ensures old(Signalled()) ==> Signalled()
    {
      FlyingIsKnown();
      count, order := RequeueOwned(workerId);
      if count > 0 {
        Notify();
      }
    }

    /** Puts a waiting task back on the queue, before it leaves the retry list. */
    method ReleaseTask(t: Task) returns (ghost dropped: seq<Outcome>)
      requires Valid() && t in records
      modifies `queue, `records, t
      ensures Valid()
      ensures View() == M.PutBack(old(View()), t, AfterTransition(old(View()).tasks[t], Queued))
      ensures dropped == [Attempted(old(records)[t].state, Queued, t.spec.id)] && records.Keys == old(records.Keys)
    {
      dropped := RequeueTask(t);
      PushTask(t);
    }

    method RequeueTask(t: Task) returns (ghost dropped: seq<Outcome>)
      requires Valid() && t in records
      modifies `records, t
      ensures Valid()
      ensures View() == var v := old(View());
        v.(tasks := v.tasks[t := AfterTransition(v.tasks[t], Queued)])
      ensures dropped == [Attempted(old(records)[t].state, Queued, t.spec.id)]
    {
      var requeue := t.Requeue();
      dropped := [requeue];
      records := records[t := t.Value()];
    }

    /** One turn of the loop of `ProcessRetries`. */
    method ReleaseIfDue(k: nat, now: int, ghost start: M.Sched, ghost released: seq<Task>, ghost kept: seq<Task>,
                        ghost dropped: seq<Outcome>)
      returns (due: bool, ghost outcome: seq<Outcome>)
      requires Valid() && k < |retryQueue| && retryQueue == start.retry
      requires Midway(start, now, k, View(), released, kept, dropped)
      modifies `queue, `records, retryQueue[k]
      ensures Valid() && records.Keys == old(records.Keys) && (!due ==> queue == old(queue))
      ensures Midway(start, now, k + 1, View(), if due then released + [retryQueue[k]] else released,
                     if due then kept else kept + [retryQueue[k]], dropped + outcome)
    {
      var t := retryQueue[k];
      outcome := [];
      assert dropped + [] == dropped;
      MidwayKnows(start, now, k, View(), released, kept, dropped);
      ValueIsRecorded(t);
      hide Midway, M.PutBack, Shape, Valid;
      due := now > t.nextRetryAt;
      if due {
        ReleaseStep(start, now, k, View(), released, kept, dropped);
        outcome := ReleaseTask(t);
      } else {
        KeepStep(start, now, k, View(), released, kept, dropped);
      }
    }

    /** The loop of `ProcessRetries`. */
    method ReleaseEach(now: int, ghost start: M.Sched)
      returns (remaining: seq<Task>, count: nat, ghost released: seq<Task>, ghost dropped: seq<Outcome>)
      requires Valid() && retryQueue == start.retry && Midway(start, now, 0, View(), [], [], [])
      requires forall t :: t in retryQueue ==> t in records
      modifies `queue, `records, records.Keys
      ensures Valid() && count == |released| && (count == 0 ==> queue == old(queue))
      ensures Midway(start, now, |retryQueue|, View(), released, remaining, dropped)
    {
      hide Midway, Shape, Valid;
      remaining, count, released, dropped := [], 0, [], [];
      for k := 0 to |retryQueue|
        invariant Valid() && count == |released| && (count == 0 ==> queue == old(queue))
        invariant records.Keys == old(records.Keys)
        invariant Midway(start, now, k, View(), released, remaining, dropped)
      {
        var t := retryQueue[k];
        var due;
        ghost var outcome;
        due, outcome := ReleaseIfDue(k, now, start, released, remaining, dropped);
        dropped := dropped + outcome;
        if due {
          released := released + [t];
          count := count + 1;
        } else {
          remaining := remaining + [t];
        }
      }
    }

    method ReleaseDue(now: int)
      returns (remaining: seq<Task>, count: nat, ghost released: seq<Task>, ghost dropped: seq<Outcome>)
      requires Valid()
      modifies `queue, `records, records.Keys
      ensures Valid() && retryQueue == old(retryQueue) && (count == 0 ==> queue == old(queue))
      ensures forall t :: t in retryQueue ==> t in old(records) && t in records
      ensures released == ByDue(old(records), retryQueue, now, true) && count == |released|
      ensures remaining == ByDue(old(records), retryQueue, now, false)
      ensures View().(retry := remaining) == M.Play(old(View()), Releases(released, now))
      ensures dropped == M.OutcomesOf(old(View()), Releases(released, now))
    {
      WaitingIsKnown();
      ghost var start := View();
      NothingLookedAt(start, now);
      hide Midway, ByDue, M.Play, Releases, M.OutcomesOf, Shape, Valid;
      remaining, count, released, dropped := ReleaseEach(now, start);
      AllLookedAt(start, now, View(), released, remaining, dropped);
    }

    /** ProcessRetries before its signal. */
    method ReleaseAndKeep(now: int)
      returns (count: nat, ghost released: seq<Task>, ghost dropped: seq<Outcome>)
      requires Valid()
      modifies `queue, `retryQueue, `records, records.Keys
      ensures Valid() && (count == 0 ==> queue == old(queue))
      ensures forall t :: t in old(retryQueue) ==> t in old(records)
      ensures released == ByDue(old(records), old(retryQueue), now, true) && count == |released|
      ensures retryQueue == ByDue(old(records), old(retryQueue), now, false)
      ensures View() == M.Play(old(View()), Releases(released, now))
      ensures dropped == M.OutcomesOf(old(View()), Releases(released, now))
    {
      hide M.Play, Releases, ByDue, M.OutcomesOf;
      var remaining;
      remaining, count, released, dropped := ReleaseDue(now);
      KeepWaiting(remaining);
    }

    method ProcessRetries(now: int)
      returns (count: nat, ghost released: seq<Task>, ghost dropped: seq<Outcome>)
      requires Valid()
      modifies `queue, `retryQueue, `records, notify, records.Keys
      ensures Valid()
      ensures forall t :: t in old(View()).retry ==> t in old(View()).tasks
      ensures released == ByDue(old(View()).tasks, old(View()).retry, now, true) && count == |released|
      ensures Parts(old(retryQueue), released, retryQueue)
      ensures forall t :: t in released ==> now > old(records)[t].nextRetryAt
      ensures forall t :: t in retryQueue ==> t in old(records) && now <= old(records)[t].nextRetryAt
      ensures View() == M.Play(old(View()), Releases(released, now))
      ensures notify.pending == (old(notify.pending) || count > 0)
      ensures old(Signalled()) ==> Signalled()
      ensures dropped == M.OutcomesOf(old(View()), Releases(released, now))
    {
      hide M.Play, Releases, ByDue, M.OutcomesOf, Parts, Shape;
      count, released, dropped := ReleaseAndKeep(now);
      ByDueParts(old(records), old(retryQueue), now);
      ByDueTimes(old(records), old(retryQueue), now);
      if count > 0 {
        Notify();
      }
    }

    method KeepWaiting(remaining: seq<Task>)
      requires Valid() && forall t :: t in remaining ==> t in records
      modifies `retryQueue
      ensures Valid() && View() == old(View()).(retry := remaining)
    {
      hide QueueShape, FlightShape, DeadShape, HistoryShape;
      retryQueue := remaining;
    }

    /** Which tasks in flight are overdue, as long as their timeouts fit 64 bits of nanoseconds. */
    lemma OverdueByClock(now: int)
      requires Valid()
      ensures forall t :: t in flying && t.spec.timeoutSec <= Clock.LONGEST_TIMEOUT ==>
        && t in records
        && (t in Overdue(View(), now) <==>
             && records[t].state == Running && t.spec.timeoutSec > 0
             && now > records[t].startedAt + t.spec.timeoutSec * Clock.SECOND)
    {
      forall t | t in flying
        ensures records[t].spec == t.spec
      {
        ValueIsRecorded(t);
      }
      hide QueueShape, WaitingShape, DeadShape, HistoryShape, KeyedById, UniqueIds;
    }

    /** The first loop of the timeout sweep. */
    method CollectExpired(now: int) returns (timedOut: seq<Task>)
      requires Valid()
      ensures Enumerates(timedOut, Overdue(View(), now))
    {
      timedOut := [];
      var todo := FlyingTasks();
      ghost var goal := Overdue(View(), now);
      while todo != {}
        invariant todo <= flying
        invariant Enumerates(timedOut, goal - todo)
        decreases todo
      {
        var t :| t in todo;
        Visit(goal, todo, t);
        if t.state == Running && t.spec.timeoutSec > 0 {
          var deadline := t.startedAt + Clock.Timeout(t.spec.timeoutSec);
          if now > deadline {
            EnumerateOneMore(timedOut, goal - todo, t);
            timedOut := timedOut + [t];
          }
        }
        todo := todo - {t};
      }
      assert goal - {} == goal;
    }

    /** One task of the timeout sweep. */
    method ExpireOne(t: Task, now: int, jitter: nat) returns (ghost dropped: seq<Outcome>)
      requires Valid() && t in flying
      modifies `inFlight, `flying, `deadLetter, `retryQueue, `records, t
      ensures Valid() && flying == old(flying) - {t} && records.Keys == old(records.Keys)
      ensures View() == M.OnExpire(old(View()), t, now, jitter)
      ensures dropped == M.Outcomes(old(View()), M.Expire(t, now, jitter))
    {
      FlyingIsKnown();
      FailureByParts(View(), t, EMPTY_TEXT, 0, now, jitter);
      hide Shape, Valid, AfterFailure, M.FailureOutcomes, M.Settle, M.OnExpire, M.OnFail, M.Outcomes;
      dropped := FailOne(t, M.TIMEOUT_MESSAGE, -1, now, jitter);
    }

    /** The second loop of the timeout sweep. */
    method ExpireAll(timedOut: seq<Task>, now: int, jitter: TaskId -> nat)
      returns (count: nat, ghost dropped: seq<Outcome>)
      requires Valid() && Distinct(timedOut)
      requires forall t :: t in timedOut ==> t in flying
      modifies `inFlight, `flying, `deadLetter, `retryQueue, `records, records.Keys
      ensures Valid() && count == |timedOut|
      ensures View() == M.Play(old(View()), Expiries(timedOut, now, jitter))
      ensures dropped == M.OutcomesOf(old(View()), Expiries(timedOut, now, jitter))
    {
      count, dropped := 0, [];
      ghost var start := View();
      assert M.Play(start, Expiries(timedOut[..0], now, jitter)) == start;
      assert M.OutcomesOf(start, Expiries(timedOut[..0], now, jitter)) == [];
      hide M.Play, Expiries, M.OnExpire, M.OutcomesOf, M.Outcomes, Shape, Valid;
      for k := 0 to |timedOut|
        invariant Valid() && count == k
        invariant records.Keys == start.tasks.Keys && flying <= records.Keys
        invariant forall i :: k <= i < |timedOut| ==> timedOut[i] in flying
        invariant View() == M.Play(start, Expiries(timedOut[..k], now, jitter))
        invariant dropped == M.OutcomesOf(start, Expiries(timedOut[..k], now, jitter))
      {
        var t := timedOut[k];
        PlayExpire(start, timedOut, k, now, jitter);
        ghost var outcomes := ExpireOne(t, now, jitter(t.spec.id));
        dropped := dropped + outcomes;
        count := count + 1;
      }
      assert timedOut[..|timedOut|] == timedOut;
    }

    method CheckTimeouts(now: int, jitter: TaskId -> nat)
      returns (count: nat, ghost order: seq<Task>, ghost dropped: seq<Outcome>)
      requires Valid()
      modifies `inFlight, `flying, `deadLetter, `retryQueue, `records, records.Keys
      ensures Valid()
      ensures Enumerates(order, Overdue(old(View()), now)) && count == |order|
      ensures forall t :: t in order ==> t in old(flying)
      ensures forall t :: t in old(flying) && t.spec.timeoutSec <= Clock.LONGEST_TIMEOUT ==>
        && t in old(records)
        && (t in order <==>
             && old(records)[t].state == Running && t.spec.timeoutSec > 0
             && now > old(records)[t].startedAt + t.spec.timeoutSec * Clock.SECOND)
      ensures View() == M.Play(old(View()), Expiries(order, now, jitter))
      ensures dropped == M.OutcomesOf(old(View()), Expiries(order, now, jitter))
    {
      OverdueByClock(now);
      var timedOut := CollectExpired(now);
      order := timedOut;
      hide M.Play, Expiries, M.OutcomesOf;
      count, dropped := ExpireAll(timedOut, now, jitter);
    }

    method ReviveTask(t: Task) returns (ghost dropped: seq<Outcome>)
      requires Valid() && t in records
      modifies `records, t
      ensures Valid()
      ensures View() == var v := old(View());
        v.(tasks := v.tasks[t := AfterRetryFromDLQ(v.tasks[t])])
      ensures dropped == [Attempted(old(records)[t].state, Queued, t.spec.id)]
    {
      var revival := t.RetryFromDLQ();
      dropped := [revival];
      records := records[t := t.Value()];
    }

    /** Cuts the dead-lettered task at position i out of its list. */
    method CutDead(i: nat)
      requires Valid() && i < |deadLetter| && deadLetter[i] !in deadLetter[..i]
      modifies `deadLetter
      ensures Valid()
      ensures View() == old(View()).(dead := M.RemoveFirst(old(View()).dead, old(deadLetter[i])))
    {
      hide QueueShape, FlightShape, WaitingShape, HistoryShape;
      RemoveFirstAt(deadLetter, i);
      deadLetter := deadLetter[..i] + deadLetter[i + 1..];
    }

    /** What RetryFromDLQ does once it has found its task. */
    method ReviveAt(i: nat) returns (ghost dropped: seq<Outcome>)
      requires Valid() && i < |deadLetter| && deadLetter[i] !in deadLetter[..i]
      modifies `deadLetter, `queue, `records, notify, deadLetter[i]
      ensures Valid() && notify.pending
      ensures View() == M.OnRevive(old(View()), old(deadLetter[i]))
      ensures dropped == M.Outcomes(old(View()), M.Revive(old(deadLetter[i])))
    {
      var t := deadLetter[i];
      assert t in records;
      RevivalByParts(View(), t);
      hide Shape, Valid, M.RemoveFirst, AfterRetryFromDLQ, M.OnRevive, M.Outcomes;
      CutDead(i);
      dropped := ReviveTask(t);
      PushTask(t);
      Notify();
    }

    method RetryFromDLQ(taskId: TaskId)
      returns (found: bool, ghost revived: Task?, ghost dropped: seq<Outcome>)
      requires Valid()
      modifies `deadLetter, `queue, `records, notify, records.Keys
      ensures Valid()
      ensures found == (revived != null)
      ensures found <==> exists t :: t in old(View()).dead && t.spec.id == taskId
      ensures revived != null ==>
        && revived in old(View()).dead && revived.spec.id == taskId
        && View() == M.OnRevive(old(View()), revived)
      ensures !found ==> View() == old(View())
      ensures dropped == if revived == null then [] else M.Outcomes(old(View()), M.Revive(revived))
      ensures notify.pending == (old(notify.pending) || found)
      ensures old(Signalled()) ==> Signalled()
    {
      for i := 0 to |deadLetter|
        invariant forall j :: 0 <= j < i ==> deadLetter[j].spec.id != taskId
        invariant Valid() && View() == old(View()) && notify.pending == old(notify.pending)
      {
        var t := deadLetter[i];
        if t.spec.id == taskId {
          dropped := ReviveAt(i);
          return true, t, dropped;
        }
      }
      return false, null, [];
    }

    method GetStats() returns (s: Stats)
      requires Valid()
      ensures s == Stats(|View().queue|, |View().inFlight|, |View().retry|, |View().dead|,
                         |View().finished|, View().totalFailed)
    {
      KeyedCount(inFlight, flying);
      s := Stats(|queue|, |inFlight|, |retryQueue|, |deadLetter|, totalCompleted, totalFailed);
    }

    method InFlightTasks() returns (tasks: seq<Task>)
      requires Valid()
      ensures Enumerates(tasks, flying)
    {
      tasks := [];
      var todo := FlyingTasks();
      while todo != {}
        invariant todo <= flying
        invariant Enumerates(tasks, flying - todo)
        decreases todo
      {
        var t :| t in todo;
        Visit(flying, todo, t);
        EnumerateOneMore(tasks, flying - todo, t);
        tasks := tasks + [t];
        todo := todo - {t};
      }
      assert flying - {} == flying;
    }

    lemma ShownWindow(start: nat)
      requires Valid()
      requires start == if |completed| > MAX_COMPLETED_IN_DASH then |completed| - MAX_COMPLETED_IN_DASH else 0
      ensures start <= |completed| && completed[start..] == finished[|finished| - Min(|finished|, 50)..]
    {
      LastOfAppend(archived, completed, MAX_COMPLETED_IN_DASH);
    }

    method AllTasks() returns (all: seq<Task>, ghost running: seq<Task>)
      requires Valid()
      ensures Enumerates(running, flying)
      ensures all == queue[..Min(|queue|, 200)] + running + retryQueue + deadLetter
                     + finished[|finished| - Min(|finished|, 50)..]
      ensures forall i :: 200 <= i < |queue| ==> ManyNotAfter(all[..200], 7, queue[i])
    {
      var queueLimit := |queue|;
      if queueLimit > MAX_QUEUED_IN_DASH {
        queueLimit := MAX_QUEUED_IN_DASH;
      }
      all := [];
      for i := 0 to queueLimit
        invariant all == queue[..i]
      {
        all := all + [queue[i]];
      }
      var flyingTasks := InFlightTasks();
      running := flyingTasks;
      all := all + flyingTasks + retryQueue + deadLetter;
      var start := 0;
      if |completed| > MAX_COMPLETED_IN_DASH {
        start := |completed| - MAX_COMPLETED_IN_DASH;
      }
      ShownWindow(start);
      all := all + completed[start..];
      OmittedFromDashboard();
      assert |queue| > 200 ==> all[..200] == queue[..200];
    }

    /** The completed list is the last 100 completions, or all of them. */
    lemma CompletedWindow()
      requires Valid()
      ensures completed == finished[|finished| - Min(|finished|, 100)..]
    {
      LastOfAppend(archived, completed, MAX_COMPLETED);
    }

    /** A queued task that the dashboard's cut omits has at least 7 shown tasks
        that do not come after it in dispatch order. */
    lemma OmittedFromDashboard()
      requires Valid()
      ensures forall i :: 200 <= i < |queue| ==> ManyNotAfter(queue[..200], 7, queue[i])
    {
      forall i | 200 <= i < |queue|
        ensures ManyNotAfter(queue[..200], 7, queue[i])
      {
        var _ := SevenShown(queue, i);
      }
    }
  }

  lemma SevenShown(q: seq<Task>, i: nat) returns (shown: set<nat>)
    requires IsHeap(q) && 200 <= i < |q|
    ensures |shown| >= 7 && NotAfter(q[..200], shown, q[i])
  {
    Dashboard.QueueHeapOrder(q);
    Dashboard.PrefixGuarantee(Dashboard.Specs(q), 200, i);
    shown := Dashboard.ShownAncestors(i, 200);
    forall j | j in shown
      ensures j < 200 && Dashboard.NotAfter(Dashboard.Specs(q), j, i)
    {
    }
  }
}
