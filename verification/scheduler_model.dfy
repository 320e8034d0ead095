/** The scheduler as a value, and what each of its operations does to it one
    task at a time. A task object stands only for its identity here (what a
    pointer is in the source): its fields are those of its record in `tasks`,
    so one object in two containers is one record reached in two ways. */
module SchedulerModel {
  import opened Tasks
  import opened PriorityQueue

  datatype Sched = Sched(
    tasks: map<Task, Record>,  // every task handed to the scheduler so far
    queue: multiset<Task>,
    inFlight: set<Task>,
    retry: seq<Task>,
    dead: seq<Task>,
    finished: seq<Task>,       // every completion so far, oldest first
    totalFailed: nat)

  const EMPTY := Sched(map[], multiset{}, {}, [], [], [], 0)

  datatype Move =
    | Enqueue(task: Task, record: Record)
    | Dequeue(task: Task)
    | Assign(task: Task, worker: Text, now: int)
    | Start(task: Task, now: int)
    | SendFailed(task: Task)
    | Dispatch(task: Task, worker: Text, now: int)  // Dequeue, Assign, Start as one step
    | Complete(task: Task, output: Text, exitCode: int, now: int)
    | Fail(task: Task, error: Text, exitCode: int, now: int, jitter: nat)
    | Expire(task: Task, now: int, jitter: nat)     // one task of a timeout sweep
    | Reclaim(task: Task)                           // one task of RequeueFromWorker
    | Release(task: Task, now: int)                 // one task of ProcessRetries
    | Revive(task: Task)                            // RetryFromDLQ

  const TIMEOUT_MESSAGE := Text("task execution timed out")

  function RemoveFirst(q: seq<Task>, t: Task): seq<Task> {
    if q == [] then []
    else if q[0] == t then q[1..]
    else [q[0]] + RemoveFirst(q[1..], t)
  }

  lemma {:induction false} RemoveFirstBag(q: seq<Task>, t: Task)
    ensures t in q ==> |RemoveFirst(q, t)| == |q| - 1
    ensures t !in q ==> RemoveFirst(q, t) == q
    ensures multiset(RemoveFirst(q, t)) == multiset(q) - multiset{t}
  {
    if q != [] {
      assert q == [q[0]] + q[1..];
      RemoveFirstBag(q[1..], t);
    }
  }

  /** A failed or timed-out task leaves flight for the retry or dead-letter list. */
  function Settle(s: Sched, t: Task, r: Record): Sched {
    var out := s.(tasks := s.tasks[t := r], inFlight := s.inFlight - {t});
    if r.state == Dead then out.(dead := s.dead + [t]) else out.(retry := s.retry + [t])
  }

  function PutBack(s: Sched, t: Task, r: Record): Sched {
    s.(tasks := s.tasks[t := r], queue := s.queue + multiset{t})
  }

  // What each operation does to the state. Reports, sweeps and revivals of a task
  // that is not in the container they take it from change nothing.

  function OnEnqueue(s: Sched, t: Task, r: Record): Sched {
    PutBack(s, t, r)
  }

  function OnDequeue(s: Sched, t: Task): Sched {
    if t in s.queue then s.(queue := s.queue - multiset{t}, inFlight := s.inFlight + {t}) else s
  }

  function OnAssign(s: Sched, t: Task, worker: Text, now: int): Sched {
    if t in s.tasks then s.(tasks := s.tasks[t := AfterAssign(s.tasks[t], worker, now)]) else s
  }

  function OnStart(s: Sched, t: Task, now: int): Sched {
    if t in s.tasks then s.(tasks := s.tasks[t := AfterStart(s.tasks[t], now)]) else s
  }

  function OnSendFailed(s: Sched, t: Task): Sched {
    if t in s.tasks then PutBack(s, t, s.tasks[t].(state := Queued, workerId := EMPTY_TEXT)) else s
  }

  function OnComplete(s: Sched, t: Task, output: Text, exitCode: int, now: int): Sched {
    if t in s.inFlight && t in s.tasks then
      s.(tasks := s.tasks[t := AfterComplete(s.tasks[t], output, exitCode, now)],
         inFlight := s.inFlight - {t}, finished := s.finished + [t])
    else s
  }

  function OnFail(s: Sched, t: Task, error: Text, exitCode: int, now: int, jitter: nat): Sched {
    if t in s.inFlight && t in s.tasks then
      Settle(s, t, AfterFailure(s.tasks[t], error, exitCode, now, jitter)).(totalFailed := s.totalFailed + 1)
    else s
  }

  function OnExpire(s: Sched, t: Task, now: int, jitter: nat): Sched {
    if t in s.inFlight && t in s.tasks then
      Settle(s, t, AfterFailure(s.tasks[t], TIMEOUT_MESSAGE, -1, now, jitter))
    else s
  }

  function OnReclaim(s: Sched, t: Task): Sched {
    if t in s.inFlight && t in s.tasks then
      PutBack(s.(inFlight := s.inFlight - {t}), t, s.tasks[t].(state := Queued, workerId := EMPTY_TEXT))
    else s
  }

  function OnRelease(s: Sched, t: Task): Sched {
    if t in s.retry && t in s.tasks then
      PutBack(s.(retry := RemoveFirst(s.retry, t)), t, AfterTransition(s.tasks[t], Queued))
    else s
  }

  function OnRevive(s: Sched, t: Task): Sched {
    if t in s.dead && t in s.tasks then
      PutBack(s.(dead := RemoveFirst(s.dead, t)), t, AfterRetryFromDLQ(s.tasks[t]))
    else s
  }

  function OnDispatch(s: Sched, t: Task, worker: Text, now: int): Sched {
    if t in s.queue then OnStart(OnAssign(OnDequeue(s, t), t, worker, now), t, now) else s
  }

  function Apply(s: Sched, m: Move): Sched {
    match m
    case Enqueue(t, r) => OnEnqueue(s, t, r)
    case Dequeue(t) => OnDequeue(s, t)
    case Assign(t, worker, now) => OnAssign(s, t, worker, now)
    case Start(t, now) => OnStart(s, t, now)
    case SendFailed(t) => OnSendFailed(s, t)
    case Dispatch(t, worker, now) => OnDispatch(s, t, worker, now)
    case Complete(t, output, exitCode, now) => OnComplete(s, t, output, exitCode, now)
    case Fail(t, error, exitCode, now, jitter) => OnFail(s, t, error, exitCode, now, jitter)
    case Expire(t, now, jitter) => OnExpire(s, t, now, jitter)
    case Reclaim(t) => OnReclaim(s, t)
    case Release(t, now) => OnRelease(s, t)
    case Revive(t) => OnRevive(s, t)
  }

  /** The state after the moves ms, starting in s. */
  function Play(s: Sched, ms: seq<Move>): Sched {
    if ms == [] then s else Apply(Play(s, ms[..|ms| - 1]), ms[|ms| - 1])
  }

  lemma PlayOneMore(s: Sched, ms: seq<Move>, m: Move)
    ensures Play(s, ms + [m]) == Apply(Play(s, ms), m)
  {
    hide Apply;
    assert (ms + [m])[..|ms|] == ms;
  }

  lemma {:induction false} PlayAppend(s: Sched, ms: seq<Move>, ns: seq<Move>)
    ensures Play(s, ms + ns) == Play(Play(s, ms), ns)
  {
    hide Apply;
    if ns == [] {
      assert ms + ns == ms;
    } else {
      var k := |ns| - 1;
      PlayAppend(s, ms, ns[..k]);
      assert ms + ns == (ms + ns[..k]) + [ns[k]];
      PlayOneMore(s, ms + ns[..k], ns[k]);
    }
  }

  // The outcomes of the Task methods that an operation calls, in order. The
  // code drops them.

  function FailureOutcomes(r: Record, id: TaskId): seq<Outcome> {
    var filed := if CanMove(r.state, Failed) then Failed else r.state;
    [Attempted(r.state, Failed, id),
     Attempted(filed, if r.attempt >= r.spec.maxRetries then Dead else Retrying, id)]
  }

  function DispatchOutcomes(r: Record, id: TaskId): seq<Outcome> {
    var taken := if CanMove(r.state, Assigned) then Assigned else r.state;
    [Attempted(r.state, Assigned, id), Attempted(taken, Running, id)]
  }

  function Outcomes(s: Sched, m: Move): seq<Outcome> {
    var t := m.task;
    if t !in s.tasks then []
    else
      var r, id := s.tasks[t], t.spec.id;
      match m
      case Dispatch(_, _, _) => if t in s.queue then DispatchOutcomes(r, id) else []
      case Assign(_, _, _) => [Attempted(r.state, Assigned, id)]
      case Start(_, _) => [Attempted(r.state, Running, id)]
      case Complete(_, _, _, _) => if t in s.inFlight then [Attempted(r.state, State.Completed, id)] else []
      case Fail(_, _, _, _, _) => if t in s.inFlight then FailureOutcomes(r, id) else []
      case Expire(_, _, _) => if t in s.inFlight then FailureOutcomes(r, id) else []
      case Release(_, _) => if t in s.retry then [Attempted(r.state, Queued, id)] else []
      case Revive(_) => if t in s.dead then [Attempted(r.state, Queued, id)] else []
      case Enqueue(_, _) => []
      case Dequeue(_) => []
      case SendFailed(_) => []
      case Reclaim(_) => []
  }

  /** The outcomes of the moves ms, made in s one after the other. */
  function OutcomesOf(s: Sched, ms: seq<Move>): seq<Outcome> {
    if ms == [] then []
    else
      var k := |ms| - 1;
      OutcomesOf(s, ms[..k]) + Outcomes(Play(s, ms[..k]), ms[k])
  }

  lemma OutcomesOneMore(s: Sched, ms: seq<Move>, m: Move)
    ensures OutcomesOf(s, ms + [m]) == OutcomesOf(s, ms) + Outcomes(Play(s, ms), m)
  {
    hide Outcomes, Play;
    assert (ms + [m])[..|ms|] == ms;
  }

  /** No queued task has to be dispatched before t. */
  predicate Front(s: Sched, t: Task) {
    forall u :: u in s.queue ==> !Precedes(u.spec, t.spec)
  }

  /** A front task has the highest priority queued, and no queued task of that
      priority was created before it. */
  lemma FrontIsFirst(s: Sched, t: Task)
    requires Front(s, t)
    ensures forall u :: u in s.queue ==>
      || u.spec.priority < t.spec.priority
      || (u.spec.priority == t.spec.priority && t.spec.createdAt <= u.spec.createdAt)
  {
  }
}
