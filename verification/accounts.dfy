/** What the counters and the attempt numbers add up to over whole runs. */
module Accounts {
  import opened Basics
  import opened Tasks
  import opened SchedulerModel
  import opened Runs

  datatype Kind = Enqueued | Dispatched | Succeeded | Failure | Timeout | Reclaimed | Released | Revived | Ignored

  /** What a move does; a report about a task that is not in flight is ignored. */
  function KindOf(s: Sched, m: Move): Kind {
    match m
    case Enqueue(_, _) => Enqueued
    case Dispatch(t, _, _) => if t in s.queue then Dispatched else Ignored
    case Complete(t, _, _, _) => if t in s.inFlight then Succeeded else Ignored
    case Fail(t, _, _, _, _) => if t in s.inFlight then Failure else Ignored
    case Expire(t, _, _) => if t in s.inFlight then Timeout else Ignored
    case Reclaim(t) => if t in s.inFlight then Reclaimed else Ignored
    case Release(t, _) => if t in s.retry then Released else Ignored
    case Revive(t) => if t in s.dead then Revived else Ignored
    case Dequeue(_) => Ignored
    case Assign(_, _, _) => Ignored
    case Start(_, _) => Ignored
    case SendFailed(_) => Ignored
  }

  /** How many moves of a run were of kind k. */
  function Total(ms: seq<Move>, k: Kind): nat {
    if ms == [] then 0
    else
      var before := ms[..|ms| - 1];
      Total(before, k) + One(KindOf(Exec(before), ms[|ms| - 1]) == k)
  }

  datatype Sizes = Sizes(known: nat, queued: nat, flying: nat, waiting: nat, dead: nat, done: nat, failed: nat)

  function SizesOf(s: Sched): Sizes {
    Sizes(|s.tasks|, |s.queue|, |s.inFlight|, |s.retry|, |s.dead|, |s.finished|, s.totalFailed)
  }

  /** An effective move of kind k takes one task from one container to another. */
  predicate Shift(z: Sizes, n: Sizes, k: Kind) {
    match k
    case Enqueued => n == z.(known := z.known + 1, queued := z.queued + 1)
    case Dispatched => z.queued > 0 && n == z.(queued := z.queued - 1, flying := z.flying + 1)
    case Succeeded => z.flying > 0 && n == z.(flying := z.flying - 1, done := z.done + 1)
    case Failure => z.flying > 0 && Filed(z.(failed := z.failed + 1), n)
    case Timeout => z.flying > 0 && Filed(z, n)
    case Reclaimed => z.flying > 0 && n == z.(flying := z.flying - 1, queued := z.queued + 1)
    case Released => z.waiting > 0 && n == z.(waiting := z.waiting - 1, queued := z.queued + 1)
    case Revived => z.dead > 0 && n == z.(dead := z.dead - 1, queued := z.queued + 1)
    case Ignored => n == z
  }

  predicate Filed(z: Sizes, n: Sizes)
    requires z.flying > 0
  {
    || n == z.(flying := z.flying - 1, waiting := z.waiting + 1)
    || n == z.(flying := z.flying - 1, dead := z.dead + 1)
  }

  lemma UpdateSize(m: map<Task, Record>, t: Task, r: Record)
    ensures |m[t := r]| == |m| + One(t !in m)
  {
    if t in m {
      assert m[t := r].Keys == m.Keys;
    } else {
      assert m[t := r].Keys == m.Keys + {t};
    }
  }

  lemma QueueSize(q: multiset<Task>, t: Task)
    ensures |q + multiset{t}| == |q| + 1
    ensures t in q ==> |q - multiset{t}| == |q| - 1 && |q| > 0
  {
  }

  lemma FlightSize(f: set<Task>, t: Task)
    ensures t !in f ==> |f + {t}| == |f| + 1
    ensures t in f ==> |f - {t}| == |f| - 1 && |f| > 0
  {
  }

  lemma ListSize(q: seq<Task>, t: Task)
    requires t in q
    ensures |q| > 0 && |RemoveFirst(q, t)| == |q| - 1
  {
    RemoveFirstBag(q, t);
  }

  lemma DispatchSizes(s: Sched, t: Task, worker: Text, now: int)
    requires t in s.queue && t !in s.inFlight && t in s.tasks
    ensures Shift(SizesOf(s), SizesOf(OnDispatch(s, t, worker, now)), Dispatched)
  {
    var taken := AfterAssign(s.tasks[t], worker, now);
    UpdateSize(s.tasks, t, taken);
    UpdateSize(s.tasks[t := taken], t, AfterStart(taken, now));
    QueueSize(s.queue, t);
    FlightSize(s.inFlight, t);
  }

  lemma SettleSizes(s: Sched, t: Task, r: Record)
    requires t in s.inFlight && t in s.tasks
    ensures |s.inFlight| > 0 && Filed(SizesOf(s), SizesOf(Settle(s, t, r)))
  {
    UpdateSize(s.tasks, t, r);
    FlightSize(s.inFlight, t);
  }

  lemma EnqueueSizes(s: Sched, t: Task, r: Record)
    requires t !in s.tasks
    ensures Shift(SizesOf(s), SizesOf(OnEnqueue(s, t, r)), Enqueued)
  {
    UpdateSize(s.tasks, t, r);
    QueueSize(s.queue, t);
  }

  lemma CompleteSizes(s: Sched, t: Task, output: Text, exitCode: int, now: int)
    requires t in s.inFlight && t in s.tasks
    ensures Shift(SizesOf(s), SizesOf(OnComplete(s, t, output, exitCode, now)), Succeeded)
  {
    UpdateSize(s.tasks, t, AfterComplete(s.tasks[t], output, exitCode, now));
    FlightSize(s.inFlight, t);
  }

  lemma FailSizes(s: Sched, t: Task, error: Text, exitCode: int, now: int, jitter: nat)
    requires t in s.inFlight && t in s.tasks
    ensures Shift(SizesOf(s), SizesOf(OnFail(s, t, error, exitCode, now, jitter)), Failure)
    ensures Shift(SizesOf(s), SizesOf(OnExpire(s, t, now, jitter)), Timeout)
  {
    hide AfterFailure;
    SettleSizes(s, t, AfterFailure(s.tasks[t], error, exitCode, now, jitter));
    SettleSizes(s, t, AfterFailure(s.tasks[t], TIMEOUT_MESSAGE, -1, now, jitter));
  }

  lemma ReclaimSizes(s: Sched, t: Task)
    requires t in s.inFlight && t in s.tasks
    ensures Shift(SizesOf(s), SizesOf(OnReclaim(s, t)), Reclaimed)
  {
    UpdateSize(s.tasks, t, s.tasks[t].(state := Queued, workerId := EMPTY_TEXT));
    FlightSize(s.inFlight, t);
    QueueSize(s.queue, t);
  }

  lemma ReleaseSizes(s: Sched, t: Task)
    requires t in s.retry && t in s.tasks
    ensures Shift(SizesOf(s), SizesOf(OnRelease(s, t)), Released)
  {
    UpdateSize(s.tasks, t, AfterTransition(s.tasks[t], Queued));
    ListSize(s.retry, t);
    QueueSize(s.queue, t);
  }

  lemma ReviveSizes(s: Sched, t: Task)
    requires t in s.dead && t in s.tasks
    ensures Shift(SizesOf(s), SizesOf(OnRevive(s, t)), Revived)
  {
    UpdateSize(s.tasks, t, AfterRetryFromDLQ(s.tasks[t]));
    ListSize(s.dead, t);
    QueueSize(s.queue, t);
  }

  lemma ShiftStep(s: Sched, m: Move)
    requires Allowed(s, m) && SoundFor(s, m.task)
    ensures Shift(SizesOf(s), SizesOf(Apply(s, m)), KindOf(s, m))
  {
    hide OnEnqueue, OnDispatch, SizesOf, Shift;
    var t := m.task;
    CountRemove(s.retry, t, t);
    CountRemove(s.dead, t, t);
    if KindOf(s, m) == Ignored {
      assert Apply(s, m) == s;
      assert Shift(SizesOf(s), SizesOf(s), Ignored) by {
        NoShift(SizesOf(s));
      }
    } else {
      match m
      case Enqueue(_, r) => EnqueueSizes(s, t, r);
      case Dispatch(_, worker, now) => DispatchSizes(s, t, worker, now);
      case Complete(_, output, exitCode, now) => CompleteSizes(s, t, output, exitCode, now);
      case Fail(_, error, exitCode, now, jitter) => FailSizes(s, t, error, exitCode, now, jitter);
      case Expire(_, now, jitter) => FailSizes(s, t, EMPTY_TEXT, 0, now, jitter);
      case Reclaim(_) => ReclaimSizes(s, t);
      case Release(_, _) => ReleaseSizes(s, t);
      case Revive(_) => ReviveSizes(s, t);
    }
  }

  lemma NoShift(z: Sizes)
    ensures Shift(z, z, Ignored)
  {
  }

  function Held(s: Sched): nat {
    |s.queue| + |s.inFlight| + |s.retry| + |s.dead| + |s.finished|
  }

  /** Nothing is lost or duplicated, and every dispatch is accounted for. */
  predicate Balanced(s: Sched, ms: seq<Move>) {
    && Held(s) == |s.tasks| == Total(ms, Enqueued)
    && |s.finished| == Total(ms, Succeeded)
    && s.totalFailed == Total(ms, Failure)
    && Total(ms, Dispatched)
       == |s.inFlight| + |s.finished| + s.totalFailed + Total(ms, Timeout) + Total(ms, Reclaimed)
  }

  lemma TotalStep(ms: seq<Move>, k: Kind)
    requires ms != []
    ensures var before := ms[..|ms| - 1];
      Total(ms, k) == Total(before, k) + One(KindOf(Exec(before), ms[|ms| - 1]) == k)
  {
    hide Exec, KindOf;
  }

  /** The balance of sizes z, given the totals of the kinds it is about. */
  predicate Books(z: Sizes, enqueued: nat, dispatched: nat, succeeded: nat, failures: nat, timeouts: nat,
                  reclaimed: nat) {
    && z.queued + z.flying + z.waiting + z.dead + z.done == z.known == enqueued
    && z.done == succeeded && z.failed == failures
    && dispatched == z.flying + z.done + z.failed + timeouts + reclaimed
  }

  lemma BooksStep(z: Sizes, z': Sizes, k: Kind, e: nat, d: nat, c: nat, f: nat, o: nat, r: nat)
    requires Books(z, e, d, c, f, o, r) && Shift(z, z', k)
    ensures Books(z', e + One(k == Enqueued), d + One(k == Dispatched), c + One(k == Succeeded),
                  f + One(k == Failure), o + One(k == Timeout), r + One(k == Reclaimed))
  {
  }

  lemma BalancedIsBooks(s: Sched, ms: seq<Move>)
    ensures Balanced(s, ms) <==>
      Books(SizesOf(s), Total(ms, Enqueued), Total(ms, Dispatched), Total(ms, Succeeded),
            Total(ms, Failure), Total(ms, Timeout), Total(ms, Reclaimed))
  {
    hide Total;
  }

  lemma BalancedStep(ms: seq<Move>, s: Sched, s': Sched)
    requires ms != [] && Balanced(s, ms[..|ms| - 1])
    requires Shift(SizesOf(s), SizesOf(s'), KindOf(Exec(ms[..|ms| - 1]), ms[|ms| - 1]))
    ensures Balanced(s', ms)
  {
    hide Exec, KindOf, Total, Balanced, Books, Shift, SizesOf;
    var before := ms[..|ms| - 1];
    BalancedIsBooks(s, before);
    BalancedIsBooks(s', ms);
    TotalStep(ms, Enqueued);
    TotalStep(ms, Dispatched);
    TotalStep(ms, Succeeded);
    TotalStep(ms, Failure);
    TotalStep(ms, Timeout);
    TotalStep(ms, Reclaimed);
    BooksStep(SizesOf(s), SizesOf(s'), KindOf(Exec(before), ms[|ms| - 1]),
              Total(before, Enqueued), Total(before, Dispatched), Total(before, Succeeded),
              Total(before, Failure), Total(before, Timeout), Total(before, Reclaimed));
  }

  lemma NothingYet()
    ensures Balanced(EMPTY, [])
  {
    assert SizesOf(EMPTY) == Sizes(0, 0, 0, 0, 0, 0, 0) by {
      hide Balanced;
    }
    hide Exec, KindOf;
  }

  /** Conservation over every run: the five containers hold as many tasks as
      were enqueued, and the dispatches are those in flight, completed, failed,
      timed out or taken back from a worker. */
  lemma {:induction false} Conservation(ms: seq<Move>)
    requires Legal(ms)
    ensures Balanced(Exec(ms), ms)
  {
    hide Shift, Balanced;
    if ms == [] {
      NothingYet();
    } else {
      var before, m := ms[..|ms| - 1], ms[|ms| - 1];
      Conservation(before);
      ContainerDeterminesState(before, {}, m.task);
      ShiftStep(Exec(before), m);
      BalancedStep(ms, Exec(before), Exec(ms));
    }
  }
}
