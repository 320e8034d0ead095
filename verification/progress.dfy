/** With no new tasks, revivals or lost workers, every run comes to an end. */
module Progress {
  import opened Basics
  import opened Tasks
  import opened PriorityQueue
  import opened SchedulerModel
  import opened Runs
  import opened Accounts
  import opened Budget

  /** How many more moves a task can be part of. */
  function Potential(r: Record): nat {
    var left := Max(0, Max(1, r.spec.maxRetries) - r.attempt);
    match r.state
    case Queued => 3 * Max(1, left) - 1
    case Running => 3 * left + 1
    case Retrying => 3 * left
    case _ => 0
  }

  predicate IsForward(k: Kind) {
    k == Dispatched || k == Succeeded || k == Failure || k == Timeout || k == Released
  }

  lemma PotentialDrops(r: Record, n: Record, k: Kind)
    requires IsForward(k) && Evolves(r, n, k)
    requires r.state == Retrying ==> r.attempt < r.spec.maxRetries
    ensures Potential(n) < Potential(r)
  {
  }

  /** Every effective move of ns, made after ms, is a forward move. */
  predicate OnlyForward(ms: seq<Move>, ns: seq<Move>) {
    ns == [] ||
      (var k := KindOf(Exec(ms + ns[..|ns| - 1]), ns[|ns| - 1]);
       OnlyForward(ms, ns[..|ns| - 1]) && (k == Ignored || IsForward(k)))
  }

  /** How many moves of ns, made after ms, do something to t. */
  function MovesOn(ms: seq<Move>, ns: seq<Move>, t: Task): nat {
    if ns == [] then 0
    else
      var before, m := ns[..|ns| - 1], ns[|ns| - 1];
      MovesOn(ms, before, t) + One(m.task == t && KindOf(Exec(ms + before), m) != Ignored)
  }

  lemma LastMove(ms: seq<Move>, ns: seq<Move>, loose: set<Task>)
    requires |ns| > 0 && LegalExcept(ms + ns, loose)
    ensures var before, m := ns[..|ns| - 1], ns[|ns| - 1];
      && LegalExcept(ms + before, loose) && (m.task in loose || Allowed(Exec(ms + before), m))
      && Exec(ms + ns) == Apply(Exec(ms + before), m)
  {
    hide Apply, Allowed, Possible;
    var before, m := ns[..|ns| - 1], ns[|ns| - 1];
    assert ms + ns == (ms + before) + [m];
    assert (ms + ns)[..|ms + ns| - 1] == ms + before;
  }

  /** In any continuation of any run by forward moves, a task is moved at most
      as often as its potential says. */
  lemma {:induction false} MovesBounded(ms: seq<Move>, ns: seq<Move>, loose: set<Task>, t: Task)
    requires LegalExcept(ms + ns, loose) && t !in loose && OnlyForward(ms, ns) && t in Exec(ms).tasks
    ensures t in Exec(ms + ns).tasks
    ensures MovesOn(ms, ns, t) + Potential(Exec(ms + ns).tasks[t]) <= Potential(Exec(ms).tasks[t])
  {
    hide Potential, Evolves, Exec, LegalExcept, Allowed, Apply, KindOf;
    if ns == [] {
      assert ms + ns == ms;
    } else {
      var before, m := ns[..|ns| - 1], ns[|ns| - 1];
      LastMove(ms, ns, loose);
      MovesBounded(ms, before, loose, t);
      var s := Exec(ms + before);
      ContainerDeterminesState(ms + before, loose, t);
      if m.task != t {
        OtherTasksStay(s, m, t);
      } else if KindOf(s, m) == Ignored {
        RecordsStep(s, m);
      } else {
        EvolvesStep(s, m);
        PotentialDrops(s.tasks[t], Apply(s, m).tasks[t], KindOf(s, m));
      }
    }
  }

  /** A task just enqueued is moved fewer than 3 * max(1, MaxRetries) times. */
  lemma FreshTaskMoves(ms: seq<Move>, ns: seq<Move>, loose: set<Task>, t: Task)
    requires LegalExcept(ms + ns, loose) && t !in loose && OnlyForward(ms, ns)
    requires t in Exec(ms).tasks && Exec(ms).tasks[t] == Fresh(t.spec)
    ensures MovesOn(ms, ns, t) < 3 * Max(1, t.spec.maxRetries)
  {
    hide Exec, LegalExcept, OnlyForward, MovesOn;
    MovesBounded(ms, ns, loose, t);
    assert Fresh(t.spec).attempt == 0 && Fresh(t.spec).state == Queued;
    hide Fresh;
  }

  /** The potential of all the tasks in `order`. */
  function Sum(tasks: map<Task, Record>, order: seq<Task>): nat
    requires forall t :: t in order ==> t in tasks
  {
    if order == [] then 0
    else Sum(tasks, order[..|order| - 1]) + Potential(tasks[order[|order| - 1]])
  }

  ghost predicate Lists(order: seq<Task>, tasks: map<Task, Record>) {
    Enumerates(order, tasks.Keys)
  }

  lemma {:induction false} SumStep(tasks: map<Task, Record>, order: seq<Task>, t: Task, r: Record)
    requires forall u :: u in order ==> u in tasks
    requires Distinct(order)
    requires t in tasks && Potential(r) < Potential(tasks[t])
    ensures t in order ==> Sum(tasks[t := r], order) < Sum(tasks, order)
    ensures t !in order ==> Sum(tasks[t := r], order) == Sum(tasks, order)
  {
    hide Potential;
    if order != [] {
      SumStep(tasks, order[..|order| - 1], t, r);
    }
  }

  /** How many moves of ns, made after ms, do something. */
  function EffectiveMoves(ms: seq<Move>, ns: seq<Move>): nat {
    if ns == [] then 0
    else
      var before := ns[..|ns| - 1];
      EffectiveMoves(ms, before) + One(KindOf(Exec(ms + before), ns[|ns| - 1]) != Ignored)
  }

  /** One forward move on a known task lowers the total. */
  lemma TotalDrops(s: Sched, m: Move, order: seq<Task>)
    requires Allowed(s, m) && SoundFor(s, m.task) && Lists(order, s.tasks) && IsForward(KindOf(s, m))
    ensures Lists(order, Apply(s, m).tasks) && Sum(Apply(s, m).tasks, order) < Sum(s.tasks, order)
  {
    hide Potential, Evolves, Sum;
    RecordsStep(s, m);
    EvolvesStep(s, m);
    PotentialDrops(s.tasks[m.task], Apply(s, m).tasks[m.task], KindOf(s, m));
    SumStep(s.tasks, order, m.task, Apply(s, m).tasks[m.task]);
  }

  /** Every forward continuation ends: with each effective move the total
      potential of the known tasks goes down. */
  lemma {:induction false} RunsEnd(ms: seq<Move>, ns: seq<Move>, order: seq<Task>)
    requires Legal(ms + ns) && OnlyForward(ms, ns) && Lists(order, Exec(ms).tasks)
    ensures Lists(order, Exec(ms + ns).tasks)
    ensures EffectiveMoves(ms, ns) + Sum(Exec(ms + ns).tasks, order) <= Sum(Exec(ms).tasks, order)
  {
    hide Sum;
    if ns == [] {
      assert ms + ns == ms;
    } else {
      var before, m := ns[..|ns| - 1], ns[|ns| - 1];
      LastMove(ms, ns, {});
      RunsEnd(ms, before, order);
      var s := Exec(ms + before);
      ContainerDeterminesState(ms + before, {}, m.task);
      if KindOf(s, m) == Ignored {
        RecordsStep(s, m);
      } else {
        TotalDrops(s, m, order);
      }
    }
  }

  lemma {:induction false} SomeFront(q: multiset<Task>) returns (t: Task)
    requires |q| > 0
    ensures t in q && forall u :: u in q ==> !Precedes(u.spec, t.spec)
    decreases |q|
  {
    var one :| one in q;
    t := one;
    var rest := q[one := 0];
    if |rest| == 0 {
      assert forall u :: u in q ==> u == one || u in rest;
    } else {
      var best := SomeFront(rest);
      if Precedes(best.spec, one.spec) {
        t := best;
      }
      forall u | u in q
        ensures !Precedes(u.spec, t.spec)
      {
        assert u == one || u in rest;
        StrictWeakOrder(u.spec, best.spec, one.spec);
      }
    }
  }

  /** While some task is not COMPLETED or DEAD, a forward move is possible ... */
  lemma SomethingCanMove(ms: seq<Move>, t: Task) returns (m: Move)
    requires Legal(ms) && t in Exec(ms).tasks && !Exec(ms).tasks[t].state.IsTerminal()
    ensures Allowed(Exec(ms), m) && IsForward(KindOf(Exec(ms), m))
  {
    var s := Exec(ms);
    ContainerDeterminesState(ms, {}, t);
    CountRemove(s.retry, t, t);
    match s.tasks[t].state
    case Queued =>
      var front := SomeFront(s.queue);
      m := Dispatch(front, EMPTY_TEXT, 0);
    case Running => m := Complete(t, EMPTY_TEXT, 0, 0);
    case Retrying => m := Release(t, s.tasks[t].nextRetryAt + 1);
  }

  /** ... and once all are, none is: a run that cannot go on has finished. */
  lemma FinishedIsStuck(ms: seq<Move>, m: Move)
    requires Legal(ms) && Allowed(Exec(ms), m)
    requires m.task in Exec(ms).tasks ==> Exec(ms).tasks[m.task].state.IsTerminal()
    ensures !IsForward(KindOf(Exec(ms), m))
  {
    ContainerDeterminesState(ms, {}, m.task);
    RecordsStep(Exec(ms), m);
    if m.task in Exec(ms).tasks {
      SourceState(Exec(ms), m);
    }
  }

  /** A completed task stays exactly as it is, whatever reports still come. */
  lemma {:induction false} CompletedIsFinal(ms: seq<Move>, ns: seq<Move>, loose: set<Task>, t: Task)
    requires LegalExcept(ms + ns, loose) && t !in loose
    requires t in Exec(ms).tasks && Exec(ms).tasks[t].state == Completed
    ensures t in Exec(ms + ns).tasks && Exec(ms + ns).tasks[t] == Exec(ms).tasks[t]
  {
    hide Exec, LegalExcept, Allowed, Apply;
    if ns == [] {
      assert ms + ns == ms;
    } else {
      var before, m := ns[..|ns| - 1], ns[|ns| - 1];
      LastMove(ms, ns, loose);
      CompletedIsFinal(ms, before, loose, t);
      ContainerDeterminesState(ms + before, loose, t);
      if m.task != t {
        OtherTasksStay(Exec(ms + before), m, t);
      } else {
        SourceState(Exec(ms + before), m);
        NoMoveFromCompleted(Exec(ms + before).tasks[t], KindOf(Exec(ms + before), m));
        RecordsStep(Exec(ms + before), m);
      }
    }
  }

  lemma NoMoveFromCompleted(r: Record, k: Kind)
    requires StartsFrom(r, k) && r.state == Completed
    ensures k == Ignored
  {
  }
}
