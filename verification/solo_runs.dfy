/** Runs with one task, for exhibiting what can happen to a task. */
module SoloRuns {
  import opened Tasks
  import opened PriorityQueue
  import opened SchedulerModel
  import opened Runs
  import opened Accounts
  import opened Budget

  predicate Solo(ms: seq<Move>, t: Task) {
    Legal(ms) && Exec(ms).tasks.Keys == {t}
  }

  const NOBODY := EMPTY_TEXT

  lemma SoloStart(t: Task)
    ensures Solo([Enqueue(t, Fresh(t.spec))], t)
    ensures Exec([Enqueue(t, Fresh(t.spec))]).tasks[t] == Fresh(t.spec)
  {
    LegalOneMore([], {}, Enqueue(t, Fresh(t.spec)));
    assert [] + [Enqueue(t, Fresh(t.spec))] == [Enqueue(t, Fresh(t.spec))];
    hide Fresh;
  }

  lemma SoloStep(ms: seq<Move>, m: Move, t: Task)
    requires Solo(ms, t) && m.task == t && Allowed(Exec(ms), m)
    ensures Solo(ms + [m], t) && Exec(ms + [m]) == Apply(Exec(ms), m)
    ensures Evolves(Exec(ms).tasks[t], Exec(ms + [m]).tasks[t], KindOf(Exec(ms), m))
  {
    hide LegalExcept, Exec, Apply, Allowed, KindOf, Evolves;
    AllowedIsPossible(Exec(ms), m);
    LegalOneMore(ms, {}, m);
    ContainerDeterminesState(ms, {}, t);
    EvolvesStep(Exec(ms), m);
    SameTasks(Exec(ms), m);
  }

  lemma SameTasks(s: Sched, m: Move)
    requires m.task in s.tasks
    ensures Apply(s, m).tasks.Keys == s.tasks.Keys
  {
    hide AfterFailure, AfterAssign, AfterStart, AfterComplete, AfterTransition, AfterRetryFromDLQ, RemoveFirst;
  }

  /** What the state of the one task says it is ready for. */
  lemma SoloReady(ms: seq<Move>, t: Task)
    requires Solo(ms, t)
    ensures var s := Exec(ms); var r := s.tasks[t];
      && (r.state == Queued ==> t in s.queue && Front(s, t))
      && (r.state == Running ==> t in s.inFlight)
      && (r.state == Retrying ==> t in s.retry)
      && (r.state == Dead ==> t in s.dead)
  {
    hide LegalExcept, Exec;
    var s := Exec(ms);
    ContainerDeterminesState(ms, {}, t);
    CountRemove(s.retry, t, t);
    CountRemove(s.dead, t, t);
    forall u | u in s.queue
      ensures u == t
    {
      ContainerDeterminesState(ms, {}, u);
    }
  }

  lemma StartedAtZero(s: Sched, t: Task)
    requires t in s.tasks && t in s.queue && s.tasks[t].state == Queued
    ensures OnDispatch(s, t, NOBODY, 0).tasks[t].startedAt == 0
  {
  }

  lemma SpecOf(ms: seq<Move>, t: Task)
    requires Solo(ms, t)
    ensures Exec(ms).tasks[t].spec == t.spec
  {
    hide LegalExcept, Exec;
    ContainerDeterminesState(ms, {}, t);
  }

  /** A dispatch of the one task. */
  lemma SoloDispatch(ms: seq<Move>, t: Task)
    requires Solo(ms, t) && Exec(ms).tasks[t].state == Queued
    ensures var n := ms + [Dispatch(t, NOBODY, 0)];
      Solo(n, t) && t in Exec(n).inFlight
      && Exec(n).tasks[t].state == Running && Exec(n).tasks[t].attempt == Exec(ms).tasks[t].attempt + 1
      && Exec(n).tasks[t].startedAt == 0
  {
    hide LegalExcept, Exec;
    SoloReady(ms, t);
    StartedAtZero(Exec(ms), t);
    SoloStep(ms, Dispatch(t, NOBODY, 0), t);
    SoloReady(ms + [Dispatch(t, NOBODY, 0)], t);
  }

  /** The task dispatched and taken back from lost workers n times. */
  lemma {:induction false} SoloLostWorkers(t: Task, n: nat) returns (ms: seq<Move>)
    ensures Solo(ms, t) && Exec(ms).tasks[t].state == Queued && Exec(ms).tasks[t].attempt == n
  {
    hide LegalExcept, Exec, Solo, SoundFor;
    if n == 0 {
      SoloStart(t);
      ms := [Enqueue(t, Fresh(t.spec))];
      assert Fresh(t.spec).state == Queued && Fresh(t.spec).attempt == 0;
    } else {
      var before := SoloLostWorkers(t, n - 1);
      SoloDispatch(before, t);
      SoloStep(before + [Dispatch(t, NOBODY, 0)], Reclaim(t), t);
      ms := before + [Dispatch(t, NOBODY, 0)] + [Reclaim(t)];
    }
  }
}
