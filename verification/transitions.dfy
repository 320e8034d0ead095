/** Which state changes the operations attempt, over whole runs. */
module Transitions {
  import opened Tasks
  import opened SchedulerModel
  import opened Runs
  import opened Accounts
  import opened Budget
  import opened Progress

  /** No error among the outcomes. */
  predicate AllOk(outcomes: seq<Outcome>) {
    forall o :: o in outcomes ==> o == Ok
  }

  /** Every error among the outcomes is about a task of `loose`. */
  ghost predicate Blames(outcomes: seq<Outcome>, loose: set<Task>) {
    forall o :: o in outcomes && o != Ok ==> exists t :: t in loose && t.spec.id == o.id
  }

  lemma OutcomesFit(s: Sched, m: Move)
    requires Allowed(s, m) && SoundFor(s, m.task)
    ensures AllOk(Outcomes(s, m))
  {
    HeldIsKnown(s, m.task);
    if m.task in s.tasks {
      SourceState(s, m);
    }
    hide SoundFor, Front, Expired;
  }

  /** No Task call that an operation of a run makes is refused, so no error that
      the code drops ever occurs for a task all of whose moves are atomic. */
  lemma NoDiscardedError(ms: seq<Move>, loose: set<Task>, m: Move)
    requires LegalExcept(ms, loose) && m.task !in loose && Allowed(Exec(ms), m)
    ensures AllOk(Outcomes(Exec(ms), m))
  {
    hide Exec, LegalExcept, AllOk, Outcomes, Allowed;
    ContainerDeterminesState(ms, loose, m.task);
    OutcomesFit(Exec(ms), m);
  }

  /** The only state change that no Task call makes: a task taken back from a
      lost worker goes from RUNNING to QUEUED, an edge outside the table. */
  lemma ReclaimIsOutsideTheTable(ms: seq<Move>, loose: set<Task>, t: Task)
    requires LegalExcept(ms, loose) && t !in loose && t in Exec(ms).inFlight
    ensures t in Exec(ms).tasks && t in Exec(ms + [Reclaim(t)]).tasks
    ensures Exec(ms).tasks[t].state == Running && Exec(ms + [Reclaim(t)]).tasks[t].state == Queued
    ensures !CanMove(Running, Queued) && Outcomes(Exec(ms), Reclaim(t)) == []
  {
    hide Exec, LegalExcept;
    ContainerDeterminesState(ms, loose, t);
    PlayOneMore(EMPTY, ms, Reclaim(t));
    ExecIsPlay(ms);
    ExecIsPlay(ms + [Reclaim(t)]);
  }

  lemma ExecIsPlay(ms: seq<Move>)
    ensures Exec(ms) == Play(EMPTY, ms)
  {
  }

  /** Over a stretch of a run the dropped errors are about loose tasks only. */
  lemma {:induction false} DroppedErrors(ms: seq<Move>, ns: seq<Move>, loose: set<Task>)
    requires LegalExcept(ms + ns, loose)
    ensures LegalExcept(ms, loose)
    ensures Blames(OutcomesOf(Exec(ms), ns), loose)
  {
    hide Exec, LegalExcept, Outcomes, Blames, Allowed, Play;
    if ns == [] {
      assert ms + ns == ms;
      NobodyBlamed(Exec(ms), loose);
    } else {
      var before, m := ns[..|ns| - 1], ns[|ns| - 1];
      LastMove(ms, ns, loose);
      DroppedErrors(ms, before, loose);
      ExecIsPlay(ms);
      ExecIsPlay(ms + before);
      PlayAppend(EMPTY, ms, before);
      if m.task !in loose {
        NoDiscardedError(ms + before, loose, m);
      }
      OutcomesNameTheTask(Exec(ms + before), m);
      OneMoreBlamed(OutcomesOf(Exec(ms), before), Outcomes(Exec(ms + before), m), m.task, loose);
    }
  }

  lemma NobodyBlamed(s: Sched, loose: set<Task>)
    ensures Blames(OutcomesOf(s, []), loose)
  {
  }

  lemma OutcomesNameTheTask(s: Sched, m: Move)
    ensures forall o :: o in Outcomes(s, m) && o != Ok ==> o.id == m.task.spec.id
  {
  }

  lemma OneMoreBlamed(a: seq<Outcome>, b: seq<Outcome>, t: Task, loose: set<Task>)
    requires Blames(a, loose) && forall o :: o in b && o != Ok ==> o.id == t.spec.id
    requires t in loose || AllOk(b)
    ensures Blames(a + b, loose)
  {
  }
}
