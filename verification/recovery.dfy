/** Crash recovery: what the store holds at any moment of a run against what
    the scheduler holds. The server saves a task when it is enqueued, when it
    is dispatched, and when a report about it takes effect; it does not save
    on a timeout, a lost worker, a retry or a revival. */
module Recovery {
  import opened Tasks
  import opened SchedulerModel
  import opened Runs
  import opened Accounts
  import opened Budget
  import opened BadgerStore
  import opened Scheduling
  import opened SoloRuns
  import Clock

  predicate Saves(k: Kind) {
    k == Enqueued || k == Dispatched || k == Succeeded || k == Failure
  }

  /** The loop saves after Start; a whole dispatch includes that. */
  predicate SavedBy(s: Sched, m: Move) {
    Saves(KindOf(s, m)) || m.Start?
  }

  /** The snapshots in the store after a run. */
  function Saved(ms: seq<Move>): map<TaskId, Record> {
    if ms == [] then map[]
    else
      var before, m := ms[..|ms| - 1], ms[|ms| - 1];
      if SavedBy(Exec(before), m) && m.task in Exec(ms).tasks
      then Saved(before)[m.task.spec.id := Exec(ms).tasks[m.task]]
      else Saved(before)
  }

  /** How a task last died since it was last dispatched. */
  datatype Death = NoDeath | Reported | TimedOut

  function LastDeath(ms: seq<Move>, t: Task): Death {
    if ms == [] then NoDeath
    else
      var before, m := ms[..|ms| - 1], ms[|ms| - 1];
      if m.task != t then LastDeath(before, t)
      else Dies(LastDeath(before, t), KindOf(Exec(before), m), UsedUp(Exec(before), t))
  }

  function Dies(d: Death, k: Kind, usedUp: bool): Death {
    match k
    case Enqueued => NoDeath
    case Dispatched => NoDeath
    case Failure => if usedUp then Reported else d
    case Timeout => if usedUp then TimedOut else d
    case Succeeded => d
    case Reclaimed => d
    case Released => d
    case Revived => d
    case Ignored => d
  }

  /** How the snapshot n of a task relates to its record r in the scheduler. */
  predicate Tracks(r: Record, n: Record, d: Death) {
    && n.spec == r.spec
    && match d
       case NoDeath =>
         && r.state != Dead && n.attempt == r.attempt
         && (r.state == Running || r.state == Completed ==> n == r)
         && (n.state.IsTerminal() ==> r.state == Completed)
       case Reported => n.state == Dead && (r.state == Queued || n == r)
       case TimedOut => n.state == Running && (r.state == Queued || r.state == Dead)
  }

  lemma TracksStep(r: Record, n: Record, d: Death, r': Record, k: Kind, usedUp: bool)
    requires Tracks(r, n, d) && StartsFrom(r, k) && Evolves(r, r', k) && usedUp == (r.attempt >= r.spec.maxRetries)
    ensures Tracks(r', if Saves(k) then r' else n, Dies(d, k, usedUp))
  {
  }

  lemma FreshTracks(spec: Spec, d: Death)
    ensures Tracks(Fresh(spec), Fresh(spec), Dies(d, Enqueued, false))
  {
    var r := Fresh(spec);
    assert r.state == Queued;
    hide Fresh;
  }

  /** The last move of a run saves its own task or nothing. */
  lemma LastSave(ms: seq<Move>, t: Task)
    requires ms != [] && UniqueIds(Exec(ms).tasks.Keys) && t in Exec(ms).tasks
    ensures var before, m := ms[..|ms| - 1], ms[|ms| - 1];
      if m.task == t && SavedBy(Exec(before), m)
      then t.spec.id in Saved(ms) && Saved(ms)[t.spec.id] == Exec(ms).tasks[t]
      else t.spec.id in Saved(before) ==>
        t.spec.id in Saved(ms) && Saved(ms)[t.spec.id] == Saved(before)[t.spec.id]
  {
    hide Exec, SavedBy;
  }

  lemma WhatIsSaved(s: Sched, m: Move)
    requires Allowed(s, m)
    ensures SavedBy(s, m) <==> Saves(KindOf(s, m))
  {
    hide Saves, KindOf, Front, Expired;
  }

  /** The store's view of every known task, over every run. */
  lemma {:induction false} SnapshotTracks(ms: seq<Move>, loose: set<Task>, t: Task)
    requires LegalExcept(ms, loose) && t !in loose && UniqueIds(Exec(ms).tasks.Keys) && t in Exec(ms).tasks
    ensures t.spec.id in Saved(ms)
    ensures Tracks(Exec(ms).tasks[t], Saved(ms)[t.spec.id], LastDeath(ms, t))
  {
    hide Tracks, Evolves, Dies, Saved, SavedBy, Saves, UniqueIds, Apply, Allowed, KindOf, SoundFor, UsedUp;
    var before, m := ms[..|ms| - 1], ms[|ms| - 1];
    var s := Exec(before);
    ContainerDeterminesState(before, loose, t);
    FewerIds(s, m);
    LastSave(ms, t);
    if m.task != t {
      OtherTasksStay(s, m, t);
      SnapshotTracks(before, loose, t);
    } else {
      WhatIsSaved(s, m);
      if t !in s.tasks {
        FirstSeen(s, m);
        FreshTracks(t.spec, LastDeath(before, t));
        EnqueuingSaves();
      } else {
        SnapshotTracks(before, loose, t);
        SourceState(s, m);
        EvolvesStep(s, m);
        TracksStep(s.tasks[t], Saved(before)[t.spec.id], LastDeath(before, t), Exec(ms).tasks[t], KindOf(s, m),
                   UsedUp(s, t));
      }
    }
  }

  lemma EnqueuingSaves()
    ensures Saves(Enqueued)
  {
  }

  lemma FewerIds(s: Sched, m: Move)
    ensures s.tasks.Keys <= Apply(s, m).tasks.Keys
    ensures UniqueIds(Apply(s, m).tasks.Keys) ==> UniqueIds(s.tasks.Keys)
  {
    KnownGrows(s, m);
  }

  lemma KnownGrows(s: Sched, m: Move)
    ensures s.tasks.Keys <= Apply(s, m).tasks.Keys
  {
  }

  /** The record r is the snapshot of t made ready for dispatch. */
  predicate RecoveredAs(r: Record, t: Task) {
    r.spec == t.spec && r.state == Queued && r.workerId == EMPTY_TEXT
  }

  /** Which tasks must come back after a crash, from how they stand in memory. */
  predicate ComesBack(r: Record, d: Death) {
    match r.state
    case Completed => false
    case Dead => d == TimedOut
    case _ => d != Reported
  }

  lemma TracksDecides(r: Record, n: Record, d: Death)
    requires Tracks(r, n, d)
    ensures !n.state.IsTerminal() <==> ComesBack(r, d)
    ensures d == NoDeath ==> n.attempt == r.attempt
  {
  }

  /** Walking the store meets a task's snapshot, and no other record of its ID. */
  lemma SnapshotInWalk(db: map<TaskId, Record>, keys: seq<TaskId>, id: TaskId)
    requires WalksOver(keys, db) && id in db
    requires forall k :: k in db ==> db[k].spec.id == k
    ensures db[id] in Records(db, keys)
    ensures forall n :: n in Records(db, keys) && n.spec.id == id ==> n == db[id]
  {
    assert id in keys;
    var i :| 0 <= i < |keys| && keys[i] == id;
    assert Records(db, keys)[i] == db[id];
  }

  predicate KeyedByOwnId(db: map<TaskId, Record>) {
    forall k :: k in db ==> db[k].spec.id == k
  }

  lemma {:induction false} SavedUnderOwnIds(ms: seq<Move>)
    requires Free(ms)
    ensures KeyedByOwnId(Saved(ms))
  {
    hide Exec, SavedBy, Possible;
    if ms != [] {
      SavedUnderOwnIds(ms[..|ms| - 1]);
      if ms[|ms| - 1].task in Exec(ms).tasks {
        SpecKept(ms, ms[|ms| - 1].task);
      }
    }
  }

  /** What a recovery after a crash at the end of ms returns about the task with this ID. */
  ghost predicate Returned(ms: seq<Move>, keys: seq<TaskId>, id: TaskId, n: Record)
    requires WalksOver(keys, Saved(ms))
  {
    n in Recoverable(Records(Saved(ms), keys)) && n.spec.id == id
  }

  /** Recovery returns a task exactly if it is not finished in memory, except
      that a task revived after a reported death and not dispatched since is
      left out, and one that died of a timeout comes back. What is returned is
      QUEUED, without a worker, and has the task's attempt number unless the
      task died since its last dispatch. */
  lemma RecoveryExact(ms: seq<Move>, loose: set<Task>, keys: seq<TaskId>, t: Task)
    requires LegalExcept(ms, loose) && t !in loose && UniqueIds(Exec(ms).tasks.Keys) && t in Exec(ms).tasks
    requires WalksOver(keys, Saved(ms))
    ensures (exists n :: Returned(ms, keys, t.spec.id, n)) <==> ComesBack(Exec(ms).tasks[t], LastDeath(ms, t))
    ensures forall n :: Returned(ms, keys, t.spec.id, n) ==>
      && RecoveredAs(n, t)
      && (LastDeath(ms, t) == NoDeath ==> n.attempt == Exec(ms).tasks[t].attempt)
  {
    hide Exec, LegalExcept, Free, Saved, LastDeath, Recoverable, Tracks, ComesBack, UniqueIds, Records;
    SnapshotTracks(ms, loose, t);
    LegalIsFree(ms, loose);
    SavedUnderOwnIds(ms);
    SpecKept(ms, t);
    var db, r, id := Saved(ms), Exec(ms).tasks[t], t.spec.id;
    TracksDecides(r, db[id], LastDeath(ms, t));
    TracksSpec(r, db[id], LastDeath(ms, t));
    SnapshotInWalk(db, keys, id);
    RecoverableExactly(Records(db, keys), Reset(db[id]));
    forall n | Returned(ms, keys, id, n)
      ensures n == Reset(db[id]) && !db[id].state.IsTerminal()
    {
      RecoverableExactly(Records(db, keys), n);
    }
    if !db[id].state.IsTerminal() {
      assert Returned(ms, keys, id, Reset(db[id]));
    }
  }

  lemma TracksSpec(r: Record, n: Record, d: Death)
    requires Tracks(r, n, d)
    ensures n.spec == r.spec
  {
  }

  /** The task t is never revived from the dead-letter list. */
  predicate NeverRevived(ms: seq<Move>, t: Task) {
    forall m :: m in ms && m.task == t ==> !m.Revive?
  }

  lemma {:induction false} OnlyTheDeadDied(ms: seq<Move>, loose: set<Task>, t: Task)
    requires LegalExcept(ms, loose) && t !in loose && NeverRevived(ms, t) && t in Exec(ms).tasks
    ensures LastDeath(ms, t) != NoDeath ==> Exec(ms).tasks[t].state == Dead
  {
    hide Apply, Allowed, KindOf, SoundFor, UsedUp;
    var before, m := ms[..|ms| - 1], ms[|ms| - 1];
    var s := Exec(before);
    ContainerDeterminesState(before, loose, t);
    if m.task != t {
      OtherTasksStay(s, m, t);
      OnlyTheDeadDied(before, loose, t);
    } else if t !in s.tasks {
      FirstSeen(s, m);
    } else {
      OnlyTheDeadDied(before, loose, t);
      SourceState(s, m);
      EvolvesStep(s, m);
      RevivalsAreRevives(s, m);
    }
  }

  lemma RevivalsAreRevives(s: Sched, m: Move)
    ensures KindOf(s, m) == Revived ==> m.Revive?
  {
  }

  /** Without revivals every unfinished task comes back, QUEUED, without a
      worker and with its attempt number, and no completed task and no task
      whose death was reported does. */
  lemma RecoveryWithoutRevivals(ms: seq<Move>, loose: set<Task>, keys: seq<TaskId>, t: Task)
    requires LegalExcept(ms, loose) && t !in loose && NeverRevived(ms, t)
    requires UniqueIds(Exec(ms).tasks.Keys) && t in Exec(ms).tasks && WalksOver(keys, Saved(ms))
    ensures var r := Exec(ms).tasks[t];
      && (!r.state.IsTerminal() ==>
           exists n :: Returned(ms, keys, t.spec.id, n) && RecoveredAs(n, t) && n.attempt == r.attempt)
      && (r.state == Completed || LastDeath(ms, t) == Reported ==>
           forall n :: !Returned(ms, keys, t.spec.id, n))
  {
    hide Exec, LegalExcept, Saved, LastDeath, UniqueIds, NeverRevived, Returned;
    RecoveryExact(ms, loose, keys, t);
    OnlyTheDeadDied(ms, loose, t);
  }

  // Two runs after which a crash and a recovery change what becomes of a task.

  lemma DeathStep(ms: seq<Move>, m: Move)
    ensures LastDeath(ms + [m], m.task) == Dies(LastDeath(ms, m.task), KindOf(Exec(ms), m), UsedUp(Exec(ms), m.task))
  {
    hide Exec, KindOf, Dies, UsedUp;
    assert (ms + [m])[..|ms|] == ms;
  }

  lemma KnownById(t: Task)
    ensures UniqueIds({t})
  {
  }

  /** A task that may run only once, dispatched for the first time. */
  lemma OnItsLastAttempt(t: Task) returns (ms: seq<Move>)
    requires t.spec.maxRetries <= 1
    ensures Solo(ms, t) && t in Exec(ms).inFlight && UsedUp(Exec(ms), t)
    ensures Exec(ms).tasks[t].state == Running && Exec(ms).tasks[t].startedAt == 0
    ensures Exec(ms).tasks[t].spec == t.spec
  {
    hide LegalExcept, Exec;
    var queued := SoloLostWorkers(t, 0);
    SoloDispatch(queued, t);
    ms := queued + [Dispatch(t, NOBODY, 0)];
    SpecOf(ms, t);
  }

  lemma DeadRun(t: Task) returns (ms: seq<Move>)
    requires t.spec.maxRetries <= 1
    ensures Solo(ms, t) && t in Exec(ms).dead && Exec(ms).tasks[t].state == Dead
    ensures LastDeath(ms, t) == Reported
  {
    hide Exec, LegalExcept, LastDeath;
    var running := OnItsLastAttempt(t);
    var report := Fail(t, NOBODY, 1, 0, 0);
    SoloStep(running, report, t);
    DeathStep(running, report);
    ms := running + [report];
  }

  lemma RevivedRun(t: Task) returns (ms: seq<Move>)
    requires t.spec.maxRetries <= 1
    ensures Solo(ms, t) && Exec(ms).tasks[t].state == Queued && LastDeath(ms, t) == Reported
  {
    hide Exec, LegalExcept, LastDeath;
    var dead := DeadRun(t);
    SoloReady(dead, t);
    SoloStep(dead, Revive(t), t);
    DeathStep(dead, Revive(t));
    ms := dead + [Revive(t)];
  }

  /** A task dead of a reported failure and then revived is queued in memory,
      but a crash before its next dispatch loses it. */
  lemma RevivedTaskIsLost(t: Task) returns (ms: seq<Move>)
    requires t.spec.maxRetries <= 1
    ensures Legal(ms) && t in Exec(ms).tasks && Exec(ms).tasks[t].state == Queued
    ensures forall keys, n | WalksOver(keys, Saved(ms)) :: !Returned(ms, keys, t.spec.id, n)
  {
    hide Exec, LegalExcept, Saved, LastDeath, Returned, WalksOver, UniqueIds;
    ms := RevivedRun(t);
    KnownById(t);
    forall keys, n | WalksOver(keys, Saved(ms))
      ensures !Returned(ms, keys, t.spec.id, n)
    {
      RecoveryExact(ms, {}, keys, t);
    }
  }

  /** A task that died of a timeout is dead in memory, but comes back after a crash. */
  lemma TimedOutTaskComesBack(t: Task) returns (ms: seq<Move>)
    requires t.spec.maxRetries <= 1 && t.spec.timeoutSec > 0
    ensures Legal(ms) && t in Exec(ms).tasks && Exec(ms).tasks[t].state == Dead
    ensures forall keys | WalksOver(keys, Saved(ms)) :: exists n :: Returned(ms, keys, t.spec.id, n)
  {
    hide Exec, LegalExcept, Saved, LastDeath, Returned, WalksOver, UniqueIds;
    var running := OnItsLastAttempt(t);
    var late := Expire(t, Clock.TWO_63, 0);
    SoloStep(running, late, t);
    DeathStep(running, late);
    ms := running + [late];
    KnownById(t);
    forall keys | WalksOver(keys, Saved(ms))
      ensures exists n :: Returned(ms, keys, t.spec.id, n)
    {
      RecoveryExact(ms, {}, keys, t);
    }
  }
}
