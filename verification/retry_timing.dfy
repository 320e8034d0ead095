/** The exponential backoff: its 64-bit arithmetic, and the waiting it causes
    over whole runs. */
module RetryTiming {
  import opened Basics
  import opened Clock
  import opened Tasks
  import opened SchedulerModel
  import opened Runs
  import opened Accounts
  import opened Budget
  import opened SoloRuns

  lemma {:induction false} Pow2Grows(m: nat, n: nat)
    requires m < n
    ensures Pow2(m) < Pow2(n)
  {
    if m + 1 < n {
      Pow2Grows(m, n - 1);
    }
  }

  /** 2^n from its binary digits, a digit at a time. */
  lemma {:induction false} Pow2Sum(m: nat, n: nat)
    ensures Pow2(m + n) == Pow2(m) * Pow2(n)
  {
    if m > 0 {
      Pow2Sum(m - 1, n);
      assert Pow2(m + n) == 2 * Pow2(m - 1 + n);
    }
  }

  lemma PowersOfInterest()
    ensures Pow2(33) == 0x2_0000_0000 && Pow2(34) == 0x4_0000_0000
  {
    assert Pow2(4) == 16;
    Pow2Sum(4, 4);
    Pow2Sum(8, 8);
    Pow2Sum(16, 16);
  }

  /** The delay is 2^attempt seconds exactly up to attempt 33; from attempt 34
      on the 64-bit nanosecond count overflows. */
  lemma BackoffExact(attempt: nat)
    ensures Backoff(attempt) == Pow2(attempt) * SECOND <==> attempt <= 33
  {
    PowersOfInterest();
    hide Pow2;
    if attempt <= 33 {
      if attempt < 33 {
        Pow2Grows(attempt, 33);
      }
    } else {
      if attempt > 34 {
        Pow2Grows(34, attempt);
      }
      assert Pow2(attempt) * SECOND > TWO_63;
    }
  }

  /** Past the exact range the delay is off by a multiple of 2^64 nanoseconds, at every attempt number. */
  lemma BackoffWraps(attempt: nat)
    ensures -TWO_63 <= Backoff(attempt) < TWO_63
    ensures (Backoff(attempt) - Pow2(attempt) * SECOND) % TWO_64 == 0
  {
    if attempt >= 63 {
      Pow2Sum(63, attempt - 63);
      PowerOf63();
      FarBackoff(Pow2(attempt - 63));
    }
    hide Pow2, Int64;
  }

  /** From attempt 63 on both sides are multiples of 2^64 nanoseconds. */
  lemma FarBackoff(p: nat)
    ensures (Int64(-TWO_63 * SECOND) - TWO_63 * p * SECOND) % TWO_64 == 0
  {
    hide Int64;
    MultipleWraps(Int64(-TWO_63 * SECOND), -TWO_63 * SECOND, TWO_63 * p * SECOND, -500_000_000 * (1 + p));
  }

  lemma PowerOf63()
    ensures Pow2(63) == TWO_63
  {
    PowersOfInterest();
    Pow2Sum(33, 33);
    Pow2Sum(3, 63);
    assert Pow2(3) == 8;
    hide Pow2;
  }

  lemma MultipleWraps(r: int, x: int, y: int, k: int)
    requires (r - x) % TWO_64 == 0 && x - y == TWO_64 * k
    ensures (r - y) % TWO_64 == 0
  {
  }

  lemma FirstOverflow()
    ensures Backoff(34) < 0 && Backoff(34) + SECOND < -1
  {
    PowersOfInterest();
    hide Pow2;
    assert PowToInt64(34) == 0x4_0000_0000;
  }

  /** Within the exact range delays grow strictly with the attempt number, jitter included. */
  lemma DelaysGrow(a: nat, b: nat, j: nat, k: nat)
    requires 1 <= a < b <= 33 && j < SECOND && k < SECOND
    ensures Backoff(a) + j < Backoff(b) + k
  {
    BackoffExact(a);
    BackoffExact(b);
    Pow2Grows(a, b);
  }

  /** A failure or timeout with attempts left. */
  predicate StartsWait(s: Sched, m: Move) {
    (m.Fail? || m.Expire?) && m.task in s.inFlight && m.task in s.tasks && !UsedUp(s, m.task)
  }

  /** The wait an effective failure or timeout imposes. */
  function WaitOf(s: Sched, m: Move): int {
    if StartsWait(s, m)
    then Backoff(s.tasks[m.task].attempt) + m.jitter
    else 0
  }

  /** When t last failed or timed out, and the jitter drawn then. */
  datatype Stop = Stop(at: int, jitter: nat)

  function LastStop(ms: seq<Move>, t: Task): Stop {
    if ms == [] then Stop(0, 0)
    else
      var before, m := ms[..|ms| - 1], ms[|ms| - 1];
      if m.task == t && (m.Fail? || m.Expire?) && t in Exec(before).inFlight
      then Stop(m.now, m.jitter)
      else LastStop(before, t)
  }

  lemma FailedRecord(s: Sched, m: Move)
    requires SoundFor(s, m.task) && m.task in s.inFlight && (m.Fail? || m.Expire?) && !UsedUp(s, m.task)
    ensures m.task in s.tasks && m.task in Apply(s, m).tasks
    ensures Apply(s, m).tasks[m.task].nextRetryAt == m.now + Backoff(s.tasks[m.task].attempt) + m.jitter
  {
    var r := s.tasks[m.task];
    if m.Fail? {
      FailureOutcome(r, m.error, m.exitCode, m.now, m.jitter);
    } else {
      FailureOutcome(r, TIMEOUT_MESSAGE, -1, m.now, m.jitter);
    }
    hide AfterFailure;
  }

  /** Only a failure or timeout with attempts left makes a task wait. */
  lemma WaitingBegan(s: Sched, m: Move)
    requires Allowed(s, m) && SoundFor(s, m.task) && m.task in s.tasks && KindOf(s, m) != Ignored
    requires m.task in Apply(s, m).tasks && Apply(s, m).tasks[m.task].state == Retrying
    ensures (m.Fail? || m.Expire?) && m.task in s.inFlight && !UsedUp(s, m.task)
    ensures Apply(s, m).tasks[m.task].attempt == s.tasks[m.task].attempt
  {
    EvolvesStep(s, m);
    hide Apply, Allowed;
  }

  /** A waiting task's retry time is its last failure plus backoff and jitter. */
  lemma {:induction false} RetryTimeIsSet(ms: seq<Move>, loose: set<Task>, t: Task)
    requires LegalExcept(ms, loose) && t !in loose
    requires t in Exec(ms).tasks && Exec(ms).tasks[t].state == Retrying
    ensures var r, stop := Exec(ms).tasks[t], LastStop(ms, t);
      r.nextRetryAt == stop.at + Backoff(r.attempt) + stop.jitter
  {
    hide Backoff, SoundFor, Apply, Allowed, KindOf, UsedUp;
    var before, m := ms[..|ms| - 1], ms[|ms| - 1];
    var s := Exec(before);
    ContainerDeterminesState(before, loose, t);
    if m.task != t {
      OtherTasksStay(s, m, t);
      RetryTimeIsSet(before, loose, t);
    } else if t !in s.tasks {
      FirstSeen(s, m);
    } else if KindOf(s, m) == Ignored {
      RecordsStep(s, m);
      IgnoredReport(s, m);
      RetryTimeIsSet(before, loose, t);
    } else {
      WaitingBegan(s, m);
      FailedRecord(s, m);
    }
  }

  lemma IgnoredReport(s: Sched, m: Move)
    requires KindOf(s, m) == Ignored
    ensures !((m.Fail? || m.Expire?) && m.task in s.inFlight)
  {
  }

  /** The retry time a run leaves a task with, in whatever state: only a failure
      or timeout with attempts left sets it. */
  function RetryTimeOf(ms: seq<Move>, t: Task): int {
    if ms == [] then 0
    else
      var before, m := ms[..|ms| - 1], ms[|ms| - 1];
      if m.task == t && m.Enqueue? then 0
      else if m.task == t && StartsWait(Exec(before), m) then m.now + WaitOf(Exec(before), m)
      else RetryTimeOf(before, t)
  }

  lemma RetryTimeStep(s: Sched, m: Move)
    requires Allowed(s, m) && SoundFor(s, m.task) && m.task in s.tasks
    ensures m.task in Apply(s, m).tasks
    ensures Apply(s, m).tasks[m.task].nextRetryAt
         == if StartsWait(s, m) then m.now + WaitOf(s, m) else s.tasks[m.task].nextRetryAt
  {
    if StartsWait(s, m) {
      FailedRecord(s, m);
    } else {
      RecordsStep(s, m);
      if KindOf(s, m) != Ignored {
        SourceState(s, m);
        RetryTimeStays(s.tasks[m.task], m, KindOf(s, m));
      }
    }
    hide Apply, NextRecord, Backoff;
  }

  lemma RetryTimeStays(r: Record, m: Move, k: Kind)
    requires Does(m, k) && StartsFrom(r, k)
    requires m.Fail? || m.Expire? ==> r.attempt >= r.spec.maxRetries
    ensures NextRecord(r, m).nextRetryAt == r.nextRetryAt
  {
  }

  lemma {:induction false} RetryTimeFromMoves(ms: seq<Move>, loose: set<Task>, t: Task)
    requires LegalExcept(ms, loose) && t !in loose && t in Exec(ms).tasks
    ensures Exec(ms).tasks[t].nextRetryAt == RetryTimeOf(ms, t)
  {
    hide SoundFor, Apply, Allowed, StartsWait, WaitOf;
    var before, m := ms[..|ms| - 1], ms[|ms| - 1];
    var s := Exec(before);
    ContainerDeterminesState(before, loose, t);
    if m.task != t {
      OtherTasksStay(s, m, t);
      RetryTimeFromMoves(before, loose, t);
    } else if t !in s.tasks {
      FirstSeen(s, m);
    } else {
      KnownIsNotEnqueued(s, m);
      RetryTimeStep(s, m);
      RetryTimeFromMoves(before, loose, t);
    }
  }

  /** What the documentation promises of a waiting task: the delay of its
      attempt is 2^attempt seconds plus the jitter. */
  predicate DelayIsExact(ms: seq<Move>, t: Task) {
    t in Exec(ms).tasks && Exec(ms).tasks[t].state == Retrying ==>
      var r, stop := Exec(ms).tasks[t], LastStop(ms, t);
      r.nextRetryAt == stop.at + Pow2(r.attempt) * SECOND + stop.jitter
  }

  lemma DelayExactWithin34(ms: seq<Move>, loose: set<Task>, t: Task)
    requires LegalExcept(ms, loose) && t !in loose && t.spec.maxRetries <= 34
    ensures DelayIsExact(ms, t)
  {
    hide Exec, LegalExcept, Backoff, LastStop;
    if t in Exec(ms).tasks && Exec(ms).tasks[t].state == Retrying {
      RetryTimeIsSet(ms, loose, t);
      ContainerDeterminesState(ms, loose, t);
      BackoffExact(Exec(ms).tasks[t].attempt);
    }
  }

  /** A task with at least 35 retries, dispatched and lost 33 times and then failing, waits at attempt 34. */
  lemma OverflowRun(t: Task) returns (ms: seq<Move>)
    requires t.spec.maxRetries >= 35
    ensures Solo(ms, t) && Exec(ms).tasks[t].state == Retrying && Exec(ms).tasks[t].attempt == 34
    ensures LastStop(ms, t) == Stop(0, 0)
  {
    hide LegalExcept, Exec, LastStop, SoundFor;
    var lost := SoloLostWorkers(t, 33);
    SoloDispatch(lost, t);
    var running := lost + [Dispatch(t, NOBODY, 0)];
    SoloStep(running, Fail(t, NOBODY, 1, 0, 0), t);
    ms := running + [Fail(t, NOBODY, 1, 0, 0)];
    StopOfFailure(running, t);
    SpecOf(running, t);
  }

  /** ... and may be released before the time it failed. */
  lemma OverflowRetriesAtOnce(t: Task) returns (ms: seq<Move>)
    requires t.spec.maxRetries >= 35
    ensures Legal(ms) && t in Exec(ms).tasks && Exec(ms).tasks[t].state == Retrying
    ensures Exec(ms).tasks[t].attempt == 34
    ensures Allowed(Exec(ms), Release(t, LastStop(ms, t).at - 1))
    ensures !DelayIsExact(ms, t)
  {
    hide LegalExcept, Exec, LastStop, Backoff, Pow2;
    ms := OverflowRun(t);
    SoloReady(ms, t);
    RetryTimeIsSet(ms, {}, t);
    FirstOverflow();
    assert Pow2(34) > 0;
  }

  lemma StopOfFailure(ms: seq<Move>, t: Task)
    requires t in Exec(ms).inFlight
    ensures LastStop(ms + [Fail(t, NOBODY, 1, 0, 0)], t) == Stop(0, 0)
  {
    hide Exec;
    var n := ms + [Fail(t, NOBODY, 1, 0, 0)];
    assert n[..|n| - 1] == ms;
  }

  /** In every run a task's delays are what the documentation promises, if and
      only if its MaxRetries is at most 34. */
  lemma DelaysExactly(t: Task)
    ensures (forall ms :: Legal(ms) ==> DelayIsExact(ms, t)) <==> t.spec.maxRetries <= 34
  {
    hide LegalExcept, DelayIsExact;
    if t.spec.maxRetries <= 34 {
      forall ms | Legal(ms)
        ensures DelayIsExact(ms, t)
      {
        DelayExactWithin34(ms, {}, t);
      }
    } else {
      var ms := OverflowRetriesAtOnce(t);
    }
  }

  /** No run releases a waiting task before 2^attempt seconds have passed since it failed. */
  lemma NeverReleasedEarly(ms: seq<Move>, loose: set<Task>, t: Task, now: int)
    requires LegalExcept(ms + [Release(t, now)], loose) && t !in loose && t.spec.maxRetries <= 34
    ensures t in Exec(ms).tasks
    ensures now > LastStop(ms, t).at + Pow2(Exec(ms).tasks[t].attempt) * SECOND
  {
    hide Exec, Pow2, LastStop;
    assert (ms + [Release(t, now)])[..|ms|] == ms;
    ContainerDeterminesState(ms, loose, t);
    CountRemove(Exec(ms).retry, t, t);
    DelayExactWithin34(ms, loose, t);
  }

  /** More than 2^attempt seconds and the jitter drawn have passed since the task failed. */
  predicate WaitIsOver(ms: seq<Move>, t: Task, now: int)
    requires t in Exec(ms).tasks
  {
    var stop := LastStop(ms, t);
    now > stop.at + Pow2(Exec(ms).tasks[t].attempt) * SECOND + stop.jitter
  }

  /** A waiting task is due exactly when its wait is over. */
  lemma DueExactly(ms: seq<Move>, loose: set<Task>, t: Task, now: int)
    requires LegalExcept(ms, loose) && t !in loose && t.spec.maxRetries <= 34 && t in Exec(ms).retry
    ensures t in Exec(ms).tasks
    ensures now > Exec(ms).tasks[t].nextRetryAt <==> WaitIsOver(ms, t, now)
  {
    hide Exec, Pow2, LastStop;
    ContainerDeterminesState(ms, loose, t);
    CountRemove(Exec(ms).retry, t, t);
    DelayExactWithin34(ms, loose, t);
  }

  /** The task waits by the promise of its attempt: MaxRetries is at most 34. */
  predicate WaitsExactly(t: Task, loose: set<Task>) {
    t !in loose && t.spec.maxRetries <= 34
  }

  lemma DueOverRun(log: seq<Move>, loose: set<Task>, now: int)
    requires LegalExcept(log, loose)
    ensures forall t :: t in Exec(log).retry && WaitsExactly(t, loose) ==>
      t in Exec(log).tasks && (now > Exec(log).tasks[t].nextRetryAt <==> WaitIsOver(log, t, now))
  {
    hide Exec, LegalExcept, WaitIsOver;
    forall t | t in Exec(log).retry && WaitsExactly(t, loose)
      ensures t in Exec(log).tasks && (now > Exec(log).tasks[t].nextRetryAt <==> WaitIsOver(log, t, now))
    {
      DueExactly(log, loose, t, now);
    }
  }

  function AddWait(waited: int, k: Kind, wait: int): int {
    if k == Enqueued || k == Revived then 0
    else if k == Failure || k == Timeout then waited + wait
    else waited
  }

  /** All waiting imposed on t since it was enqueued or last revived. */
  function WaitedFor(ms: seq<Move>, t: Task): int {
    if ms == [] then 0
    else
      var before, m := ms[..|ms| - 1], ms[|ms| - 1];
      if m.task != t then WaitedFor(before, t)
      else AddWait(WaitedFor(before, t), KindOf(Exec(before), m), WaitOf(Exec(before), m))
  }

  predicate JitterBounded(ms: seq<Move>) {
    forall m :: m in ms && (m.Fail? || m.Expire?) ==> m.jitter < SECOND
  }

  /** After n waits of a task that no worker lost: 2 + 4 + ... + 2^n seconds
      and less than one more second for each. */
  predicate WaitsAddUp(waited: int, n: nat) {
    (Pow2(n + 1) - 2) * SECOND <= waited <= (Pow2(n + 1) - 2 + n) * SECOND
  }

  lemma WaitsAddUpStep(waited: int, n: nat, jitter: nat)
    requires WaitsAddUp(waited, n) && n + 1 <= 33 && jitter < SECOND
    ensures WaitsAddUp(waited + Backoff(n + 1) + jitter, n + 1)
  {
    BackoffExact(n + 1);
    assert Pow2(n + 2) == 2 * Pow2(n + 1);
    hide Backoff, Pow2;
  }

  predicate WaitsFit(y: Tally, waited: int) {
    && y.fatal <= y.failures + y.timeouts
    && (y.reclaims == 0 ==> WaitsAddUp(waited, y.failures + y.timeouts - y.fatal))
  }

  lemma NoWaitsYet()
    ensures WaitsFit(NO_TALLY, 0)
  {
  }

  /** One more failure or timeout with attempts left adds its wait. */
  lemma WaitsFitRetry(r: Record, y: Tally, waited: int, jitter: nat)
    requires WaitsFit(y, waited) && AttemptsAddUp(r, y) && DiesOnce(r, y) && r.state == Running
    requires r.attempt < r.spec.maxRetries <= 34 && jitter < SECOND
    ensures y.fatal == 0
    ensures y.reclaims == 0 ==> WaitsAddUp(waited + Backoff(r.attempt) + jitter, y.failures + y.timeouts + 1)
  {
    if y.reclaims == 0 {
      WaitsAddUpStep(waited, y.failures + y.timeouts, jitter);
    }
    hide WaitsAddUp, Backoff;
  }

  lemma WaitsFitStep(r: Record, y: Tally, waited: int, k: Kind, usedUp: bool, wait: int, jitter: nat)
    requires WaitsFit(y, waited) && Accounted(r, y) && StartsFrom(r, k)
    requires r.spec.maxRetries <= 34 && jitter < SECOND
    requires usedUp == (r.attempt >= r.spec.maxRetries)
    requires k == Failure || k == Timeout ==> wait == if usedUp then 0 else Backoff(r.attempt) + jitter
    ensures WaitsFit(Score(y, k, usedUp), AddWait(waited, k, wait))
  {
    hide WaitsAddUp, Backoff, WithinBudget;
    if k == Enqueued || k == Revived {
      NoWaitsYet();
    } else if (k == Failure || k == Timeout) && !usedUp {
      WaitsFitRetry(r, y, waited, jitter);
    }
    hide AttemptsAddUp;
  }

  lemma {:induction false} WaitsOverRun(ms: seq<Move>, loose: set<Task>, t: Task)
    requires LegalExcept(ms, loose) && t !in loose && JitterBounded(ms)
    requires t in Exec(ms).tasks && t.spec.maxRetries <= 34
    ensures WaitsFit(TallyOf(ms, t), WaitedFor(ms, t))
  {
    hide WaitsFit, Accounted, Backoff, Score, AddWait, JitterBounded, KindOf, TallyOf, WaitedFor, UsedUp, StartsFrom,
      Apply, Allowed, Agree;
    var before, m := ms[..|ms| - 1], ms[|ms| - 1];
    JitterOfLast(ms);
    LastTally(ms, t);
    var s := Exec(before);
    ContainerDeterminesState(before, loose, t);
    if m.task != t {
      OtherTasksStay(s, m, t);
      WaitsOverRun(before, loose, t);
    } else if t !in s.tasks {
      FirstSeen(s, m);
      FirstWait(TallyOf(before, t), WaitedFor(before, t), WaitOf(s, m));
    } else {
      RetryBudget(before, loose, t);
      WaitsOverRun(before, loose, t);
      SourceState(s, m);
      if KindOf(s, m) == Failure || KindOf(s, m) == Timeout {
        WaitIsDrawn(s, m);
      }
      WaitsFitStep(s.tasks[t], TallyOf(before, t), WaitedFor(before, t), KindOf(s, m),
                   UsedUp(s, t), WaitOf(s, m), JitterOf(m));
    }
  }

  lemma LastTally(ms: seq<Move>, t: Task)
    requires ms != []
    ensures var before, m := ms[..|ms| - 1], ms[|ms| - 1];
      if m.task != t then TallyOf(ms, t) == TallyOf(before, t) && WaitedFor(ms, t) == WaitedFor(before, t)
      else
        var k := KindOf(Exec(before), m);
        && TallyOf(ms, t) == Score(TallyOf(before, t), k, UsedUp(Exec(before), t))
        && (t !in Exec(before).tasks ==> !UsedUp(Exec(before), t))
        && (t in Exec(before).tasks ==>
              var r := Exec(before).tasks[t]; UsedUp(Exec(before), t) <==> r.attempt >= r.spec.maxRetries)
        && WaitedFor(ms, t) == AddWait(WaitedFor(before, t), k, WaitOf(Exec(before), m))
  {
    hide Exec, KindOf, Score, AddWait, WaitOf;
  }

  lemma JitterOfLast(ms: seq<Move>)
    requires JitterBounded(ms) && ms != []
    ensures JitterBounded(ms[..|ms| - 1]) && JitterOf(ms[|ms| - 1]) < SECOND
  {
  }

  function JitterOf(m: Move): nat {
    if m.Fail? || m.Expire? then m.jitter else 0
  }

  lemma FirstWait(y: Tally, waited: int, wait: int)
    ensures WaitsFit(Score(y, Enqueued, false), AddWait(waited, Enqueued, wait))
  {
    NoWaitsYet();
  }

  lemma WaitIsDrawn(s: Sched, m: Move)
    requires m.task in s.tasks && (KindOf(s, m) == Failure || KindOf(s, m) == Timeout)
    ensures WaitOf(s, m) == if UsedUp(s, m.task) then 0 else Backoff(s.tasks[m.task].attempt) + JitterOf(m)
  {
    hide Backoff;
  }

  /** On the way to the dead-letter list with M = MaxRetries between 1 and 34
      and no worker lost, a task waits at least 2^M - 2 seconds and at most
      2^M + M - 3. */
  lemma WaitBeforeDeadLetter(ms: seq<Move>, loose: set<Task>, t: Task)
    requires LegalExcept(ms, loose) && t !in loose && JitterBounded(ms)
    requires t in Exec(ms).tasks && Exec(ms).tasks[t].state == Dead
    requires TallyOf(ms, t).reclaims == 0 && 1 <= t.spec.maxRetries <= 34
    ensures var M := t.spec.maxRetries;
      (Pow2(M) - 2) * SECOND <= WaitedFor(ms, t) <= (Pow2(M) + M - 3) * SECOND
  {
    hide Pow2, Exec, LegalExcept, TallyOf, WaitedFor;
    RetryBudget(ms, loose, t);
    WaitsOverRun(ms, loose, t);
    ContainerDeterminesState(ms, loose, t);
  }
}
