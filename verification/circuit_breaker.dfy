/** The per-worker circuit breaker, its history, and what the history alone
    says about its state. Times are integers; each call reads the clock once. */
module CircuitBreakers {
  import opened Basics

  datatype State = Closed | Open | HalfOpen

  datatype Event = Allow(now: int, allowed: bool) | Success | Failure(now: int) | Trip(now: int) | Reset

  datatype Config = Config(failureThreshold: int, successThreshold: int, timeout: int)

  datatype Status = Status(state: State, failureCount: nat, successCount: nat, lastFailure: int)

  const NEW := Status(Closed, 0, 0, 0)

  function Admits(c: Config, s: Status, now: int): bool {
    s.state != Open || now - s.lastFailure > c.timeout
  }

  /** What one call makes of the breaker. */
  function Next(c: Config, s: Status, e: Event): Status {
    match e
    case Allow(now, _) =>
      if s.state == Open && Admits(c, s, now) then s.(state := HalfOpen, successCount := 0) else s
    case Success =>
      (match s.state
       case HalfOpen =>
         if s.successCount + 1 >= c.successThreshold then s.(state := Closed, failureCount := 0, successCount := 0)
         else s.(successCount := s.successCount + 1)
       case Closed => s.(failureCount := 0)
       case Open => s)
    case Failure(now) =>
      var n := s.(failureCount := s.failureCount + 1, lastFailure := now);
      (match s.state
       case Closed => if n.failureCount >= c.failureThreshold then n.(state := Open) else n
       case HalfOpen => n.(state := Open)
       case Open => n)
    case Trip(now) => s.(state := Open, lastFailure := now)
    case Reset => s.(state := Closed, failureCount := 0, successCount := 0)
  }

  /** The breaker after the calls of a trace. */
  function After(c: Config, trace: seq<Event>): Status {
    if trace == [] then NEW else Next(c, After(c, trace[..|trace| - 1]), trace[|trace| - 1])
  }

  /** Every Allow of the trace answered as the breaker then stood. */
  predicate Answers(c: Config, trace: seq<Event>) {
    trace == [] ||
      (var before, e := trace[..|trace| - 1], trace[|trace| - 1];
       Answers(c, before) && (e.Allow? ==> e.allowed == Admits(c, After(c, before), e.now)))
  }

  // What the trace says, read without running the breaker.

  predicate IsBlow(e: Event) {
    e.Failure? || e.Trip?
  }

  /** The failures after the last success or reset. */
  function FailuresInARow(trace: seq<Event>): nat {
    if trace == [] then 0
    else
      var e, before := trace[|trace| - 1], trace[..|trace| - 1];
      if e.Success? || e.Reset? then 0
      else FailuresInARow(before) + if e.Failure? then 1 else 0
  }

  /** When the last failure or trip was. */
  function LastBlow(trace: seq<Event>): int {
    if trace == [] then 0
    else if IsBlow(trace[|trace| - 1]) then trace[|trace| - 1].now
    else LastBlow(trace[..|trace| - 1])
  }

  /** The successes of a stretch of calls. */
  function Successes(calls: seq<Event>): nat {
    if calls == [] then 0
    else Successes(calls[..|calls| - 1]) + if calls[|calls| - 1].Success? then 1 else 0
  }

  predicate Calm(calls: seq<Event>) {
    forall e :: e in calls ==> !IsBlow(e) && !e.Reset?
  }

  /** While closed, the failure counter is the number of failures since the
      last success or reset, and below the threshold. */
  lemma {:induction false} ClosedCountsFailures(c: Config, trace: seq<Event>)
    ensures var s := After(c, trace);
      s.state == Closed ==> s.successCount == 0 && s.failureCount == FailuresInARow(trace) < Max(1, c.failureThreshold)
    ensures After(c, trace).state == HalfOpen ==> After(c, trace).successCount < Max(1, c.successThreshold)
  {
    if trace != [] {
      ClosedCountsFailures(c, trace[..|trace| - 1]);
    }
  }

  lemma {:induction false} RemembersLastBlow(c: Config, trace: seq<Event>)
    ensures After(c, trace).lastFailure == LastBlow(trace)
  {
    if trace != [] {
      RemembersLastBlow(c, trace[..|trace| - 1]);
    }
  }

  /** A breaker that was never tripped and never had `failureThreshold` failures
      in a row is closed; a new one is. */
  lemma {:induction false} ClosedUntilTheThreshold(c: Config, trace: seq<Event>)
    requires forall e :: e in trace ==> !e.Trip?
    requires forall k :: 0 <= k <= |trace| ==> FailuresInARow(trace[..k]) < Max(1, c.failureThreshold)
    ensures After(c, trace).state == Closed
  {
    if trace != [] {
      var before := trace[..|trace| - 1];
      assert forall k :: 0 <= k <= |before| ==> before[..k] == trace[..k];
      assert trace[..|trace|] == trace;
      ClosedUntilTheThreshold(c, before);
      ClosedCountsFailures(c, before);
    }
  }

  /** In every state the failure counter is the number of failures since the
      last reset or success that left the breaker closed. */
  function FailuresSinceCleared(c: Config, trace: seq<Event>): nat {
    if trace == [] then 0
    else
      var e, before := trace[|trace| - 1], trace[..|trace| - 1];
      if e.Reset? || (e.Success? && After(c, trace).state == Closed) then 0
      else FailuresSinceCleared(c, before) + if e.Failure? then 1 else 0
  }

  lemma {:induction false} CountsFailures(c: Config, trace: seq<Event>)
    ensures After(c, trace).failureCount == FailuresSinceCleared(c, trace)
  {
    if trace != [] {
      CountsFailures(c, trace[..|trace| - 1]);
    }
  }

  /** It opens exactly on a trip, on a failure that makes `failureThreshold` in
      a row, or on a failure while probing. */
  lemma OpensExactly(c: Config, trace: seq<Event>, e: Event)
    requires After(c, trace).state != Open
    ensures After(c, trace + [e]).state == Open <==>
      || e.Trip?
      || (e.Failure? && After(c, trace).state == HalfOpen)
      || (e.Failure? && FailuresInARow(trace) + 1 >= c.failureThreshold)
  {
    assert (trace + [e])[..|trace|] == trace;
    ClosedCountsFailures(c, trace);
  }

  /** Once open, and until a reset, a call of Allow at `now` is let through
      exactly when more than `timeout` has passed since the last failure or trip. */
  lemma OpenAdmitsExactly(c: Config, trace: seq<Event>, now: int)
    requires After(c, trace).state == Open
    ensures Answers(c, trace + [Allow(now, true)]) <==> Answers(c, trace) && now - LastBlow(trace) > c.timeout
  {
    assert (trace + [Allow(now, true)])[..|trace|] == trace;
    RemembersLastBlow(c, trace);
  }

  /** A call is refused exactly while the breaker is open and no more than
      `timeout` has passed since the last failure or trip. */
  lemma RefusedExactly(c: Config, trace: seq<Event>, now: int, ok: bool)
    requires Answers(c, trace)
    ensures Answers(c, trace + [Allow(now, ok)]) <==>
      (ok <==> !(After(c, trace).state == Open && now - LastBlow(trace) <= c.timeout))
  {
    assert (trace + [Allow(now, ok)])[..|trace|] == trace;
    RemembersLastBlow(c, trace);
  }

  /** Whether the breaker is open after each of these further calls. */
  predicate StaysOpen(c: Config, trace: seq<Event>, more: seq<Event>) {
    forall k :: 0 <= k <= |more| ==> After(c, trace + more[..k]).state == Open
  }

  /** The first Allow let through after the breaker opened comes more than
      `timeout` after the last failure or trip before it, unless there was a reset. */
  lemma {:induction false} NoEarlyAdmission(c: Config, trace: seq<Event>, more: seq<Event>)
    requires After(c, trace).state == Open && Answers(c, trace + more)
    requires forall e :: e in more ==> !e.Reset? && !(e.Allow? && e.allowed)
    ensures StaysOpen(c, trace, more)
    ensures forall now :: Answers(c, trace + more + [Allow(now, true)]) ==> now - LastBlow(trace + more) > c.timeout
  {
    if more == [] {
      assert trace + more == trace;
    } else {
      var k, e := |more| - 1, more[|more| - 1];
      assert trace + more == trace + more[..k] + [e];
      assert (trace + more)[..|trace + more| - 1] == trace + more[..k];
      NoEarlyAdmission(c, trace, more[..k]);
      assert forall j :: 0 <= j <= k ==> more[..j] == more[..k][..j];
      assert more[..|more|] == more;
    }
    forall now | Answers(c, trace + more + [Allow(now, true)])
      ensures now - LastBlow(trace + more) > c.timeout
    {
      OpenAdmitsExactly(c, trace + more, now);
    }
  }

  /** Where in the trace the probing under way began. */
  function ProbingSince(c: Config, trace: seq<Event>): nat
    requires After(c, trace).state == HalfOpen
    ensures ProbingSince(c, trace) < |trace|
  {
    var k := |trace| - 1;
    if After(c, trace[..k]).state == Open then k else ProbingSince(c, trace[..k])
  }

  lemma OneMoreCall(trace: seq<Event>, a: nat)
    requires a + 1 < |trace|
    ensures var k, e := |trace| - 1, trace[|trace| - 1];
      && trace[..k][..a] == trace[..a] && trace[..k][a] == trace[a]
      && Successes(trace[a + 1..]) == Successes(trace[..k][a + 1..]) + (if e.Success? then 1 else 0)
      && (Calm(trace[..k][a + 1..]) && !IsBlow(e) && !e.Reset? ==> Calm(trace[a + 1..]))
  {
    var k := |trace| - 1;
    assert trace[a + 1..][..k - a - 1] == trace[..k][a + 1..];
    assert trace[a + 1..] == trace[..k][a + 1..] + [trace[k]];
  }

  /** Probing began with an Allow late enough after the last blow; there has
      been no failure, trip or reset since, and the counter is the successes since. */
  lemma {:induction false} Probing(c: Config, trace: seq<Event>)
    requires After(c, trace).state == HalfOpen
    ensures var a := ProbingSince(c, trace);
      && After(c, trace[..a]).state == Open
      && trace[a].Allow? && trace[a].now - LastBlow(trace[..a]) > c.timeout
      && Calm(trace[a + 1..])
      && After(c, trace).successCount == Successes(trace[a + 1..])
  {
    var k := |trace| - 1;
    if After(c, trace[..k]).state == Open {
      RemembersLastBlow(c, trace[..k]);
    } else {
      hide Calm, Successes, LastBlow;
      Probing(c, trace[..k]);
      OneMoreCall(trace, ProbingSince(c, trace[..k]));
    }
  }

  /** While closed or probing every Allow is answered true, however many there
      are, and leaves the breaker as it is. */
  lemma AdmitsUnlessOpen(c: Config, trace: seq<Event>, now: int, ok: bool)
    requires After(c, trace).state != Open
    ensures Answers(c, trace + [Allow(now, ok)]) <==> Answers(c, trace) && ok
    ensures After(c, trace + [Allow(now, ok)]) == After(c, trace)
  {
    assert (trace + [Allow(now, ok)])[..|trace|] == trace;
  }

  /** With any configuration two requests can be let through before either has reported. */
  lemma TwoProbesAtOnce(c: Config) returns (trace: seq<Event>)
    ensures trace == [Trip(0), Allow(c.timeout + 1, true), Allow(c.timeout + 1, true)]
    ensures Answers(c, trace) && After(c, trace[..2]).state == After(c, trace).state == HalfOpen
  {
    var calls := [Trip(0)];
    OneMore(c, [], Trip(0));
    assert [] + calls == calls;
    OneMore(c, calls, Allow(c.timeout + 1, true));
    calls := calls + [Allow(c.timeout + 1, true)];
    OneMore(c, calls, Allow(c.timeout + 1, true));
    trace := calls + [Allow(c.timeout + 1, true)];
    assert trace[..2] == calls;
  }

  lemma OneMore(c: Config, trace: seq<Event>, e: Event)
    ensures After(c, trace + [e]) == Next(c, After(c, trace), e)
    ensures Answers(c, trace + [e]) <==>
      Answers(c, trace) && (e.Allow? ==> e.allowed == Admits(c, After(c, trace), e.now))
  {
    assert (trace + [e])[..|trace|] == trace;
  }

  /** An open or probing breaker closes only by a reset or by the last of
      `successThreshold` successes after the Allow that began the probing, with
      no failure or trip in between. */
  lemma ClosesOnlyAfterProbes(c: Config, trace: seq<Event>, e: Event)
    requires After(c, trace).state != Closed
    ensures After(c, trace + [e]).state == Closed <==>
      || e.Reset?
      || (&& e.Success? && After(c, trace).state == HalfOpen
          && Successes(trace[ProbingSince(c, trace) + 1..]) + 1 == Max(1, c.successThreshold))
    ensures After(c, trace + [e]).state == Closed && !e.Reset? ==>
      var a := ProbingSince(c, trace);
      trace[a].Allow? && trace[a].now - LastBlow(trace[..a]) > c.timeout && Calm(trace[a + 1..])
  {
    assert (trace + [e])[..|trace|] == trace;
    ClosedCountsFailures(c, trace);
    if After(c, trace).state == HalfOpen {
      Probing(c, trace);
    }
  }

  class CircuitBreaker {
    const failureThreshold: int
    const successThreshold: int
    const timeout: int
    var state: State
    var failureCount: nat
    var successCount: nat
    var lastFailure: int
    ghost var trace: seq<Event>

    ghost function Conf(): Config {
      Config(failureThreshold, successThreshold, timeout)
    }

    /** The fields are what the history makes of a new breaker. */
    ghost predicate Valid()
      reads this
    {
      && Status(state, failureCount, successCount, lastFailure) == After(Conf(), trace)
      && Answers(Conf(), trace)
    }

    constructor (failureThreshold: int, successThreshold: int, timeout: int)
      ensures Valid() && trace == [] && Conf() == Config(failureThreshold, successThreshold, timeout)
    {
      this.failureThreshold, this.successThreshold, this.timeout := failureThreshold, successThreshold, timeout;
      state, failureCount, successCount, lastFailure := Closed, 0, 0, 0;
      trace := [];
    }

    method Allow(now: int) returns (ok: bool)
      requires Valid()
      modifies this
      ensures Valid() && trace == old(trace) + [Event.Allow(now, ok)]
      ensures ok <==> !(old(state) == Open && now - LastBlow(old(trace)) <= timeout)
      ensures state == if old(state) == Open && ok then HalfOpen else old(state)
    {
      RemembersLastBlow(Conf(), trace);
      match state {
        case Closed => ok := true;
        case Open =>
          if now - lastFailure > timeout {
            state := HalfOpen;
            successCount := 0;
            ok := true;
          } else {
            ok := false;
          }
        case HalfOpen => ok := true;
      }
      trace := trace + [Event.Allow(now, ok)];
    }

    method RecordSuccess()
      requires Valid()
      modifies this
      ensures Valid() && trace == old(trace) + [Success]
    {
      match state {
        case HalfOpen =>
          successCount := successCount + 1;
          if successCount >= successThreshold {
            state := Closed;
            failureCount := 0;
            successCount := 0;
          }
        case Closed => failureCount := 0;
        case Open =>
      }
      trace := trace + [Success];
    }

    method RecordFailure(now: int)
      requires Valid()
      modifies this
      ensures Valid() && trace == old(trace) + [Failure(now)]
    {
      failureCount := failureCount + 1;
      lastFailure := now;
      match state {
        case Closed =>
          if failureCount >= failureThreshold {
            state := Open;
          }
        case HalfOpen => state := Open;
        case Open =>
      }
      trace := trace + [Failure(now)];
    }

    method Trip(now: int)
      requires Valid()
      modifies this
      ensures Valid() && trace == old(trace) + [Event.Trip(now)]
    {
      state := Open;
      lastFailure := now;
      trace := trace + [Event.Trip(now)];
    }

    method Reset()
      requires Valid()
      modifies this
      ensures Valid() && trace == old(trace) + [Event.Reset]
    {
      state := Closed;
      failureCount := 0;
      successCount := 0;
      trace := trace + [Event.Reset];
    }

    method GetState() returns (s: State)
      requires Valid()
      ensures s == After(Conf(), trace).state
    {
      s := state;
    }
  }
}
