/** The registry of breakers: its Get as a method, and the interleavings of
    many callers of Get, each looking under the read lock first and again
    under the write lock. */
module BreakerRegistry {
  import opened CircuitBreakers
  import Tasks

  type WorkerId = Tasks.Text

  class Registry {
    var breakers: map<WorkerId, CircuitBreaker>
    const conf: Config
    ghost var made: set<CircuitBreaker>  // every breaker it has handed out

    /** Every breaker is what its history says, and workers share none. */
    ghost predicate Valid()
      reads this, made
    {
      && (forall id :: id in breakers ==> breakers[id] in made)
      && (forall cb :: cb in made ==> cb.Valid() && cb.Conf() == conf)
      && (forall a, b :: a in breakers && b in breakers && breakers[a] == breakers[b] ==> a == b)
    }

    /** The calls made so far to a worker's breaker. */
    ghost function History(worker: WorkerId): seq<Event>
      requires Valid()
      reads this, made
    {
      if worker in breakers then breakers[worker].trace else []
    }

    constructor (conf: Config)
      ensures Valid() && breakers == map[] && this.conf == conf
    {
      this.conf := conf;
      breakers, made := map[], {};
    }

    /** The part of Get under the read lock. */
    method Find(worker: WorkerId) returns (cb: CircuitBreaker?)
      ensures cb == if worker in breakers then breakers[worker] else null
    {
      cb := if worker in breakers then breakers[worker] else null;
    }

    /** The part of Get under the write lock; others may have come in between. */
    method FindOrInsert(worker: WorkerId) returns (cb: CircuitBreaker)
      requires Valid()
      modifies this
      ensures Valid() && worker in breakers && breakers[worker] == cb
      ensures worker in old(breakers) ==> breakers == old(breakers) && made == old(made)
      ensures worker !in old(breakers) ==>
        fresh(cb) && cb.trace == [] && breakers == old(breakers)[worker := cb] && made == old(made) + {cb}
    {
      if worker in breakers {
        return breakers[worker];
      }
      cb := new CircuitBreaker(conf.failureThreshold, conf.successThreshold, conf.timeout);
      breakers := breakers[worker := cb];
      made := made + {cb};
    }

    /** Always the breaker stored for the worker, a new one if there was none. */
    method Get(worker: WorkerId) returns (cb: CircuitBreaker)
      requires Valid()
      modifies this
      ensures Valid() && worker in breakers && breakers[worker] == cb
      ensures worker in old(breakers) ==> breakers == old(breakers) && made == old(made)
      ensures worker !in old(breakers) ==>
        fresh(cb) && cb.trace == [] && breakers == old(breakers)[worker := cb] && made == old(made) + {cb}
      ensures forall id :: History(id) == old(History(id))
    {
      var found := Find(worker);
      if found != null {
        return found;
      }
      cb := FindOrInsert(worker);
    }

    method Remove(worker: WorkerId)
      requires Valid()
      modifies this
      ensures Valid() && breakers == old(breakers) - {worker}
    {
      breakers := breakers - {worker};
    }

    // What the server does with a worker's breaker.

    method Allow(worker: WorkerId, now: int) returns (ok: bool)
      requires Valid()
      modifies this, made
      ensures Valid() && History(worker) == old(History(worker)) + [Event.Allow(now, ok)]
      ensures ok <==>
        !(CircuitBreakers.After(conf, old(History(worker))).state == Open
          && now - LastBlow(old(History(worker))) <= conf.timeout)
      ensures forall id :: id != worker ==> History(id) == old(History(id))
    {
      var cb := Get(worker);
      hide CircuitBreakers.After, Answers;
      ok := cb.Allow(now);
    }

    method RecordSuccess(worker: WorkerId)
      requires Valid()
      modifies this, made
      ensures Valid() && History(worker) == old(History(worker)) + [Success]
      ensures forall id :: id != worker ==> History(id) == old(History(id))
    {
      var cb := Get(worker);
      hide CircuitBreakers.After, Answers;
      cb.RecordSuccess();
    }

    method RecordFailure(worker: WorkerId, now: int)
      requires Valid()
      modifies this, made
      ensures Valid() && History(worker) == old(History(worker)) + [Failure(now)]
      ensures forall id :: id != worker ==> History(id) == old(History(id))
    {
      var cb := Get(worker);
      hide CircuitBreakers.After, Answers;
      cb.RecordFailure(now);
    }

    /** A reported outcome, told to the worker's breaker. */
    method Record(worker: WorkerId, succeeded: bool, now: int)
      requires Valid()
      modifies this, made
      ensures Valid()
      ensures History(worker) == old(History(worker)) + [if succeeded then Success else Failure(now)]
      ensures forall id :: id != worker ==> History(id) == old(History(id))
    {
      hide CircuitBreakers.After, Answers;
      if succeeded {
        RecordSuccess(worker);
      } else {
        RecordFailure(worker, now);
      }
    }
  }

  // Get as two locked steps. Breakers are numbered in the order they are made.

  datatype Caller = Looking(worker: WorkerId) | Missed(worker: WorkerId) | Served(worker: WorkerId, breaker: nat)

  datatype World = World(stored: map<WorkerId, nat>, made: seq<WorkerId>, callers: seq<Caller>)

  const INITIAL := World(map[], [], [])

  datatype Step =
    | Call(worker: WorkerId)
    | Look(caller: nat)      // the check under the read lock
    | Insert(caller: nat)    // the check and insertion under the write lock

  predicate Enabled(w: World, s: Step) {
    match s
    case Call(_) => true
    case Look(i) => i < |w.callers| && w.callers[i].Looking?
    case Insert(i) => i < |w.callers| && w.callers[i].Missed?
  }

  /** `recheck` says whether the write-locked part looks again. */
  function Next(recheck: bool, w: World, s: Step): World
    requires Enabled(w, s)
  {
    match s
    case Call(worker) => w.(callers := w.callers + [Looking(worker)])
    case Look(i) =>
      var worker := w.callers[i].worker;
      if worker in w.stored then w.(callers := w.callers[i := Served(worker, w.stored[worker])])
      else w.(callers := w.callers[i := Missed(worker)])
    case Insert(i) =>
      var worker := w.callers[i].worker;
      if recheck && worker in w.stored then w.(callers := w.callers[i := Served(worker, w.stored[worker])])
      else World(w.stored[worker := |w.made|], w.made + [worker], w.callers[i := Served(worker, |w.made|)])
  }

  predicate Legal(recheck: bool, w: World, steps: seq<Step>)
    decreases steps
  {
    steps == [] || (Enabled(w, steps[0]) && Legal(recheck, Next(recheck, w, steps[0]), steps[1..]))
  }

  function After(recheck: bool, w: World, steps: seq<Step>): World
    requires Legal(recheck, w, steps)
    decreases steps
  {
    if steps == [] then w else After(recheck, Next(recheck, w, steps[0]), steps[1..])
  }

  predicate SameIfSame(a: Caller, b: Caller) {
    a.Served? && b.Served? && a.worker == b.worker ==> a.breaker == b.breaker
  }

  /** All callers served for one worker hold the same breaker, and no worker
      had a breaker made for it twice. */
  ghost predicate Agreement(w: World) {
    && (forall i, j :: 0 <= i < |w.callers| && 0 <= j < |w.callers| ==> SameIfSame(w.callers[i], w.callers[j]))
    && (forall k, l :: 0 <= k < l < |w.made| ==> w.made[k] != w.made[l])
  }

  ghost predicate Consistent(w: World) {
    && (forall i :: 0 <= i < |w.callers| && w.callers[i].Served? ==>
          w.callers[i].worker in w.stored && w.stored[w.callers[i].worker] == w.callers[i].breaker)
    && (forall k :: 0 <= k < |w.made| ==> w.made[k] in w.stored && w.stored[w.made[k]] == k)
  }

  lemma ConsistentStep(w: World, s: Step)
    requires Consistent(w) && Enabled(w, s)
    ensures Consistent(Next(true, w, s))
  {
    var n := Next(true, w, s);
    assert forall k :: 0 <= k < |w.made| ==> n.made[k] == w.made[k];
  }

  lemma {:induction false} ConsistentRun(w: World, steps: seq<Step>)
    requires Consistent(w) && Legal(true, w, steps)
    ensures Consistent(After(true, w, steps))
    decreases steps
  {
    if steps != [] {
      ConsistentStep(w, steps[0]);
      ConsistentRun(Next(true, w, steps[0]), steps[1..]);
    }
  }

  lemma OneMore(recheck: bool, w: World, s: Step, w': World, rest: seq<Step>) returns (steps: seq<Step>)
    requires Enabled(w, s) && Next(recheck, w, s) == w' && Legal(recheck, w', rest)
    ensures Legal(recheck, w, steps) && After(recheck, w, steps) == After(recheck, w', rest)
  {
    steps := [s] + rest;
    assert steps[1..] == rest;
  }

  /** Two callers both miss; without the second look each makes its own breaker. */
  lemma WithoutRecheck(worker: WorkerId) returns (steps: seq<Step>)
    ensures Legal(false, INITIAL, steps) && !Agreement(After(false, INITIAL, steps))
  {
    var end := World(map[worker := 1], [worker, worker], [Served(worker, 0), Served(worker, 1)]);
    var one := World(map[worker := 0], [worker], [Served(worker, 0), Missed(worker)]);
    var both := World(map[], [], [Missed(worker), Missed(worker)]);
    var half := World(map[], [], [Missed(worker), Looking(worker)]);
    var none := World(map[], [], [Looking(worker), Looking(worker)]);
    var first := World(map[], [], [Looking(worker)]);
    assert end.made[0] == end.made[1] && After(false, end, []) == end;
    hide Legal, After;
    assert Legal(false, end, []) by { NoSteps(false, end); }
    steps := OneMore(false, one, Insert(1), end, []);
    steps := OneMore(false, both, Insert(0), one, steps);
    steps := OneMore(false, half, Look(1), both, steps);
    steps := OneMore(false, none, Look(0), half, steps);
    steps := OneMore(false, first, Call(worker), none, steps);
    steps := OneMore(false, INITIAL, Call(worker), first, steps);
  }

  lemma NoSteps(recheck: bool, w: World)
    ensures Legal(recheck, w, []) && After(recheck, w, []) == w
  {
  }

  /** In every interleaving of calls of Get without Remove the callers agree,
      and the second look is what makes them. */
  lemma AgreementExactlyWithRecheck(recheck: bool)
    ensures (forall steps :: Legal(recheck, INITIAL, steps) ==> Agreement(After(recheck, INITIAL, steps))) <==> recheck
  {
    if recheck {
      forall steps | Legal(recheck, INITIAL, steps)
        ensures Agreement(After(recheck, INITIAL, steps))
      {
        ConsistentRun(INITIAL, steps);
      }
    } else {
      var _ := WithoutRecheck(Tasks.EMPTY_TEXT);
    }
  }
}
