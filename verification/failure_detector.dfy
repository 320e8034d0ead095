/** The master's table of workers and its heartbeat failure detector. Each
    operation reads the clock once. */
module FailureDetector {
  import opened Basics
  import Tasks

  type WorkerId = Tasks.Text

  datatype WorkerState = Active | Suspect | Dead | Draining

  datatype Config = Config(heartbeatTimeout: int, deadTimeout: int)

  /** What the detector knows of a worker. */
  datatype Info = Info(state: WorkerState, lastHeartbeat: int, activeTasks: int)

  /** What happens to one registered worker; Register makes a new entry. */
  datatype Event = Register(now: int) | Beat(now: int, activeTasks: int) | Check(now: int) | End

  function Beaten(w: Info, now: int, activeTasks: int): Info {
    Info(if w.state == Suspect then Active else w.state, now, activeTasks)
  }

  function Checked(c: Config, w: Info, now: int): Info {
    var silent := now - w.lastHeartbeat;
    if w.state == Dead || w.state == Draining then w
    else if silent > c.deadTimeout && w.state == Suspect then w.(state := Dead)
    else if silent > c.heartbeatTimeout && w.state == Active then w.(state := Suspect)
    else w
  }

  function Next(c: Config, w: Info, e: Event): Info {
    match e
    case Register(now) => Info(Active, now, 0)
    case Beat(now, activeTasks) => Beaten(w, now, activeTasks)
    case Check(now) => Checked(c, w, now)
    case End => w.(state := Dead)
  }

  /** A worker's history starts with its registration. */
  predicate IsHistory(h: seq<Event>) {
    h != [] && h[0].Register?
  }

  function After(c: Config, h: seq<Event>): Info
    requires IsHistory(h)
  {
    if |h| == 1 then Info(Active, h[0].now, 0)
    else Next(c, After(c, h[..|h| - 1]), h[|h| - 1])
  }

  // What a history says by itself.

  /** When the worker last registered or sent a heartbeat. */
  function LastSign(h: seq<Event>): int
    requires IsHistory(h)
  {
    var e := h[|h| - 1];
    if e.Register? || e.Beat? then e.now else assert |h| > 1; LastSign(h[..|h| - 1])
  }

  /** Event k is a check that found the worker silent for longer than `limit`. */
  predicate FoundSilent(h: seq<Event>, k: nat, limit: int) {
    0 < k < |h| && h[k].Check? && IsHistory(h[..k]) && h[k].now - LastSign(h[..k]) > limit
  }

  /** Neither a sign of life nor an end of the stream since event k. */
  predicate QuietSince(h: seq<Event>, k: nat) {
    forall j :: k <= j < |h| ==> h[j].Check?
  }

  /** The load in the last heartbeat since the worker registered. */
  function LastLoad(h: seq<Event>): int
    requires IsHistory(h)
  {
    var e := h[|h| - 1];
    if e.Register? then 0 else if e.Beat? then e.activeTasks else assert |h| > 1; LastLoad(h[..|h| - 1])
  }

  /** Check k found the worker silent past the dead timeout after check j had
      found it silent past the heartbeat timeout, with only checks in between
      and no registration since. */
  ghost predicate Declared(c: Config, h: seq<Event>, j: nat, k: nat) {
    && j < k && FoundSilent(h, j, c.heartbeatTimeout) && FoundSilent(h, k, c.deadTimeout)
    && QuietSince(h[..k], j)
    && forall i :: k < i < |h| ==> !h[i].Register?
  }

  ghost predicate FoundSuspect(c: Config, h: seq<Event>, k: nat) {
    FoundSilent(h, k, c.heartbeatTimeout) && QuietSince(h, k)
  }

  lemma {:induction false} RemembersLastSign(c: Config, h: seq<Event>)
    requires IsHistory(h)
    ensures After(c, h).lastHeartbeat == LastSign(h) && After(c, h).activeTasks == LastLoad(h)
  {
    if |h| > 1 {
      RemembersLastSign(c, h[..|h| - 1]);
    }
  }

  lemma FoundEarlier(h: seq<Event>, e: Event, k: nat, limit: int)
    requires IsHistory(h) && FoundSilent(h, k, limit)
    ensures FoundSilent(h + [e], k, limit)
    ensures QuietSince(h, k) && e.Check? ==> QuietSince(h + [e], k)
  {
    assert (h + [e])[..k] == h[..k];
  }

  /** A suspected worker was found silent for longer than the heartbeat timeout
      and has given no sign since; returns that check. */
  lemma {:induction false} SuspectWasSilent(c: Config, h: seq<Event>) returns (k: nat)
    requires IsHistory(h) && After(c, h).state == Suspect
    ensures FoundSuspect(c, h, k)
  {
    var before, e := h[..|h| - 1], h[|h| - 1];
    assert h == before + [e];
    RemembersLastSign(c, before);
    if After(c, before).state == Suspect {
      k := SuspectWasSilent(c, before);
      FoundEarlier(before, e, k, c.heartbeatTimeout);
    } else {
      k := |h| - 1;
    }
  }

  /** The stream has not ended since the last registration. */
  function Connected(h: seq<Event>): bool
    requires IsHistory(h)
  {
    if h[|h| - 1].Register? then true
    else if h[|h| - 1].End? then false
    else assert |h| > 1; Connected(h[..|h| - 1])
  }

  /** A worker the checker declared dead was suspected by an earlier check and
      then, with no sign in between, found silent for longer than the dead
      timeout; it has not registered since. */
  lemma {:induction false} DeadWasSilent(c: Config, h: seq<Event>) returns (j: nat, k: nat)
    requires IsHistory(h) && After(c, h).state == Dead && Connected(h)
    ensures Declared(c, h, j, k)
  {
    var before, e := h[..|h| - 1], h[|h| - 1];
    assert h == before + [e];
    if After(c, before).state == Dead {
      j, k := DeadWasSilent(c, before);
      FoundEarlier(before, e, j, c.heartbeatTimeout);
      FoundEarlier(before, e, k, c.deadTimeout);
      assert h[..k] == before[..k];
    } else {
      RemembersLastSign(c, before);
      j := SuspectWasSilent(c, before);
      k := |h| - 1;
      FoundEarlier(before, e, j, c.heartbeatTimeout);
    }
  }

  /** The last sign is the same before both checks: the dead timeout runs from
      it, and so ends the sooner after the suspect mark the later that came. */
  lemma {:induction false} SameSign(h: seq<Event>, j: nat, k: nat)
    requires IsHistory(h) && 0 < j <= k <= |h| && QuietSince(h[..k], j)
    ensures LastSign(h[..k]) == LastSign(h[..j])
  {
    if j < k {
      assert h[..k][..k - 1] == h[..k - 1] && h[..k][k - 1].Check?;
      SameSign(h, j, k - 1);
    }
  }

  lemma DeathAfterMark(c: Config, h: seq<Event>) returns (j: nat, k: nat)
    requires IsHistory(h) && After(c, h).state == Dead && Connected(h)
    ensures j < k && FoundSilent(h, j, c.heartbeatTimeout) && FoundSilent(h, k, c.deadTimeout)
    ensures h[k].now - h[j].now > c.deadTimeout - (h[j].now - LastSign(h[..j]))
  {
    j, k := DeadWasSilent(c, h);
    SameSign(h, j, k);
  }

  /** Check j marks the worker suspect and check k, no earlier, declares it dead,
      less than the dead timeout after the mark. */
  ghost predicate DiesSoonAfterMark(c: Config, h: seq<Event>, j: nat, k: nat) {
    && IsHistory(h) && 0 < j < k < |h| && h[j].Check? && h[k].Check?
    && After(c, h[..j]).state == Active && After(c, h[..j + 1]).state == Suspect
    && After(c, h[..k]).state == Suspect && After(c, h[..k + 1]).state == Dead
    && h[j].now <= h[k].now < h[j].now + c.deadTimeout
  }

  /** With every positive dead timeout a worker can be declared dead sooner than
      that timeout after the mark, and only with those. */
  lemma DeadTimeoutIsNotFromTheMark(c: Config)
    ensures (exists h, j, k :: DiesSoonAfterMark(c, h, j, k)) <==> c.deadTimeout > 0
  {
    if c.deadTimeout > 0 {
      var late := Max(c.heartbeatTimeout, c.deadTimeout) + 1;
      var h := [Register(0), Check(late), Check(late)];
      assert h[..1] == [Register(0)] && h[..2][..1] == h[..1] && h[..3] == h && h[..3][..2] == h[..2];
      assert After(c, h[..1]) == Info(Active, 0, 0);
      assert After(c, h[..2]) == Info(Suspect, 0, 0);
      assert After(c, h[..3]) == Info(Dead, 0, 0);
      assert DiesSoonAfterMark(c, h, 1, 2);
    }
  }

  /** Dead is for good until the worker registers again. */
  lemma {:induction false} DeadUntilRegistered(c: Config, h: seq<Event>, more: seq<Event>)
    requires IsHistory(h) && After(c, h).state == Dead && forall e :: e in more ==> !e.Register?
    ensures After(c, h + more).state == Dead
  {
    if more == [] {
      assert h + more == h;
    } else {
      var k := |more| - 1;
      DeadUntilRegistered(c, h, more[..k]);
      assert (h + more)[..|h + more| - 1] == h + more[..k];
    }
  }

  lemma {:induction false} EndIsDeath(c: Config, h: seq<Event>)
    requires IsHistory(h) && !Connected(h)
    ensures After(c, h).state == Dead
  {
    if !h[|h| - 1].End? {
      EndIsDeath(c, h[..|h| - 1]);
    }
  }

  lemma {:induction false} NeverDraining(c: Config, h: seq<Event>)
    requires IsHistory(h)
    ensures After(c, h).state != Draining
  {
    if |h| > 1 {
      NeverDraining(c, h[..|h| - 1]);
    }
  }

  /** Found silent past the heartbeat timeout, a worker is no longer active, and
      is not until it gives a sign. */
  lemma {:induction false} SilentIsNotActive(c: Config, h: seq<Event>, k: nat)
    requires IsHistory(h) && FoundSuspect(c, h, k)
    ensures After(c, h).state == Suspect || After(c, h).state == Dead
  {
    var before := h[..|h| - 1];
    NeverDraining(c, before);
    if k < |h| - 1 {
      assert h[..k] == before[..k];
      SilentIsNotActive(c, before, k);
    } else {
      RemembersLastSign(c, before);
    }
  }

  lemma {:induction false} DeclaredIsDead(c: Config, h: seq<Event>, j: nat, k: nat)
    requires IsHistory(h) && Declared(c, h, j, k)
    ensures After(c, h).state == Dead
  {
    var before := h[..|h| - 1];
    if k < |h| - 1 {
      assert h[..k] == before[..k] && h[..j] == before[..j];
      DeclaredIsDead(c, before, j, k);
    } else {
      assert before[..k] == before && h[..j] == before[..j];
      SilentIsNotActive(c, before, j);
      RemembersLastSign(c, before);
    }
  }

  /** What the history alone says of the state: dead when the stream has ended
      or the checker has declared it, suspect when found silent with no sign
      since, and active otherwise. */
  lemma StateFromHistory(c: Config, h: seq<Event>)
    requires IsHistory(h)
    ensures After(c, h).state == Dead <==> !Connected(h) || exists j, k :: Declared(c, h, j, k)
    ensures After(c, h).state == Suspect <==> After(c, h).state != Dead && exists k :: FoundSuspect(c, h, k)
    ensures After(c, h).state == Active || After(c, h).state == Suspect || After(c, h).state == Dead
  {
    hide After, Connected, Declared, FoundSuspect, FoundSilent, QuietSince, IsHistory;
    NeverDraining(c, h);
    if !Connected(h) {
      EndIsDeath(c, h);
    } else if After(c, h).state == Dead {
      var j, k := DeadWasSilent(c, h);
    }
    forall j, k | Declared(c, h, j, k)
      ensures After(c, h).state == Dead
    {
      DeclaredIsDead(c, h, j, k);
    }
    forall k | FoundSuspect(c, h, k)
      ensures After(c, h).state == Suspect || After(c, h).state == Dead
    {
      SilentIsNotActive(c, h, k);
    }
    if After(c, h).state == Suspect {
      var k := SuspectWasSilent(c, h);
    }
  }

  function Checks(times: seq<int>): seq<Event> {
    seq(|times|, i requires 0 <= i < |times| => Check(times[i]))
  }

  /** Checks in order, at most `period` apart, beginning at most that long after `from`. */
  predicate Periodic(times: seq<int>, from: int, period: nat) {
    forall i :: 0 <= i < |times| ==>
      var previous := if i == 0 then from else times[i - 1];
      previous <= times[i] <= previous + period
  }

  /** The first of the periodic times after `limit` comes soon after it. */
  lemma {:induction false} FirstPast(times: seq<int>, from: int, period: nat, limit: int, start: nat) returns (k: nat)
    requires Periodic(times, from, period) && start < |times| && times[|times| - 1] > limit
    ensures start <= k < |times| && times[k] > limit
    ensures forall i :: start <= i < k ==> times[i] <= limit
    ensures times[k] <= period + Max(limit, if start == 0 then from else times[start - 1])
    decreases |times| - start
  {
    if times[start] > limit {
      k := start;
    } else {
      k := FirstPast(times, from, period, limit, start + 1);
    }
  }

  /** A silent worker stays as it is until the first check past the limit of its state. */
  lemma {:induction false} SilentUntil(c: Config, h: seq<Event>, times: seq<int>, from: nat, k: nat)
    requires IsHistory(h) && from <= k <= |times|
    requires var w := After(c, h + Checks(times[..from]));
      || (w.state == Active && forall i :: from <= i < k ==> times[i] <= w.lastHeartbeat + c.heartbeatTimeout)
      || (w.state == Suspect && forall i :: from <= i < k ==> times[i] <= w.lastHeartbeat + c.deadTimeout)
    ensures After(c, h + Checks(times[..k])) == After(c, h + Checks(times[..from]))
  {
    if k > from {
      SilentUntil(c, h, times, from, k - 1);
      NextCheck(c, h, times, k - 1);
    }
  }

  lemma NextCheck(c: Config, h: seq<Event>, times: seq<int>, k: nat)
    requires IsHistory(h) && k < |times|
    ensures After(c, h + Checks(times[..k + 1])) == Checked(c, After(c, h + Checks(times[..k])), times[k])
  {
    var longer := h + Checks(times[..k + 1]);
    assert longer[..|longer| - 1] == h + Checks(times[..k]);
  }

  /** The first half of the way: the worker becomes suspect. */
  lemma SilentWorkerSuspected(c: Config, h: seq<Event>, times: seq<int>, period: nat) returns (j: nat)
    requires IsHistory(h) && After(c, h).state == Active && Periodic(times, LastSign(h), period)
    requires times != [] && times[|times| - 1] > LastSign(h) + c.heartbeatTimeout
    ensures j < |times| && times[j] <= LastSign(h) + Max(0, c.heartbeatTimeout) + period
    ensures After(c, h + Checks(times[..j + 1])) == After(c, h).(state := Suspect)
    ensures After(c, h).lastHeartbeat == LastSign(h)
  {
    RemembersLastSign(c, h);
    assert h + Checks(times[..0]) == h;
    hide Checks, LastSign, Periodic, After, IsHistory;
    j := FirstPast(times, LastSign(h), period, LastSign(h) + c.heartbeatTimeout, 0);
    SilentUntil(c, h, times, 0, j);
    NextCheck(c, h, times, j);
  }

  /** With checks at most `period` apart, a worker silent from its last sign on
      is dead no later than max(HT + 2 * period, DT + period) after it. */
  lemma SilentWorkerDiesInTime(c: Config, h: seq<Event>, times: seq<int>, period: nat) returns (k: nat)
    requires IsHistory(h) && After(c, h).state == Active && Periodic(times, LastSign(h), period)
    requires times != [] && times[|times| - 1]
      > LastSign(h) + Max(Max(0, c.heartbeatTimeout) + 2 * period, c.deadTimeout + period)
    ensures k < |times|
    ensures times[k] <= LastSign(h) + Max(Max(0, c.heartbeatTimeout) + 2 * period, c.deadTimeout + period)
    ensures After(c, h + Checks(times[..k + 1])).state == Dead
  {
    hide Checks, LastSign, Periodic, After, IsHistory;
    var j := SilentWorkerSuspected(c, h, times, period);
    k := FirstPast(times, LastSign(h), period, LastSign(h) + c.deadTimeout, j + 1);
    SilentUntil(c, h, times, j + 1, k);
    NextCheck(c, h, times, k);
  }

  class WorkerInfo {
    const id: WorkerId
    var state: WorkerState
    var lastHeartbeat: int
    var activeTasks: int

    ghost function Value(): Info
      reads this
    {
      Info(state, lastHeartbeat, activeTasks)
    }

    constructor (id: WorkerId, now: int)
      ensures this.id == id && Value() == Info(Active, now, 0)
    {
      this.id := id;
      state, lastHeartbeat, activeTasks := Active, now, 0;
    }

    method Beat(now: int, activeTasks: int)
      modifies this
      ensures Value() == Beaten(old(Value()), now, activeTasks)
    {
      lastHeartbeat := now;
      this.activeTasks := activeTasks;
      if state == Suspect {
        state := Active;
      }
    }

    /** The end of the worker's stream. */
    method End()
      modifies this
      ensures Value() == old(Value()).(state := Dead)
    {
      state := Dead;
    }

    method Check(conf: Config, now: int)
      modifies this
      ensures Value() == Checked(conf, old(Value()), now)
    {
      if state == Dead || state == Draining {
        return;
      }
      var silent := now - lastHeartbeat;
      if silent > conf.deadTimeout && state == Suspect {
        state := Dead;
      } else if silent > conf.heartbeatTimeout && state == Active {
        state := Suspect;
      }
    }
  }

  lemma OneMoreEvent(c: Config, h: seq<Event>, e: Event)
    requires IsHistory(h)
    ensures IsHistory(h + [e]) && After(c, h + [e]) == Next(c, After(c, h), e)
  {
    assert (h + [e])[..|h|] == h;
  }

  lemma OneMoreBeat(c: Config, h: seq<Event>, now: int, activeTasks: int)
    requires IsHistory(h)
    ensures var h' := h + [Beat(now, activeTasks)];
      IsHistory(h') && After(c, h') == Beaten(After(c, h), now, activeTasks)
  {
    OneMoreEvent(c, h, Beat(now, activeTasks));
    hide After, IsHistory, Beaten;
  }

  class WorkerTable {
    const conf: Config
    var workers: map<WorkerId, WorkerInfo>
    ghost var history: map<WorkerId, seq<Event>>
    ghost var made: set<WorkerInfo>  // every entry it ever held

    /** Every entry is under its ID and is what its history says. */
    ghost predicate Valid()
      reads this, made
    {
      && workers.Keys == history.Keys
      && (forall id :: id in workers ==> workers[id] in made && workers[id].id == id && IsHistory(history[id]))
      && (forall id :: id in workers ==> workers[id].Value() == After(conf, history[id]))
    }

    constructor (conf: Config)
      ensures Valid() && workers == map[] && this.conf == conf
    {
      this.conf := conf;
      workers, history, made := map[], map[], {};
    }

    /** The registration at the start of AssignTask. */
    method Register(id: WorkerId, now: int)
      requires Valid()
      modifies this
      ensures Valid() && history == old(history)[id := [Event.Register(now)]]
    {
      var w := new WorkerInfo(id, now);
      workers := workers[id := w];
      made := made + {w};
      history := history[id := [Event.Register(now)]];
    }

    /** A heartbeat from an unknown worker changes nothing. */
    method SendHeartbeat(id: WorkerId, activeTasks: int, now: int)
      requires Valid()
      modifies this, made
      ensures Valid() && workers == old(workers)
      ensures history == if id in old(history) then old(history)[id := old(history)[id] + [Beat(now, activeTasks)]]
                         else old(history)
    {
      if id !in workers {
        return;
      }
      OneMoreBeat(conf, history[id], now, activeTasks);
      hide After, Next, IsHistory, Beaten;
      workers[id].Beat(now, activeTasks);
      history := history[id := history[id] + [Beat(now, activeTasks)]];
    }

    /** The worker part of the cleanup when a stream ends. */
    method EndStream(id: WorkerId)
      requires Valid()
      modifies this, made
      ensures Valid() && workers == old(workers) && (id in workers ==> workers[id].state == Dead)
      ensures history == if id in old(history) then old(history)[id := old(history)[id] + [End]] else old(history)
    {
      if id in workers {
        OneMoreEvent(conf, history[id], End);
        hide After, IsHistory;
        workers[id].End();
        history := history[id := history[id] + [End]];
      }
    }

    /** The loop of `checkWorkerHealth`. */
    method CheckEach(now: int)
      requires forall id :: id in workers ==> workers[id] in made && workers[id].id == id
      modifies made
      ensures forall id :: id in workers ==> workers[id].Value() == Checked(conf, old(workers[id].Value()), now)
    {
      hide Checked;
      var left := workers.Keys;
      while left != {}
        invariant left <= workers.Keys
        invariant forall id :: id in left ==> workers[id].Value() == old(workers[id].Value())
        invariant forall id :: id in workers.Keys - left ==>
          workers[id].Value() == Checked(conf, old(workers[id].Value()), now)
        decreases left
      {
        var id :| id in left;
        left := left - {id};
        workers[id].Check(conf, now);
      }
    }

    method CheckWorkerHealth(now: int)
      requires Valid()
      modifies this, made
      ensures Valid() && workers == old(workers)
      ensures history == map id | id in old(history) :: old(history)[id] + [Check(now)]
    {
      hide After, IsHistory, Checked;
      CheckEach(now);
      forall id | id in history
        ensures IsHistory(history[id] + [Check(now)])
        ensures After(conf, history[id] + [Check(now)]) == Checked(conf, After(conf, history[id]), now)
      {
        OneMoreEvent(conf, history[id], Check(now));
      }
      history := map id | id in history :: history[id] + [Check(now)];
    }
  }
}
