/** The wake-up protocol: any number of dispatch loops share a one-slot signal
    channel. Queue operations run under the scheduler's lock, but the channel
    does not, so signalling is a step of its own. */
module WakeUp {
  /** Where a dispatch loop is. From taking the token on it is Woken, then
      Admitted or Refused by its breaker; Rearming is the tail of a Dequeue. */
  datatype Phase = Waiting | Woken | Refused | Admitted | Rearming | Sending | Gone

  /** Who is inside the scheduler's lock with the queue already changed. */
  datatype Holder = Nobody | Producer | Rearmer(loop: nat)

  datatype World = World(queued: nat, token: bool, holder: Holder, loops: seq<Phase>)

  const INITIAL := World(0, false, Nobody, [])

  /** The two signals of the protocol that a loop sends. */
  datatype Config = Config(rearm: bool, resignal: bool)

  datatype Step =
    | Push(count: nat)              // Enqueue, ProcessRetries, RequeueFromWorker, RetryFromDLQ: the heap pushes
    | Signal                        // ... and the signal that follows them
    | Connect
    | Disconnect(loop: nat)
    | Take(loop: nat)
    | Decide(loop: nat, allow: bool)
    | Resignal(loop: nat)
    | Pop(loop: nat)
    | Rearm(loop: nat)
    | Sent(loop: nat)
    | SendFailed(loop: nat)         // re-enqueues the task, then the loop ends

  predicate In(w: World, i: nat, p: Phase) {
    i < |w.loops| && w.loops[i] == p
  }

  predicate Enabled(w: World, s: Step) {
    match s
    case Push(n) => n > 0 && w.holder == Nobody
    case Signal => w.holder == Producer
    case Connect => true
    case Disconnect(i) => In(w, i, Waiting)
    case Take(i) => In(w, i, Waiting) && w.token
    case Decide(i, _) => In(w, i, Woken)
    case Resignal(i) => In(w, i, Refused)
    case Pop(i) => In(w, i, Admitted) && w.holder == Nobody
    case Rearm(i) => In(w, i, Rearming) && w.holder == Rearmer(i)
    case Sent(i) => In(w, i, Sending)
    case SendFailed(i) => In(w, i, Sending) && w.holder == Nobody
  }

  function Go(w: World, i: nat, p: Phase): World
    requires i < |w.loops|
  {
    w.(loops := w.loops[i := p])
  }

  function Next(c: Config, w: World, s: Step): World
    requires Enabled(w, s)
  {
    match s
    case Push(n) => w.(queued := w.queued + n, holder := Producer)
    case Signal => w.(token := true, holder := Nobody)
    case Connect => w.(loops := w.loops + [Waiting])
    case Disconnect(i) => Go(w, i, Gone)
    case Take(i) => Go(w, i, Woken).(token := false)
    case Decide(i, allow) => Go(w, i, if allow then Admitted else Refused)
    case Resignal(i) => Go(w, i, Waiting).(token := w.token || c.resignal)
    case Pop(i) =>
      if w.queued == 0 then Go(w, i, Waiting)
      else if w.queued == 1 then Go(w, i, Sending).(queued := 0)
      else Go(w, i, Rearming).(queued := w.queued - 1, holder := Rearmer(i))
    case Rearm(i) => Go(w, i, Sending).(token := w.token || c.rearm, holder := Nobody)
    case Sent(i) => Go(w, i, Waiting)
    case SendFailed(i) => Go(w, i, Gone).(queued := w.queued + 1, holder := Producer)
  }

  predicate Legal(c: Config, w: World, steps: seq<Step>)
    decreases steps
  {
    steps == [] || (Enabled(w, steps[0]) && Legal(c, Next(c, w, steps[0]), steps[1..]))
  }

  function After(c: Config, w: World, steps: seq<Step>): World
    requires Legal(c, w, steps)
    decreases steps
  {
    if steps == [] then w else After(c, Next(c, w, steps[0]), steps[1..])
  }

  /** The loop has taken a token and not finished its Dequeue or Notify. */
  predicate Busy(w: World, i: nat) {
    In(w, i, Woken) || In(w, i, Refused) || In(w, i, Admitted)
  }

  /** While tasks are queued, someone is on the way to them. */
  ghost predicate NoLostWakeUp(w: World) {
    w.queued > 0 ==> w.token || w.holder != Nobody || exists i :: Busy(w, i)
  }

  /** A loop re-arms exactly while it holds the lock. */
  ghost predicate HolderFits(w: World) {
    && (w.holder.Rearmer? ==> In(w, w.holder.loop, Rearming))
    && forall i :: 0 <= i < |w.loops| && w.loops[i] == Rearming ==> w.holder == Rearmer(i)
  }

  const FULL := Config(true, true)

  lemma StillBusy(w: World, w': World, j: nat)
    requires NoLostWakeUp(w) && |w'.loops| >= |w.loops|
    requires forall i :: 0 <= i < |w.loops| && i != j ==> w'.loops[i] == w.loops[i]
    requires Busy(w, j) ==> Busy(w', j)
    ensures (exists i :: Busy(w, i)) ==> exists i :: Busy(w', i)
  {
    if i :| Busy(w, i) {
      assert Busy(w', i);
    }
  }

  lemma HolderStep(w: World, s: Step)
    requires HolderFits(w) && Enabled(w, s)
    ensures HolderFits(Next(FULL, w, s))
  {
  }

  lemma SafeStep(w: World, s: Step)
    requires NoLostWakeUp(w) && HolderFits(w) && Enabled(w, s)
    ensures NoLostWakeUp(Next(FULL, w, s)) && HolderFits(Next(FULL, w, s))
  {
    HolderStep(w, s);
    hide HolderFits;
    var w' := Next(FULL, w, s);
    match s
    case Push(_) =>
    case Signal =>
    case Connect => StillBusy(w, w', |w.loops|);
    case Disconnect(i) => StillBusy(w, w', i);
    case Take(i) => assert Busy(w', i);
    case Decide(i, _) => assert Busy(w', i);
    case Resignal(i) =>
    case Pop(i) =>
    case Rearm(i) =>
    case Sent(i) => StillBusy(w, w', i);
    case SendFailed(i) =>
  }

  lemma {:induction false} SafeRun(w: World, steps: seq<Step>)
    requires NoLostWakeUp(w) && HolderFits(w) && Legal(FULL, w, steps)
    ensures NoLostWakeUp(After(FULL, w, steps)) && HolderFits(After(FULL, w, steps))
    decreases steps
  {
    if steps != [] {
      SafeStep(w, steps[0]);
      SafeRun(Next(FULL, w, steps[0]), steps[1..]);
    }
  }

  lemma NoSteps(c: Config, w: World)
    ensures Legal(c, w, []) && After(c, w, []) == w
  {
  }

  lemma OneMore(c: Config, w: World, s: Step, w': World, rest: seq<Step>) returns (steps: seq<Step>)
    requires Enabled(w, s) && Next(c, w, s) == w' && Legal(c, w', rest)
    ensures steps == [s] + rest && Legal(c, w, steps) && After(c, w, steps) == After(c, w', rest)
  {
    steps := [s] + rest;
    assert steps[1..] == rest;
  }

  /** One loop connects, n tasks arrive, and the loop takes the token. */
  lemma FromTheStart(c: Config, n: nat, rest: seq<Step>) returns (steps: seq<Step>)
    requires n > 0 && Legal(c, World(n, false, Nobody, [Woken]), rest)
    ensures Legal(c, INITIAL, steps) && After(c, INITIAL, steps) == After(c, World(n, false, Nobody, [Woken]), rest)
  {
    hide Legal, After;
    steps := OneMore(c, World(n, true, Nobody, [Waiting]), Take(0), World(n, false, Nobody, [Woken]), rest);
    steps := OneMore(c, World(n, false, Producer, [Waiting]), Signal, World(n, true, Nobody, [Waiting]), steps);
    steps := OneMore(c, World(0, false, Nobody, [Waiting]), Push(n), World(n, false, Producer, [Waiting]), steps);
    steps := OneMore(c, INITIAL, Connect, World(0, false, Nobody, [Waiting]), steps);
  }

  /** Two tasks, one token: without the re-arm the second task is forgotten. */
  lemma WithoutRearm(c: Config) returns (steps: seq<Step>)
    requires !c.rearm
    ensures Legal(c, INITIAL, steps) && !NoLostWakeUp(After(c, INITIAL, steps))
  {
    var end := World(1, false, Nobody, [Sending]);
    NoSteps(c, end);
    assert !NoLostWakeUp(end);
    hide Legal, After, NoLostWakeUp;
    steps := OneMore(c, World(1, false, Rearmer(0), [Rearming]), Rearm(0), end, []);
    steps := OneMore(c, World(2, false, Nobody, [Admitted]), Pop(0), World(1, false, Rearmer(0), [Rearming]), steps);
    steps := OneMore(c, World(2, false, Nobody, [Woken]), Decide(0, true), World(2, false, Nobody, [Admitted]), steps);
    steps := FromTheStart(c, 2, steps);
  }

  /** Without the re-signal a refusal swallows the token. */
  lemma WithoutResignal(c: Config) returns (steps: seq<Step>)
    requires !c.resignal
    ensures Legal(c, INITIAL, steps) && !NoLostWakeUp(After(c, INITIAL, steps))
  {
    var end := World(1, false, Nobody, [Waiting]);
    NoSteps(c, end);
    assert !NoLostWakeUp(end);
    hide Legal, After, NoLostWakeUp;
    steps := OneMore(c, World(1, false, Nobody, [Refused]), Resignal(0), end, []);
    steps := OneMore(c, World(1, false, Nobody, [Woken]), Decide(0, false), World(1, false, Nobody, [Refused]), steps);
    steps := FromTheStart(c, 1, steps);
  }

  /** In every interleaving no wake-up is lost - and both signals are needed. */
  lemma SafeExactlyWithBothSignals(c: Config)
    ensures (forall steps :: Legal(c, INITIAL, steps) ==> NoLostWakeUp(After(c, INITIAL, steps)))
      <==> c.rearm && c.resignal
  {
    if c.rearm && c.resignal {
      forall steps | Legal(c, INITIAL, steps)
        ensures NoLostWakeUp(After(c, INITIAL, steps))
      {
        SafeRun(INITIAL, steps);
      }
    } else if !c.rearm {
      var _ := WithoutRearm(c);
    } else {
      var _ := WithoutResignal(c);
    }
  }

  /** When every loop waits or is gone and nobody is about to signal, a queued
      task means that the token is there to be taken. */
  lemma IdleMeansEmptyOrToken(steps: seq<Step>)
    requires Legal(FULL, INITIAL, steps)
    requires var w := After(FULL, INITIAL, steps);
      w.holder == Nobody && forall i :: 0 <= i < |w.loops| ==> w.loops[i] in {Waiting, Sending, Gone}
    ensures After(FULL, INITIAL, steps).queued == 0 || After(FULL, INITIAL, steps).token
  {
    SafeRun(INITIAL, steps);
  }

  /** Steps that bring in no work and end no loop. */
  predicate Drains(s: Step) {
    !(s.Push? || s.Connect? || s.Disconnect? || s.SendFailed?)
  }

  ghost predicate Some(w: World, p: Phase) {
    exists i :: In(w, i, p)
  }

  /** How far the next Dequeue is. */
  ghost function Distance(w: World): nat {
    if w.holder != Nobody then 5
    else if Some(w, Admitted) then 0
    else if Some(w, Woken) then 1
    else if w.token && Some(w, Waiting) then 2
    else if w.token then 3
    else 4
  }

  ghost predicate Healthy(w: World, live: nat) {
    && NoLostWakeUp(w) && HolderFits(w)
    && live < |w.loops| && w.loops[live] != Gone
  }

  ghost predicate Nearer(w: World, w': World, live: nat) {
    Healthy(w', live) && (w'.queued < w.queued || (w'.queued == w.queued && Distance(w') < Distance(w)))
  }

  /** Moving loop i, which holds no lock, on to phase p brings the next Dequeue nearer. */
  lemma NearerPhase(w: World, live: nat, s: Step, i: nat, p: Phase)
    requires Healthy(w, live) && w.holder == Nobody && Enabled(w, s) && Drains(s) && !s.Pop?
    requires i < |w.loops| && Next(FULL, w, s).loops == w.loops[i := p]
    requires !Some(w, Admitted)
    requires match p
      case Admitted => true
      case Woken => !Some(w, Woken)
      case Waiting => !Some(w, Woken) && Next(FULL, w, s).token && !(w.token && Some(w, Waiting))
      case _ => false
    ensures Nearer(w, Next(FULL, w, s), live)
  {
    SafeStep(w, s);
    assert In(Next(FULL, w, s), i, p);
  }

  lemma NearerUnlocked(w: World, live: nat, s: Step)
    requires Healthy(w, live) && w.queued > 0 && Enabled(w, s)
    requires s.Signal? || s.Rearm? || s.Pop?
    ensures Nearer(w, Next(FULL, w, s), live)
  {
    SafeStep(w, s);
  }

  /** A step that dequeues a task or brings the next Dequeue nearer. */
  lemma NearerStep(w: World, live: nat) returns (s: Step)
    requires Healthy(w, live) && w.queued > 0
    ensures Enabled(w, s) && Drains(s) && Nearer(w, Next(FULL, w, s), live)
  {
    hide Nearer, Distance;
    if w.holder == Producer {
      s := Signal;
      NearerUnlocked(w, live, s);
    } else if w.holder.Rearmer? {
      s := Rearm(w.holder.loop);
      NearerUnlocked(w, live, s);
    } else if Some(w, Admitted) {
      var i :| In(w, i, Admitted);
      s := Pop(i);
      NearerUnlocked(w, live, s);
    } else if Some(w, Woken) {
      var i :| In(w, i, Woken);
      s := Decide(i, true);
      NearerPhase(w, live, s, i, Admitted);
    } else if w.token && Some(w, Waiting) {
      var i :| In(w, i, Waiting);
      s := Take(i);
      NearerPhase(w, live, s, i, Woken);
    } else if Some(w, Refused) {
      var i :| In(w, i, Refused);
      s := Resignal(i);
      NearerPhase(w, live, s, i, Waiting);
    } else {
      TokenAndSender(w, live);
      s := Sent(live);
      NearerPhase(w, live, s, live, Waiting);
    }
  }

  lemma TokenAndSender(w: World, live: nat)
    requires Healthy(w, live) && w.queued > 0 && w.holder == Nobody
    requires !Some(w, Admitted) && !Some(w, Woken) && !Some(w, Refused) && !(w.token && Some(w, Waiting))
    ensures w.token && In(w, live, Sending)
  {
    assert w.token;
    assert !In(w, live, Admitted) && !In(w, live, Woken) && !In(w, live, Refused) && !In(w, live, Waiting);
  }

  /** From every state with a loop left, the loops can empty the queue by
      themselves: no further signal from outside is needed. */
  lemma {:induction false} LoopsCanDrain(w: World, live: nat) returns (steps: seq<Step>)
    requires Healthy(w, live)
    ensures Legal(FULL, w, steps) && After(FULL, w, steps).queued == 0
    ensures forall s :: s in steps ==> Drains(s)
    decreases w.queued, Distance(w)
  {
    hide Healthy, Distance, Legal, After;
    if w.queued == 0 {
      steps := [];
      NoSteps(FULL, w);
    } else {
      var s := NearerStep(w, live);
      var rest := LoopsCanDrain(Next(FULL, w, s), live);
      steps := OneMore(FULL, w, s, Next(FULL, w, s), rest);
    }
  }

  /** ... in particular from every state a run can reach. */
  lemma ReachableCanDrain(before: seq<Step>, live: nat) returns (steps: seq<Step>)
    requires Legal(FULL, INITIAL, before)
    requires live < |After(FULL, INITIAL, before).loops| && After(FULL, INITIAL, before).loops[live] != Gone
    ensures Legal(FULL, After(FULL, INITIAL, before), steps)
    ensures After(FULL, After(FULL, INITIAL, before), steps).queued == 0
    ensures forall s :: s in steps ==> Drains(s)
  {
    SafeRun(INITIAL, before);
    steps := LoopsCanDrain(After(FULL, INITIAL, before), live);
  }
}
