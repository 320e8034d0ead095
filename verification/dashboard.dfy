/** What the first positions of the heap array say about the whole queue: the
    dashboard shows the first 200 of them. */
module Dashboard {
  import opened Tasks
  import opened PriorityQueue

  function Specs(q: seq<Task>): (s: seq<Spec>)
    ensures |s| == |q| && forall i :: 0 <= i < |q| ==> s[i] == q[i].spec
  {
    seq(|q|, i requires 0 <= i < |q| => q[i].spec)
  }

  predicate NotAfter(s: seq<Spec>, k: int, i: int) {
    0 <= k < |s| && 0 <= i < |s| ==> !Precedes(s[i], s[k])
  }

  ghost predicate HeapOrder(s: seq<Spec>) {
    forall i :: 0 < i < |s| ==> NotAfter(s, Parent(i), i)
  }

  lemma QueueHeapOrder(q: seq<Task>)
    ensures IsHeap(q) <==> HeapOrder(Specs(q))
  {
    forall i | 0 < i < |q|
      ensures Ordered(q, Parent(i), i) <==> NotAfter(Specs(q), Parent(i), i)
    {
    }
  }

  /** The proper ancestors of position i among the first `cap` positions. */
  function ShownAncestors(i: nat, cap: nat): (a: set<nat>)
    ensures forall j :: j in a ==> j < i && j < cap
    decreases i
  {
    if i == 0 then {} else
      ShownAncestors(Parent(i), cap) + if Parent(i) < cap then {Parent(i)} else {}
  }

  /** Rounded down; Log2(0) is 0. */
  function Log2(n: nat): (l: nat) {
    if n < 2 then 0 else 1 + Log2(n / 2)
  }

  lemma {:induction false} Log2Monotone(m: nat, n: nat)
    requires m <= n
    ensures Log2(m) <= Log2(n)
  {
    if m >= 2 {
      Log2Monotone(m / 2, n / 2);
    }
  }

  lemma {:induction false} DepthIsLog2(i: nat, cap: nat)
    requires i <= cap
    ensures |ShownAncestors(i, cap)| == Log2(i + 1)
  {
    if i > 0 {
      DepthIsLog2(Parent(i), cap);
      assert Parent(i) !in ShownAncestors(Parent(i), cap);
      assert Parent(i) + 1 == (i + 1) / 2;
    }
  }

  lemma {:induction false} ParentDepth(p: nat, cap: nat)
    requires cap <= 2 * p + 2
    ensures Log2(cap + 1) <= 1 + Log2(p + 1)
  {
    var half := (cap + 1) / 2;
    assert half <= p + 1;
    Log2Monotone(half, p + 1);
  }

  lemma {:induction false} ManyShownAncestors(i: nat, cap: nat)
    requires cap <= i
    ensures |ShownAncestors(i, cap)| >= Log2(cap + 1)
  {
    if i > 0 {
      var p := Parent(i);
      if cap <= p {
        ManyShownAncestors(p, cap);
      } else {
        hide Log2;
        DepthIsLog2(p, cap);
        ParentDepth(p, cap);
      }
    }
  }

  lemma {:induction false} AncestorsNotAfter(s: seq<Spec>, i: nat, cap: nat)
    requires HeapOrder(s) && i < |s|
    ensures forall j :: j in ShownAncestors(i, cap) ==> NotAfter(s, j, i)
  {
    if i > 0 {
      var p := Parent(i);
      AncestorsNotAfter(s, p, cap);
      assert NotAfter(s, p, i);
      forall j | j in ShownAncestors(i, cap)
        ensures NotAfter(s, j, i)
      {
        assert j == p || NotAfter(s, j, p);
        StrictWeakOrder(s[i], s[p], s[j]);
      }
    }
  }

  /** Every queued task that a cut at `cap` omits has floor(log2(cap + 1)) shown
      tasks that do not come after it; for the cut at 200 these are 7. */
  lemma PrefixGuarantee(s: seq<Spec>, cap: nat, i: nat)
    requires HeapOrder(s) && cap <= i < |s|
    ensures forall j :: j in ShownAncestors(i, cap) ==> j < cap && NotAfter(s, j, i)
    ensures |ShownAncestors(i, cap)| >= Log2(cap + 1)
    ensures cap == 200 ==> |ShownAncestors(i, cap)| >= 7
  {
    AncestorsNotAfter(s, i, cap);
    ManyShownAncestors(i, cap);
    SevenForTheDashboard();
    hide Log2;
  }

  lemma SevenForTheDashboard()
    ensures Log2(201) == 7
  {
    assert Log2(12) == 1 + Log2(6) == 2 + Log2(3) == 3;
    assert Log2(50) == 1 + Log2(25) == 2 + Log2(12);
    assert Log2(201) == 1 + Log2(100) == 2 + Log2(50);
  }

  /** The promise in the code's comment: what is shown is what comes first. */
  ghost predicate ShowsTop(s: seq<Spec>, cap: nat) {
    forall i, j :: 0 <= i < cap <= j < |s| ==> NotAfter(s, i, j)
  }

  ghost predicate AlwaysShowsTop(n: nat, cap: nat) {
    forall s: seq<Spec> :: |s| == n && HeapOrder(s) ==> ShowsTop(s, cap)
  }

  /** A queue of n tasks with the best omitted task behind a worse shown one. */
  function Misleading(n: nat, cap: nat): (s: seq<Spec>)
    ensures |s| == n
  {
    seq(n, i requires 0 <= i < n =>
      Spec(TaskId(seq(i, _ => 'x')),
           if i in ShownAncestors(cap, cap) then 2 else if i == cap then 1 else 0,
           0, 3, 300, Inline, EMPTY_TEXT, EMPTY_TEXT, EMPTY_TEXT, EMPTY_TEXT))
  }

  lemma MisleadingHeap(n: nat, cap: nat)
    requires 2 <= cap < n
    ensures HeapOrder(Misleading(n, cap)) && !ShowsTop(Misleading(n, cap), cap)
  {
    var s := Misleading(n, cap);
    forall i | 0 < i < n
      ensures NotAfter(s, Parent(i), i)
    {
      if i in ShownAncestors(cap, cap) {
        AncestorOfAncestor(cap, cap, i);
      }
    }
    var other := if 1 in ShownAncestors(cap, cap) then 2 else 1;
    NotBothChildren(cap);
    assert !NotAfter(s, other, cap);
  }

  /** Such a queue is what pushing tasks with these specifications in order builds. */
  lemma MisleadingIsBuilt(ts: seq<Task>, cap: nat)
    requires 2 <= cap < |ts| && Specs(ts) == Misleading(|ts|, cap)
    ensures PushedAll(ts) == ts && !ShowsTop(Specs(PushedAll(ts)), cap)
  {
    MisleadingHeap(|ts|, cap);
    QueueHeapOrder(ts);
    PushingInHeapOrder(ts);
  }

  lemma {:induction false} AncestorOfAncestor(i: nat, cap: nat, j: nat)
    requires j in ShownAncestors(i, cap) && j > 0
    ensures Parent(j) in ShownAncestors(i, cap)
    decreases i
  {
    if j != Parent(i) {
      AncestorOfAncestor(Parent(i), cap, j);
    }
  }

  lemma {:induction false} NotBothChildren(cap: nat)
    requires cap >= 2
    ensures !(1 in ShownAncestors(cap, cap) && 2 in ShownAncestors(cap, cap))
    ensures cap == 2 ==> 1 !in ShownAncestors(cap, cap)
  {
    OneBranch(cap, cap);
    assert Parent(2) == 0;
    assert ShownAncestors(0, 2) == {};
  }

  lemma {:induction false} OneBranch(i: nat, cap: nat)
    ensures !(1 in ShownAncestors(i, cap) && 2 in ShownAncestors(i, cap))
    ensures i <= 2 ==> 1 !in ShownAncestors(i, cap) && 2 !in ShownAncestors(i, cap)
  {
    if i > 0 {
      OneBranch(Parent(i), cap);
    }
  }

  /** The cut shows exactly what comes first, for every queue of n tasks, if and
      only if nothing is cut or at most the root is shown. */
  lemma TopListExactlyWhenNotCut(n: nat, cap: nat)
    ensures AlwaysShowsTop(n, cap) <==> n <= cap || cap <= 1
  {
    if 2 <= cap < n {
      MisleadingHeap(n, cap);
      assert |Misleading(n, cap)| == n;
    } else if cap == 1 {
      forall s: seq<Spec> | |s| == n && HeapOrder(s)
        ensures ShowsTop(s, cap)
      {
        forall j | 0 <= j < |s|
          ensures NotAfter(s, 0, j)
        {
          RootNotAfter(s, j);
        }
      }
    }
  }

  lemma {:induction false} RootNotAfter(s: seq<Spec>, i: nat)
    requires HeapOrder(s) && i < |s|
    ensures NotAfter(s, 0, i)
  {
    if i > 0 {
      RootNotAfter(s, Parent(i));
      assert NotAfter(s, Parent(i), i);
      StrictWeakOrder(s[i], s[Parent(i)], s[0]);
    }
  }
}
