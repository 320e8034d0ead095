/** The scheduler's priority queue: the ordering of the repository with the
    sift-up and sift-down of Go's container/heap over it. */
module PriorityQueue {
  import opened Tasks

  /** `Less`: higher priority first, then earlier creation. */
  predicate Precedes(a: Spec, b: Spec) {
    if a.priority != b.priority then a.priority > b.priority else a.createdAt < b.createdAt
  }

  /** `Less` is a strict weak order: irreflexive, transitive, and its
      "neither comes first" relation is transitive as well. */
  lemma StrictWeakOrder(a: Spec, b: Spec, c: Spec)
    ensures !Precedes(a, a)
    ensures Precedes(a, b) && Precedes(b, c) ==> Precedes(a, c)
    ensures !Precedes(a, b) && !Precedes(b, c) ==> !Precedes(a, c)
    ensures !Precedes(a, b) && !Precedes(b, a) && !Precedes(b, c) && !Precedes(c, b)
        ==> !Precedes(a, c) && !Precedes(c, a)
  {
  }

  function Parent(i: int): (p: int)
    ensures i > 0 ==> 0 <= p < i
  {
    (i - 1) / 2
  }

  /** The task at position i does not have to come before the one at position k. */
  predicate Ordered(q: seq<Task>, k: int, i: int) {
    0 <= k < |q| && 0 <= i < |q| ==> !Precedes(q[i].spec, q[k].spec)
  }

  ghost predicate IsHeap(q: seq<Task>) {
    forall i :: 0 < i < |q| ==> Ordered(q, Parent(i), i)
  }

  /** No task of q has to be dispatched before t. */
  ghost predicate IsFront(q: seq<Task>, t: Task) {
    forall u :: u in q ==> !Precedes(u.spec, t.spec)
  }

  lemma RootIsFront(q: seq<Task>, i: nat)
    requires IsHeap(q) && i < |q|
    ensures Ordered(q, 0, i)
  {
    if i > 0 {
      RootIsFront(q, Parent(i));
      assert Ordered(q, Parent(i), i);
      StrictWeakOrder(q[i].spec, q[Parent(i)].spec, q[0].spec);
    }
  }

  method Swap(q: seq<Task>, i: nat, j: nat) returns (r: seq<Task>)
    requires i < |q| && j < |q|
    ensures r == q[i := q[j]][j := q[i]]
    ensures multiset(r) == multiset(q)
  {
    r := q[i := q[j]][j := q[i]];
  }

  /** Where sifting the item at position j up leaves the items. */
  function SiftedUp(q: seq<Task>, j: nat): seq<Task>
    requires j < |q|
    decreases j
  {
    var i := Parent(j);
    if j == 0 || !Precedes(q[j].spec, q[i].spec) then q
    else SiftedUp(q[i := q[j]][j := q[i]], i)
  }

  /** The items are in heap order, except perhaps between position j and its parent. */
  ghost predicate HeapButAbove(q: seq<Task>, j: nat) {
    && (forall i :: 0 < i < |q| && i != j ==> Ordered(q, Parent(i), i))
    && (forall i :: 0 < i < |q| && Parent(i) == j && j > 0 ==> Ordered(q, Parent(j), i))
  }

  lemma UpStep(q: seq<Task>, r: seq<Task>, i: nat, j: nat)
    requires j < |q| && j > 0 && i == Parent(j) && r == q[i := q[j]][j := q[i]]
    requires HeapButAbove(q, j) && Precedes(q[j].spec, q[i].spec)
    ensures HeapButAbove(r, i)
  {
    forall k | 0 < k < |r| && k != i
      ensures Ordered(r, Parent(k), k)
    {
      assert k != j ==> Ordered(q, Parent(k), k);
      assert Parent(k) == j ==> Ordered(q, i, k);
      StrictWeakOrder(q[k].spec, q[i].spec, q[j].spec);
    }
    forall k | 0 < k < |r| && Parent(k) == i && i > 0
      ensures Ordered(r, Parent(i), k)
    {
      assert Ordered(q, Parent(i), i);
      assert k != j ==> Ordered(q, i, k);
      StrictWeakOrder(q[k].spec, q[i].spec, q[Parent(i)].spec);
    }
  }

  lemma UpDone(q: seq<Task>, j: nat)
    requires j < |q| && HeapButAbove(q, j) && (j == 0 || !Precedes(q[j].spec, q[Parent(j)].spec))
    ensures IsHeap(q) && SiftedUp(q, j) == q
  {
    assert j > 0 ==> Ordered(q, Parent(j), j);
  }

  method SiftUp(q: seq<Task>, start: nat) returns (r: seq<Task>)
    requires start < |q|
    requires forall i :: 0 < i < |q| && i != start ==> Ordered(q, Parent(i), i)
    requires forall i :: 0 < i < |q| ==> Parent(i) != start
    ensures IsHeap(r) && r == SiftedUp(q, start)
    ensures multiset(r) == multiset(q)
  {
    r := q;
    var j := start;
    assert HeapButAbove(r, j);
    hide HeapButAbove, IsHeap, Ordered;
    while j > 0
      invariant 0 <= j < |r| == |q| && SiftedUp(r, j) == SiftedUp(q, start)
      invariant multiset(r) == multiset(q) && HeapButAbove(r, j)
    {
      var i := Parent(j);
      if !Precedes(r[j].spec, r[i].spec) {
        UpDone(r, j);
        return;
      }
      ghost var before := r;
      r := Swap(r, i, j);
      UpStep(before, r, i, j);
      j := i;
    }
    UpDone(r, 0);
  }

  /** The first n items are in heap order, except perhaps below position i. */
  ghost predicate HeapButBelow(q: seq<Task>, n: nat, i: nat) {
    && (forall k :: 0 < k < n && Parent(k) != i ==> Ordered(q, Parent(k), k))
    && (forall k :: 0 < k < n && Parent(k) == i && i > 0 ==> Ordered(q, Parent(i), k))
  }

  /** No child of position i comes before position j. */
  ghost predicate BeforeChildren(q: seq<Task>, n: nat, i: nat, j: nat) {
    forall k :: 0 < k < n && Parent(k) == i ==> Ordered(q, j, k)
  }

  lemma DownStep(q: seq<Task>, r: seq<Task>, n: nat, i: nat, j: nat)
    requires n <= |q| && j < n && Parent(j) == i && i < j && r == q[i := q[j]][j := q[i]]
    requires HeapButBelow(q, n, i) && Precedes(q[j].spec, q[i].spec) && BeforeChildren(q, n, i, j)
    ensures HeapButBelow(r, n, j) && r[n..] == q[n..]
  {
    forall k | 0 < k < n && Parent(k) != j
      ensures Ordered(r, Parent(k), k)
    {
      if Parent(k) == i {
        assert Ordered(q, j, k);
      } else if k == i {
        assert Ordered(q, Parent(i), j);
      } else {
        assert Ordered(q, Parent(k), k);
      }
    }
    forall k | 0 < k < n && Parent(k) == j
      ensures Ordered(r, Parent(j), k)
    {
      assert Ordered(q, j, k);
    }
  }

  lemma FirstChild(q: seq<Task>, n: nat, i: nat, j: nat)
    requires n <= |q| && 2 * i + 1 < n
    requires j == if 2 * i + 2 < n && Precedes(q[2 * i + 2].spec, q[2 * i + 1].spec) then 2 * i + 2 else 2 * i + 1
    ensures Parent(j) == i && BeforeChildren(q, n, i, j)
  {
    StrictWeakOrder(q[2 * i + 1].spec, if 2 * i + 2 < n then q[2 * i + 2].spec else q[i].spec, q[i].spec);
  }

  lemma ParentFirst(q: seq<Task>, n: nat, i: nat, j: nat)
    requires n <= |q| && j < n && Parent(j) == i && i < j
    requires BeforeChildren(q, n, i, j) && !Precedes(q[j].spec, q[i].spec)
    ensures BeforeChildren(q, n, i, i)
  {
    forall k | 0 < k < n && Parent(k) == i
      ensures Ordered(q, i, k)
    {
      assert Ordered(q, j, k);
      StrictWeakOrder(q[k].spec, q[j].spec, q[i].spec);
    }
  }

  lemma NoChildren(q: seq<Task>, n: nat, i: nat)
    requires 2 * i + 1 >= n
    ensures BeforeChildren(q, n, i, i)
  {
  }

  lemma DownDone(q: seq<Task>, n: nat, i: nat)
    requires n <= |q| && HeapButBelow(q, n, i) && BeforeChildren(q, n, i, i)
    ensures IsHeap(q[..n])
  {
    forall k | 0 < k < n
      ensures Ordered(q[..n], Parent(k), k)
    {
      assert Ordered(q, Parent(k), k);
    }
  }

  /** Sifts the root of the first n items down; the others stay where they are. */
  method SiftDown(q: seq<Task>, n: nat) returns (r: seq<Task>)
    requires n <= |q|
    requires forall i :: 0 < i < n && Parent(i) != 0 ==> Ordered(q, Parent(i), i)
    ensures |r| == |q| && r[n..] == q[n..]
    ensures IsHeap(r[..n])
    ensures multiset(r) == multiset(q)
  {
    r := q;
    var i := 0;
    assert HeapButBelow(r, n, i);
    hide HeapButBelow, BeforeChildren, IsHeap, Ordered;
    while 2 * i + 1 < n
      invariant 0 <= i && |r| == |q| && r[n..] == q[n..]
      invariant multiset(r) == multiset(q)
      invariant HeapButBelow(r, n, i)
      decreases n - i
    {
      var j := 2 * i + 1;
      if j + 1 < n && Precedes(r[j + 1].spec, r[j].spec) {
        j := j + 1;
      }
      FirstChild(r, n, i, j);
      if !Precedes(r[j].spec, r[i].spec) {
        ParentFirst(r, n, i, j);
        DownDone(r, n, i);
        return;
      }
      ghost var before := r;
      r := Swap(r, i, j);
      DownStep(before, r, n, i, j);
      i := j;
    }
    NoChildren(r, n, i);
    DownDone(r, n, i);
  }

  /** heap.Push as a function. */
  function Pushed(q: seq<Task>, t: Task): seq<Task> {
    SiftedUp(q + [t], |q|)
  }

  /** The array after pushing the tasks ts one by one. */
  function PushedAll(ts: seq<Task>): seq<Task> {
    if ts == [] then [] else Pushed(PushedAll(ts[..|ts| - 1]), ts[|ts| - 1])
  }

  /** Tasks pushed in heap order stay where they are pushed. */
  lemma {:induction false} PushingInHeapOrder(ts: seq<Task>)
    requires IsHeap(ts)
    ensures PushedAll(ts) == ts
  {
    if ts != [] {
      var k := |ts| - 1;
      forall i | 0 < i < k
        ensures Ordered(ts[..k], Parent(i), i)
      {
        assert Ordered(ts, Parent(i), i);
      }
      PushingInHeapOrder(ts[..k]);
      assert ts[..k] + [ts[k]] == ts;
      assert k > 0 ==> Ordered(ts, Parent(k), k);
    }
  }

  /** heap.Push. */
  method Push(q: seq<Task>, t: Task) returns (r: seq<Task>)
    requires IsHeap(q)
    ensures IsHeap(r) && r == Pushed(q, t)
    ensures multiset(r) == multiset(q) + multiset{t}
  {
    r := q + [t];
    forall i | 0 < i < |q|
      ensures Ordered(r, Parent(i), i)
    {
      assert Ordered(q, Parent(i), i);
    }
    r := SiftUp(r, |q|);
  }

  /** heap.Pop: swaps root and last, sifts down the rest, removes the last. */
  method Pop(q: seq<Task>) returns (t: Task, r: seq<Task>)
    requires IsHeap(q) && q != []
    ensures IsHeap(r)
    ensures multiset(q) == multiset(r) + multiset{t}
    ensures IsFront(q, t)
    ensures forall u :: u in q ==>
      || u.spec.priority < t.spec.priority
      || (u.spec.priority == t.spec.priority && t.spec.createdAt <= u.spec.createdAt)
  {
    var n := |q| - 1;
    r := Swap(q, 0, n);
    forall i | 0 < i < n && Parent(i) != 0
      ensures Ordered(r, Parent(i), i)
    {
      assert Ordered(q, Parent(i), i);
    }
    r := SiftDown(r, n);
    t := r[n..][0];
    assert r == r[..n] + [t];
    r := r[..n];
    forall u | u in q
      ensures !Precedes(u.spec, t.spec)
    {
      var i :| 0 <= i < |q| && q[i] == u;
      RootIsFront(q, i);
    }
  }

  ghost predicate InDispatchOrder(ts: seq<Task>) {
    forall i, j :: 0 <= i < j < |ts| ==> !Precedes(ts[j].spec, ts[i].spec)
  }

  /** Taking tasks out until none is left serves them all, in dispatch order. */
  method Drain(q: seq<Task>) returns (served: seq<Task>)
    requires IsHeap(q)
    ensures multiset(served) == multiset(q)
    ensures InDispatchOrder(served)
    ensures forall i, j :: 0 <= i < j < |served| ==>
      var a, b := served[i].spec, served[j].spec;
      a.priority >= b.priority && (a.priority == b.priority ==> a.createdAt <= b.createdAt)
  {
    served := [];
    var rest := q;
    while rest != []
      invariant IsHeap(rest)
      invariant multiset(served) + multiset(rest) == multiset(q)
      invariant InDispatchOrder(served)
      invariant forall s, u :: s in served && u in rest ==> !Precedes(u.spec, s.spec)
      decreases |rest|
    {
      ghost var before := rest;
      var t;
      t, rest := Pop(rest);
      assert |before| == |multiset(before)| == |multiset(rest)| + 1;
      forall u | u in rest || u == t
        ensures u in before
      {
        assert u in multiset(before);
      }
      served := served + [t];
    }
  }
}
