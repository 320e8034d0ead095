/** Small helpers shared by the other modules. */
module Basics {
  function One(b: bool): nat {
    if b then 1 else 0
  }

  function Max(a: int, b: int): int {
    if a > b then a else b
  }

  function Min(a: int, b: int): int {
    if a < b then a else b
  }

  ghost predicate Distinct<T>(s: seq<T>) {
    forall i, j :: 0 <= i < j < |s| ==> s[i] != s[j]
  }

  /** `order` lists the elements of `ts`, each once. */
  ghost predicate Enumerates<T>(order: seq<T>, ts: set<T>) {
    Distinct(order) && (forall t :: t in order ==> t in ts) && (forall t :: t in ts ==> t in order)
  }

  /** One more element, kept or not, in a selection from a list. */
  lemma SelectOneMore<T>(part: seq<T>, whole: seq<T>, part': seq<T>, kept: bool, x: T, wanted: bool)
    requires whole != []
    requires multiset(part)[x] == if wanted then multiset(whole[..|whole| - 1])[x] else 0
    requires part' == if kept then part + [whole[|whole| - 1]] else part
    requires x == whole[|whole| - 1] ==> kept == wanted
    ensures multiset(part')[x] == if wanted then multiset(whole)[x] else 0
  {
    var rest, last := whole[..|whole| - 1], whole[|whole| - 1];
    assert multiset(whole) == multiset(rest) + multiset{last} by {
      assert whole == rest + [last];
    }
    assert multiset(part + [last]) == multiset(part) + multiset{last};
  }

  /** `part` is what is left of `whole` when some of its elements are crossed out. */
  ghost predicate PickedFrom<T>(part: seq<T>, whole: seq<T>) {
    || part == []
    || (&& whole != []
        && (|| PickedFrom(part, whole[..|whole| - 1])
            || (&& part[|part| - 1] == whole[|whole| - 1]
                && PickedFrom(part[..|part| - 1], whole[..|whole| - 1]))))
  }

  /** `whole` falls into `a` and `b`, both in its order. */
  ghost predicate Parts<T>(whole: seq<T>, a: seq<T>, b: seq<T>) {
    PickedFrom(a, whole) && PickedFrom(b, whole) && multiset(a) + multiset(b) == multiset(whole)
  }

  /** The last element of `whole` joins one part or the other. */
  lemma PartsOneMore<T>(whole: seq<T>, a: seq<T>, b: seq<T>, a': seq<T>, b': seq<T>)
    requires whole != [] && Parts(whole[..|whole| - 1], a, b)
    requires var x := whole[|whole| - 1]; (a' == a + [x] && b' == b) || (a' == a && b' == b + [x])
    ensures Parts(whole, a', b')
  {
    var rest, x := whole[..|whole| - 1], whole[|whole| - 1];
    PickOneMore(a, rest, x);
    PickOneMore(b, rest, x);
    assert rest + [x] == whole;
    hide PickedFrom;
  }

  lemma PartsElements<T>(whole: seq<T>, a: seq<T>, b: seq<T>)
    requires Parts(whole, a, b)
    ensures forall x :: x in whole <==> x in a || x in b
  {
    assert forall x :: x in whole <==> x in multiset(whole);
    hide PickedFrom;
  }

  lemma PickOneMore<T>(part: seq<T>, whole: seq<T>, x: T)
    requires PickedFrom(part, whole)
    ensures PickedFrom(part, whole + [x]) && PickedFrom(part + [x], whole + [x])
  {
    assert (whole + [x])[..|whole|] == whole && (part + [x])[..|part|] == part;
  }
}
