/** Datatypes and facts shared by every component. */
module Basics {

  datatype Option<+T> = None | Some(value: T)

  datatype Result<+T, +E> = Success(value: T) | Failure(error: E)

  /** Which entries of a sequence repeat an earlier one. */
  predicate NoDuplicates<T(==)>(s: seq<T>) {
    forall i, j :: 0 <= i < j < |s| ==> s[i] != s[j]
  }

  /** `order` lists every member of `members` exactly once. */
  predicate Enumerates<T(==)>(order: seq<T>, members: set<T>) {
    NoDuplicates(order) && (set x | x in order) == members
  }

  lemma {:induction false} EnumerationSize<T>(order: seq<T>, members: set<T>)
    requires Enumerates(order, members)
    ensures |order| == |members| && forall x :: x in order <==> x in members
  {
    if order == [] {
      assert members == {};
    } else {
      var last, rest := order[|order| - 1], order[..|order| - 1];
      assert order == rest + [last];
      assert (set x | x in rest) == members - {last};
      EnumerationSize(rest, members - {last});
    }
    assert forall x :: x in order <==> x in (set y | y in order);
  }

  lemma Fewer<T>(a: set<T>, b: set<T>)
    requires a <= b
    ensures |a| <= |b|
  {
    assert b == a + (b - a);
  }
}
