/** Facts about sequences used to describe the iteration order of a hash set. */
module Seqs {

  /** The set of elements of `s`. */
  function Elements<T>(s: seq<T>): set<T> {
    set x | x in s
  }

  /** No element of `s` occurs twice. */
  predicate Distinct<T(==)>(s: seq<T>) {
    forall i, j :: 0 <= i < j < |s| ==> s[i] != s[j]
  }

  /** `order` lists every element of `s` exactly once: one possible iteration order of `s`. */
  predicate Enumerates<T(==)>(order: seq<T>, s: set<T>) {
    Distinct(order) && Elements(order) == s
  }

  /** An enumeration of a set has as many entries as the set has elements. */
  lemma {:induction false} EnumerationLength<T>(order: seq<T>, s: set<T>)
    requires Enumerates(order, s)
    ensures |order| == |s|
  {
    if order != [] {
      var last := order[|order| - 1];
      var front := order[..|order| - 1];
      assert order == front + [last];
      assert Distinct(front);
      assert last !in front;
      assert Elements(front) == s - {last} by {
        forall x | x in s - {last} ensures x in Elements(front) {
          assert x in order;
        }
      }
      EnumerationLength(front, s - {last});
    }
  }
}
