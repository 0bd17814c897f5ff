/** Stable sorting by a string key. */
module Sorting {
  import opened Text

  function InsertBy<T>(e: T, sorted: seq<T>, key: T -> string): seq<T>
  {
    if sorted == [] || StringLeq(key(e), key(sorted[0])) then [e] + sorted
    else [sorted[0]] + InsertBy(e, sorted[1..], key)
  }

  /** A stable sort by a string of each item. */
  function SortBy<T>(items: seq<T>, key: T -> string): seq<T>
  {
    if items == [] then [] else InsertBy(items[0], SortBy(items[1..], key), key)
  }

  ghost predicate InOrder<T>(items: seq<T>, key: T -> string)
  {
    forall i, j :: 0 <= i < j < |items| ==> StringLeq(key(items[i]), key(items[j]))
  }

  lemma {:induction false} InsertSorted<T>(e: T, sorted: seq<T>, key: T -> string)
    requires InOrder(sorted, key)
    ensures InOrder(InsertBy(e, sorted, key), key)
    ensures multiset(InsertBy(e, sorted, key)) == multiset(sorted) + multiset{e}
  {
    if sorted == [] {
    } else if StringLeq(key(e), key(sorted[0])) {
      forall j | 0 <= j < |sorted| ensures StringLeq(key(e), key(sorted[j])) {
        if j > 0 {
          StringLeqTransitive(key(e), key(sorted[0]), key(sorted[j]));
        }
      }
      assert multiset([e] + sorted) == multiset(sorted) + multiset{e};
    } else {
      var rest := sorted[1..];
      StringLeqTotal(key(e), key(sorted[0]));
      InsertSorted(e, rest, key);
      var inserted := InsertBy(e, rest, key);
      assert sorted == [sorted[0]] + rest;
      forall j | 0 <= j < |inserted| ensures StringLeq(key(sorted[0]), key(inserted[j])) {
        assert inserted[j] in multiset(inserted);
        assert inserted[j] == e || inserted[j] in rest;
      }
    }
  }

  lemma {:induction false} Sorts<T>(items: seq<T>, key: T -> string)
    ensures InOrder(SortBy(items, key), key)
    ensures multiset(SortBy(items, key)) == multiset(items)
  {
    if items != [] {
      Sorts(items[1..], key);
      InsertSorted(items[0], SortBy(items[1..], key), key);
      assert items == [items[0]] + items[1..];
    }
  }

  ghost predicate DistinctBy<T>(items: seq<T>, key: T -> string)
  {
    forall i, j :: 0 <= i < j < |items| ==> key(items[i]) != key(items[j])
  }

  /** Sorting by one key keeps another one distinct. */
  lemma {:induction false} InsertDistinct<T>(e: T, sorted: seq<T>, key: T -> string, other: T -> string)
    requires InOrder(sorted, key) && DistinctBy(sorted, other)
    requires forall i :: 0 <= i < |sorted| ==> other(sorted[i]) != other(e)
    ensures DistinctBy(InsertBy(e, sorted, key), other)
  {
    if sorted != [] && !StringLeq(key(e), key(sorted[0])) {
      var rest := sorted[1..];
      InsertDistinct(e, rest, key, other);
      InsertSorted(e, rest, key);
      var inserted := InsertBy(e, rest, key);
      forall j | 0 <= j < |inserted| ensures other(inserted[j]) != other(sorted[0]) {
        assert inserted[j] in multiset(inserted);
        assert inserted[j] == e || inserted[j] in rest;
      }
    }
  }

  lemma {:induction false} SortDistinct<T>(items: seq<T>, key: T -> string, other: T -> string)
    requires DistinctBy(items, other)
    ensures DistinctBy(SortBy(items, key), other)
  {
    if items != [] {
      var rest := items[1..];
      var sorted := SortBy(rest, key);
      SortDistinct(rest, key, other);
      Sorts(rest, key);
      forall i | 0 <= i < |sorted| ensures other(sorted[i]) != other(items[0]) {
        assert sorted[i] in multiset(sorted);
        assert sorted[i] in rest;
      }
      InsertDistinct(items[0], sorted, key, other);
    }
  }

  /** Two lists in strict order with the same members are one list. */
  lemma {:induction false} SortedUnique<T>(a: seq<T>, b: seq<T>, key: T -> string)
    requires InOrder(a, key) && InOrder(b, key) && DistinctBy(a, key) && DistinctBy(b, key)
    requires forall x :: x in a <==> x in b
    ensures a == b
  {
    assert (a != [] ==> a[0] in a) && (b != [] ==> b[0] in b);
    if a != [] {
      var i :| 0 <= i < |b| && b[i] == a[0];
      var j :| 0 <= j < |a| && a[j] == b[0];
      StringLeqTotal(key(a[0]), key(b[0]));
      assert a[0] == b[0];
      assert forall x :: x in a[1..] <==> x in a && x != a[0];
      assert forall x :: x in b[1..] <==> x in b && x != b[0];
      SortedUnique(a[1..], b[1..], key);
    }
  }
}
