/** The order of names, and sorting by an order. */
module Ordering {
  import opened Common

  /** Code-point order. */
  predicate Before(a: string, b: string)
  {
    || a == []
    || (b != [] && (a[0] < b[0] || (a[0] == b[0] && Before(a[1..], b[1..]))))
  }

  lemma {:induction false} BeforeIsTotal(a: string, b: string)
    ensures Before(a, b) || Before(b, a)
    ensures Before(a, b) && Before(b, a) ==> a == b
  {
    if a != [] && b != [] && a[0] == b[0] {
      BeforeIsTotal(a[1..], b[1..]);
      assert a == [a[0]] + a[1..] && b == [b[0]] + b[1..];
    }
  }

  lemma {:induction false} BeforeIsTransitive(a: string, b: string, c: string)
    requires Before(a, b) && Before(b, c)
    ensures Before(a, c)
  {
    if a != [] && a[0] == b[0] == c[0] {
      BeforeIsTransitive(a[1..], b[1..], c[1..]);
    }
  }

  /** Insertion from the right. */
  function Inserted<T>(s: seq<T>, x: T, before: (T, T) -> bool): seq<T>
  {
    if s == [] || before(Last(s), x) then s + [x]
    else Inserted(Front(s), x, before) + [Last(s)]
  }

  function Sorted<T>(s: seq<T>, before: (T, T) -> bool): seq<T>
  {
    if s == [] then [] else Inserted(Sorted(Front(s), before), Last(s), before)
  }

  ghost predicate TotalOrder<T(!new)>(before: (T, T) -> bool)
  {
    && (forall a, b :: before(a, b) || before(b, a))
    && (forall a, b, c :: before(a, b) && before(b, c) ==> before(a, c))
  }

  ghost predicate InOrder<T(!new)>(s: seq<T>, before: (T, T) -> bool)
  {
    forall i, j :: 0 <= i < j < |s| ==> before(s[i], s[j])
  }

  lemma {:induction false} InsertedKeeps<T(!new)>(s: seq<T>, x: T, before: (T, T) -> bool)
    requires TotalOrder(before) && InOrder(s, before)
    ensures InOrder(Inserted(s, x, before), before)
    ensures multiset(Inserted(s, x, before)) == multiset(s) + multiset{x}
  {
    if s != [] {
      assert s == Front(s) + [Last(s)];
      if !before(Last(s), x) {
        InsertedKeeps(Front(s), x, before);
        var front := Inserted(Front(s), x, before);
        forall k | 0 <= k < |front|
          ensures before(front[k], Last(s))
        {
          assert front[k] in multiset(front);
        }
      } else {
        forall k | 0 <= k < |s|
          ensures before(s[k], x)
        {
        }
      }
    }
  }

  /** Sorting orders and loses nothing. */
  lemma {:induction false} SortedSorts<T(!new)>(s: seq<T>, before: (T, T) -> bool)
    requires TotalOrder(before)
    ensures InOrder(Sorted(s, before), before)
    ensures multiset(Sorted(s, before)) == multiset(s)
  {
    if s != [] {
      SortedSorts(Front(s), before);
      InsertedKeeps(Sorted(Front(s), before), Last(s), before);
      assert s == Front(s) + [Last(s)];
    }
  }

  lemma {:induction false} InsertedCounts<T>(s: seq<T>, x: T, before: (T, T) -> bool, p: T -> bool)
    ensures Count(Inserted(s, x, before), p) == Count(s, p) + (if p(x) then 1 else 0)
  {
    if s == [] || before(Last(s), x) {
      assert Front(s + [x]) == s;
    } else {
      InsertedCounts(Front(s), x, before, p);
      assert Front(Inserted(Front(s), x, before) + [Last(s)]) == Inserted(Front(s), x, before);
    }
  }

  lemma {:induction false} SortedCounts<T>(s: seq<T>, before: (T, T) -> bool, p: T -> bool)
    ensures Count(Sorted(s, before), p) == Count(s, p)
  {
    if s != [] {
      SortedCounts(Front(s), before, p);
      InsertedCounts(Sorted(Front(s), before), Last(s), before, p);
    }
  }
}
