/** Small shared vocabulary: an optional value and a few sequence helpers. */
module Common {

  datatype Option<+T> = None | Some(value: T)

  /** All but the last element. */
  function Front<T>(s: seq<T>): seq<T>
    requires s != []
  {
    s[..|s| - 1]
  }

  function Last<T>(s: seq<T>): T
    requires s != []
  {
    s[|s| - 1]
  }

  /** Keeps, in order, the elements that satisfy `keep`. */
  function Filter<T>(s: seq<T>, keep: T -> bool): seq<T>
  {
    if s == [] then []
    else Filter(Front(s), keep) + (if keep(Last(s)) then [Last(s)] else [])
  }

  /** How many elements satisfy `p`. */
  function Count<T>(s: seq<T>, p: T -> bool): nat
  {
    if s == [] then 0
    else Count(Front(s), p) + (if p(Last(s)) then 1 else 0)
  }

  lemma {:induction false} FilterAppend<T>(a: seq<T>, b: seq<T>, keep: T -> bool)
    ensures Filter(a + b, keep) == Filter(a, keep) + Filter(b, keep)
  {
    if b == [] {
      assert a + b == a;
    } else {
      assert Front(a + b) == a + Front(b);
      FilterAppend(a, Front(b), keep);
    }
  }

  lemma {:induction false} CountAppend<T>(a: seq<T>, b: seq<T>, p: T -> bool)
    ensures Count(a + b, p) == Count(a, p) + Count(b, p)
  {
    if b == [] {
      assert a + b == a;
    } else {
      assert Front(a + b) == a + Front(b);
      CountAppend(a, Front(b), p);
    }
  }

  lemma {:induction false} FilterMember<T>(s: seq<T>, keep: T -> bool, x: T)
    ensures x in Filter(s, keep) <==> x in s && keep(x)
  {
    if s != [] {
      FilterMember(Front(s), keep, x);
      assert s == Front(s) + [Last(s)];
    }
  }

  /** Count spelt out on a short sequence. */
  lemma CountShort<T>(s: seq<T>, p: T -> bool)
    requires |s| <= 4
    ensures Count(s, p) == (if |s| > 0 && p(s[0]) then 1 else 0) + (if |s| > 1 && p(s[1]) then 1 else 0)
                         + (if |s| > 2 && p(s[2]) then 1 else 0) + (if |s| > 3 && p(s[3]) then 1 else 0)
  {
    if |s| > 1 {
      CountShort(Front(s), p);
    }
  }
}
