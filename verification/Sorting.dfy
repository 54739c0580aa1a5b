/** Python's sorted() on lists, and its order on strings. */
module Sorting {

  predicate LexLe(a: string, b: string) {
    a == [] || (b != [] && (a[0] < b[0] || (a[0] == b[0] && LexLe(a[1..], b[1..]))))
  }

  lemma {:induction false} LexTotal(a: string, b: string)
    ensures LexLe(a, b) || LexLe(b, a)
  {
    if a != [] && b != [] { LexTotal(a[1..], b[1..]); }
  }

  lemma SameStart(a: string, b: string, i: nat)
    requires 0 < i <= |a| && i <= |b|
    ensures a[..i] == b[..i] ==> a[0] == b[0]
  {
    assert a[..i][0] == a[0] && b[..i][0] == b[0];
  }

  lemma SameLater(a: string, b: string, i: nat)
    requires i < |a| && i < |b| && a[0] == b[0]
    ensures a[1..][..i] == b[1..][..i] <==> a[..i + 1] == b[..i + 1]
  {
    assert a[..i + 1] == [a[0]] + a[1..][..i] && b[..i + 1] == [b[0]] + b[1..][..i];
    assert a[1..][..i] == a[..i + 1][1..] && b[1..][..i] == b[..i + 1][1..];
  }

  /** Strings by their first difference, a prefix before what it begins. */
  lemma {:induction false} LexLeIff(a: string, b: string)
    ensures LexLe(a, b) <==>
            a <= b || exists i: nat :: i < |a| && i < |b| && a[..i] == b[..i] && a[i] < b[i]
    decreases |a|
  {
    if a == [] {
    } else if b != [] && a[0] == b[0] {
      LexLeIff(a[1..], b[1..]);
      assert a <= b <==> a[1..] <= b[1..];
      forall i: nat | i < |a[1..]| && i < |b[1..]|
        ensures a[1..][i] == a[i + 1] && b[1..][i] == b[i + 1]
        ensures a[1..][..i] == b[1..][..i] <==> a[..i + 1] == b[..i + 1]
      {
        SameLater(a, b, i);
      }
      if i: nat :| i < |a| && i < |b| && a[..i] == b[..i] && a[i] < b[i] {
        assert a[i] == a[1..][i - 1] && b[i] == b[1..][i - 1];
      }
    } else if b != [] {
      forall i: nat | 0 < i < |a| && i < |b| ensures a[..i] != b[..i] { SameStart(a, b, i); }
      if a[0] < b[0] { assert a[..0] == b[..0]; }
    }
  }

  predicate Sorted<T>(le: (T, T) -> bool, xs: seq<T>) { forall i | 0 < i < |xs| :: le(xs[i - 1], xs[i]) }

  ghost predicate Total<T(!new)>(le: (T, T) -> bool) { forall a, b :: le(a, b) || le(b, a) }

  function Insert<T(==)>(le: (T, T) -> bool, xs: seq<T>, x: T): (ys: seq<T>)
    ensures multiset(ys) == multiset(xs) + multiset{x}
  {
    if xs == [] then [x]
    else if le(xs[0], x) then
      assert xs == [xs[0]] + xs[1..];
      [xs[0]] + Insert(le, xs[1..], x)
    else [x] + xs
  }

  /** A stable sort. */
  function Sort<T(==)>(le: (T, T) -> bool, xs: seq<T>): (ys: seq<T>)
    ensures multiset(ys) == multiset(xs)
  {
    if xs == [] then []
    else
      assert xs == xs[..|xs| - 1] + [xs[|xs| - 1]];
      Insert(le, Sort(le, xs[..|xs| - 1]), xs[|xs| - 1])
  }

  lemma {:induction false} InsertSorts<T(!new)>(le: (T, T) -> bool, xs: seq<T>, x: T)
    requires Total(le) && Sorted(le, xs)
    ensures Sorted(le, Insert(le, xs, x))
    ensures Insert(le, xs, x) != [] && (Insert(le, xs, x)[0] == x || (xs != [] && Insert(le, xs, x)[0] == xs[0]))
  {
    if xs != [] && le(xs[0], x) {
      assert Sorted(le, xs[1..]) by {
        forall i | 0 < i < |xs[1..]| ensures le(xs[1..][i - 1], xs[1..][i]) { assert le(xs[(i + 1) - 1], xs[i + 1]); }
      }
      InsertSorts(le, xs[1..], x);
      assert |xs| > 1 ==> le(xs[1 - 1], xs[1]);
    }
  }

  lemma {:induction false} SortSorts<T(!new)>(le: (T, T) -> bool, xs: seq<T>)
    requires Total(le)
    ensures Sorted(le, Sort(le, xs))
  {
    if xs == [] {
    } else {
      SortSorts(le, xs[..|xs| - 1]);
      InsertSorts(le, Sort(le, xs[..|xs| - 1]), xs[|xs| - 1]);
    }
  }
}
