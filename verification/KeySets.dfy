/** Sets of integer primary keys: extensionality, and lists that hold a set's elements once. */
module KeySets {

  /** True of every key. Mentioning it in a comprehension gives the solver the integer behind a set's
      boxed element. */
  predicate IsKey(k: int) { true }

  lemma SameKeys(a: set<int>, b: set<int>)
    requires forall k :: k in a <==> k in b
    ensures a == b
  {
    assert a == set k | k in a && IsKey(k);
    assert b == set k | k in b && IsKey(k);
  }

  lemma Inhabited(a: set<int>)
    requires a != {}
    ensures exists k :: k in a
  {
    assert a == set k | k in a && IsKey(k);
  }

  lemma SameMap<V>(a: map<int, V>, b: map<int, V>)
    requires a.Keys == b.Keys && forall k | k in a :: a[k] == b[k]
    ensures a == b
  {
    assert a == map k | k in a && IsKey(k) :: a[k];
    assert b == map k | k in b && IsKey(k) :: b[k];
  }

  ghost function Any(a: set<int>): int
    requires a != {}
    ensures Any(a) in a
  {
    Inhabited(a);
    var k :| k in a; k
  }

  predicate Ascending(xs: seq<int>) { forall i, j | 0 <= i < j < |xs| :: xs[i] < xs[j] }

  /** The list holds every element of the set once. */
  ghost predicate Lists(xs: seq<int>, s: set<int>) {
    (forall k :: k in xs <==> k in s) && |xs| == |s|
  }

  lemma ListsTogether(xs: seq<int>, s: set<int>, ys: seq<int>, t: set<int>)
    requires Lists(xs, s) && Lists(ys, t) && s !! t
    ensures Lists(xs + ys, s + t)
  {
  }

  lemma ConsAscending(x: int, xs: seq<int>)
    requires Ascending(xs) && forall y | y in xs :: x < y
    ensures Ascending([x] + xs)
  {
    var all := [x] + xs;
    forall i, j | 0 <= i < j < |all| ensures all[i] < all[j] {
      assert all[j] == xs[j - 1] && all[j] in xs;
      if i > 0 { assert all[i] == xs[i - 1]; }
    }
  }

  function Insert(xs: seq<int>, x: int): (ys: seq<int>)
    requires Ascending(xs) && x !in xs
    ensures Ascending(ys) && |ys| == |xs| + 1 && forall y :: y in ys <==> y == x || y in xs
    decreases |xs|
  {
    if xs == [] || x < xs[0] then
      assert forall y | y in xs :: x < y;
      ConsAscending(x, xs);
      [x] + xs
    else
      assert xs == [xs[0]] + xs[1..];
      var rest := Insert(xs[1..], x);
      assert forall y | y in rest :: xs[0] < y;
      ConsAscending(xs[0], rest);
      [xs[0]] + rest
  }

  /** Python's sorted() over a set of integers. */
  method SortedKeys(s: set<int>) returns (xs: seq<int>)
    ensures Ascending(xs) && Lists(xs, s)
  {
    xs := [];
    var todo := s;
    while todo != {}
      invariant todo <= s && Ascending(xs)
      invariant Lists(xs, s - todo)
    {
      Inhabited(todo);
      var x :| x in todo;
      xs := Insert(xs, x);
      assert s - (todo - {x}) == (s - todo) + {x};
      todo := todo - {x};
    }
    assert s - todo == s;
  }
}
