// Sets in order: what an order by clause over distinct keys returns.
module Sorting {
  ghost predicate StrictOrder<T(!new)>(less: (T, T) -> bool) {
    && (forall a, b :: less(a, b) ==> !less(b, a))
    && (forall a, b :: a == b || less(a, b) || less(b, a))
    && (forall a, b, c :: less(a, b) && less(b, c) ==> less(a, c))
  }

  predicate Ordered<T>(s: seq<T>, less: (T, T) -> bool) { forall i, j :: 0 <= i < j < |s| ==> less(s[i], s[j]) }

  lemma {:induction false} HasFirst<T(!new)>(s: set<T>, less: (T, T) -> bool)
    requires s != {} && StrictOrder(less)
    ensures exists m :: m in s && forall x :: x in s && x != m ==> less(m, x)
    decreases |s|
  {
    var y :| y in s;
    var rest := s - {y};
    assert forall x :: x in s <==> x == y || x in rest;
    if rest != {} {
      HasFirst(rest, less);
      var m :| m in rest && forall x :: x in rest && x != m ==> less(m, x);
      var first := if less(y, m) then y else m;
      assert first in s && forall x :: x in s && x != first ==> less(first, x);
    }
  }

  function InOrder<T(!new, ==)>(s: set<T>, less: (T, T) -> bool): (r: seq<T>)
    requires StrictOrder(less)
    ensures Ordered(r, less) && (forall x :: x in r <==> x in s) && |r| == |s|
    decreases |s|
  {
    if s == {} then []
    else
      HasFirst(s, less);
      var m :| m in s && forall x :: x in s && x != m ==> less(m, x);
      [m] + InOrder(s - {m}, less)
  }

  // A set has one listing in order.
  lemma {:induction false} OrderedUnique<T(!new)>(a: seq<T>, b: seq<T>, less: (T, T) -> bool)
    requires StrictOrder(less) && Ordered(a, less) && Ordered(b, less) && forall x :: x in a <==> x in b
    ensures a == b
    decreases |a|
  {
    if a == [] {
      HeadIn(b);
    } else {
      HeadIn(a);
      HeadIn(b);
      assert a[0] in b && b[0] in a;
      assert a[0] == b[0];
      forall x ensures x in a[1..] <==> x in b[1..] { InTail(a, x, less); InTail(b, x, less); }
      OrderedUnique(a[1..], b[1..], less);
    }
  }

  lemma HeadIn<T>(s: seq<T>)
    ensures s != [] ==> s[0] in s
  {
  }

  lemma InTail<T(!new)>(s: seq<T>, x: T, less: (T, T) -> bool)
    requires StrictOrder(less) && Ordered(s, less) && s != []
    ensures x in s[1..] <==> x in s && x != s[0]
  {
    assert s == [s[0]] + s[1..];
  }

  lemma {:induction false} OrderedSize<T(!new)>(s: seq<T>, less: (T, T) -> bool)
    requires StrictOrder(less) && Ordered(s, less)
    ensures |set x | x in s| == |s|
    decreases |s|
  {
    if s == [] {
      assert (set x | x in s) == {};
    } else {
      OrderedSize(s[1..], less);
      forall x ensures x in s[1..] <==> x in s && x != s[0] { InTail(s, x, less); }
      assert (set x | x in s) == {s[0]} + set x | x in s[1..];
    }
  }

  lemma SmallerSet<T>(small: set<T>, big: set<T>)
    requires small <= big
    ensures |small| <= |big|
  {
    assert small + (big - small) == big;
  }
}
