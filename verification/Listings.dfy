/** Finite sets listed in a strict total order: what an ORDER BY over unique rows returns. */
module Listings {

  ghost predicate Total<T(!new)>(s: set<T>, lt: (T, T) -> bool) {
    && (forall a | a in s :: !lt(a, a))
    && (forall a, b | a in s && b in s && a != b :: lt(a, b) || lt(b, a))
    && (forall a, b, c | a in s && b in s && c in s && lt(a, b) && lt(b, c) :: lt(a, c))
  }

  function Elements<T>(l: seq<T>): set<T> { set x | x in l }

  ghost predicate Lists<T(!new)>(l: seq<T>, s: set<T>, lt: (T, T) -> bool) {
    Elements(l) == s && forall i, j | 0 <= i < j < |l| :: lt(l[i], l[j])
  }

  lemma {:induction false} HasLeast<T(!new)>(s: set<T>, lt: (T, T) -> bool) returns (m: T)
    requires Total(s, lt) && s != {}
    ensures m in s && forall x | x in s && x != m :: lt(m, x)
    decreases |s|
  {
    m :| m in s;
    if x :| x in s && x != m && !lt(m, x) {
      var n := HasLeast(s - {m}, lt);
      assert lt(x, m);
      assert n == x || lt(n, x);
      m := n;
    }
  }

  lemma {:induction false} ListingExists<T(!new)>(s: set<T>, lt: (T, T) -> bool) returns (l: seq<T>)
    requires Total(s, lt)
    ensures Lists(l, s, lt)
    decreases |s|
  {
    if s == {} {
      l := [];
    } else {
      var m := HasLeast(s, lt);
      var rest := ListingExists(s - {m}, lt);
      l := [m] + rest;
      assert forall i | 0 <= i < |rest| :: rest[i] in Elements(rest);
      assert Elements(l) == Elements(rest) + {m};
    }
  }

  /** The one listing of `s` in the order `lt`. */
  ghost function Listing<T(!new)>(s: set<T>, lt: (T, T) -> bool): (l: seq<T>)
    requires Total(s, lt)
    ensures Lists(l, s, lt)
  {
    assert exists l :: Lists(l, s, lt) by {
      var l := ListingExists(s, lt);
    }
    var l :| Lists(l, s, lt);
    l
  }

  lemma ListsTail<T(!new)>(l: seq<T>, s: set<T>, lt: (T, T) -> bool)
    requires Total(s, lt) && Lists(l, s, lt) && l != []
    ensures Lists(l[1..], s - {l[0]}, lt)
  {
    assert forall x | x in s && x != l[0] :: x in l[1..] by {
      forall x | x in s && x != l[0]
        ensures x in l[1..]
      {
        assert x in Elements(l);
        var i :| 0 <= i < |l| && l[i] == x;
        assert l[1..][i - 1] == x;
      }
    }
    assert forall i | 1 <= i < |l| :: lt(l[0], l[i]) && l[i] in Elements(l);
  }

  lemma {:induction false} ListsLength<T(!new)>(l: seq<T>, s: set<T>, lt: (T, T) -> bool)
    requires Total(s, lt) && Lists(l, s, lt)
    ensures |l| == |s|
    decreases |l|
  {
    if l == [] {
      assert s == Elements(l) == {};
    } else {
      assert l[0] in Elements(l);
      ListsTail(l, s, lt);
      ListsLength(l[1..], s - {l[0]}, lt);
    }
  }

  lemma {:induction false} ListingIsUnique<T(!new)>(l: seq<T>, m: seq<T>, s: set<T>, lt: (T, T) -> bool)
    requires Total(s, lt) && Lists(l, s, lt) && Lists(m, s, lt)
    ensures l == m
    decreases |l|
  {
    ListsLength(l, s, lt);
    ListsLength(m, s, lt);
    if l != [] {
      assert l[0] in Elements(l) && l[0] in Elements(m);
      assert m[0] in Elements(m) && m[0] in Elements(l);
      assert l[0] == m[0];
      ListsTail(l, s, lt);
      ListsTail(m, s, lt);
      ListingIsUnique(l[1..], m[1..], s - {l[0]}, lt);
      assert l == [l[0]] + l[1..] && m == [m[0]] + m[1..];
    }
  }

  /** The position of an element is the number of elements before it; `upto` are those and itself. */
  lemma RankIsPosition<T(!new)>(l: seq<T>, s: set<T>, lt: (T, T) -> bool, i: nat, upto: set<T>)
    requires Total(s, lt) && Lists(l, s, lt) && i < |l|
    requires forall x :: x in upto <==> x in s && (x == l[i] || lt(x, l[i]))
    ensures |upto| == i + 1
  {
    assert forall k | 0 <= k < |l| :: l[k] in Elements(l);
    assert forall k | i < k < |l| :: lt(l[i], l[k]);
    assert forall x | x in upto :: x in l[..i + 1] by {
      forall x | x in upto
        ensures x in l[..i + 1]
      {
        assert x in Elements(l);
        var k :| 0 <= k < |l| && l[k] == x;
        assert l[..i + 1][k] == x;
      }
    }
    assert Elements(l[..i + 1]) == upto;
    assert Lists(l[..i + 1], upto, lt);
    ListsLength(l[..i + 1], upto, lt);
  }
}
