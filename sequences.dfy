/** Query building blocks over tables kept as sequences: filtering, ordering by a key, lookup, fresh keys. */
module Sequences {
  import opened Wrappers
  import opened Text

  /** The elements of s satisfying p, in their original order (a queryset `filter`). */
  function Filter<T(!new)>(s: seq<T>, p: T -> bool): (r: seq<T>)
    ensures |r| <= |s|
    ensures forall x :: x in r <==> x in s && p(x)
    ensures multiset(r) <= multiset(s)
  {
    if s == [] then []
    else
      assert s == [s[0]] + s[1..];
      (if p(s[0]) then [s[0]] else []) + Filter(s[1..], p)
  }

  /** How often an element occurs in a filtered sequence: as often as in the input if it passes, else never. */
  lemma {:induction false} FilterMultiplicity<T(!new)>(s: seq<T>, p: T -> bool, x: T)
    ensures multiset(Filter(s, p))[x] == if p(x) then multiset(s)[x] else 0
  {
    if s != [] {
      FilterMultiplicity(s[1..], p, x);
      assert s == [s[0]] + s[1..];
    }
  }

  /** The multiplicity of every value in a filtered sequence at once. */
  lemma FilterCounts<T(!new)>(s: seq<T>, p: T -> bool)
    ensures forall x :: multiset(Filter(s, p))[x] == if p(x) then multiset(s)[x] else 0
  {
    forall x ensures multiset(Filter(s, p))[x] == if p(x) then multiset(s)[x] else 0 {
      FilterMultiplicity(s, p, x);
    }
  }

  /** Filtering depends only on the multiset of the input, and two filters in a row are one filter by the conjunction. */
  lemma FilterTwice<T(!new)>(s: seq<T>, t: seq<T>, p: T -> bool, q: T -> bool)
    requires multiset(s) == multiset(t)
    ensures multiset(Filter(Filter(s, p), q)) == multiset(Filter(t, x => p(x) && q(x)))
  {
    forall x ensures multiset(Filter(Filter(s, p), q))[x] == multiset(Filter(t, x => p(x) && q(x)))[x] {
      FilterMultiplicity(Filter(s, p), q, x);
      FilterMultiplicity(s, p, x);
      FilterMultiplicity(t, x => p(x) && q(x), x);
    }
  }

  /** Ascending order by key. */
  ghost predicate SortedBy<T>(s: seq<T>, key: T -> int) {
    forall i, j :: 0 <= i < j < |s| ==> key(s[i]) <= key(s[j])
  }

  /** Filtering a sorted sequence keeps it sorted, so chained filters may follow an `order_by`. */
  lemma {:induction false} FilterKeepsOrder<T(!new)>(s: seq<T>, p: T -> bool, key: T -> int)
    ensures SortedBy(s, key) ==> SortedBy(Filter(s, p), key)
  {
    if s != [] && SortedBy(s, key) {
      var tail := Filter(s[1..], p);
      assert SortedBy(s[1..], key);
      FilterKeepsOrder(s[1..], p, key);
      if p(s[0]) {
        forall y | y in tail ensures key(s[0]) <= key(y) {
          var j :| 0 <= j < |s[1..]| && s[1..][j] == y;
          assert s[j + 1] == y;
        }
      }
    }
  }

  /** Inserts x before the first element whose key is not smaller, so that equal keys keep arrival order. */
  function Insert<T>(x: T, s: seq<T>, key: T -> int): (r: seq<T>)
    requires SortedBy(s, key)
    ensures SortedBy(r, key)
    ensures multiset(r) == multiset(s) + multiset{x}
  {
    if s == [] then [x]
    else if key(x) <= key(s[0]) then [x] + s
    else
      assert SortedBy(s[1..], key);
      var rest := Insert(x, s[1..], key);
      InsertBound(x, s, key, rest);
      assert s == [s[0]] + s[1..];
      [s[0]] + rest
  }

  /** Every element of the insertion into the tail has a key at least that of the head. */
  lemma InsertBound<T>(x: T, s: seq<T>, key: T -> int, rest: seq<T>)
    requires s != [] && SortedBy(s, key) && key(s[0]) < key(x)
    requires multiset(rest) == multiset(s[1..]) + multiset{x}
    ensures forall k :: 0 <= k < |rest| ==> key(s[0]) <= key(rest[k])
  {
    forall k | 0 <= k < |rest| ensures key(s[0]) <= key(rest[k]) {
      var y := rest[k];
      assert y in multiset(rest);
      if y != x {
        assert y in multiset(s[1..]);
        var j :| 0 <= j < |s[1..]| && s[1..][j] == y;
        assert s[j + 1] == y;
      }
    }
  }

  /** A stable sort by key (a queryset `order_by`): sorted, and a permutation of the input. */
  function SortBy<T>(s: seq<T>, key: T -> int): (r: seq<T>)
    ensures SortedBy(r, key)
    ensures multiset(r) == multiset(s)
  {
    if s == [] then []
    else
      assert s == [s[0]] + s[1..];
      Insert(s[0], SortBy(s[1..], key), key)
  }

  /** Ascending code-point order by a text key. */
  ghost predicate SortedByText<T>(s: seq<T>, key: T -> string) {
    forall i, j :: 0 <= i < j < |s| ==> TextLe(key(s[i]), key(s[j]))
  }

  /** Inserts x before the first element whose key is not smaller. */
  function InsertByText<T>(x: T, s: seq<T>, key: T -> string): (r: seq<T>)
    requires SortedByText(s, key)
    ensures SortedByText(r, key)
    ensures multiset(r) == multiset(s) + multiset{x}
  {
    if s == [] then [x]
    else if TextLe(key(x), key(s[0])) then
      InsertInFront(x, s, key);
      [x] + s
    else
      TextLeTotal(key(x), key(s[0]));
      assert SortedByText(s[1..], key);
      var rest := InsertByText(x, s[1..], key);
      InsertByTextBound(x, s, key, rest);
      assert s == [s[0]] + s[1..];
      [s[0]] + rest
  }

  /** An element no greater than the head of a sorted sequence may go in front of it. */
  lemma InsertInFront<T>(x: T, s: seq<T>, key: T -> string)
    requires s != [] && SortedByText(s, key) && TextLe(key(x), key(s[0]))
    ensures SortedByText([x] + s, key)
  {
    forall j | 0 <= j < |s| ensures TextLe(key(x), key(s[j])) {
      if j > 0 {
        TextLeTrans(key(x), key(s[0]), key(s[j]));
      }
    }
    assert forall j :: 1 <= j <= |s| ==> ([x] + s)[j] == s[j - 1];
  }

  /** Every element of the insertion into the tail has a key at least that of the head. */
  lemma InsertByTextBound<T>(x: T, s: seq<T>, key: T -> string, rest: seq<T>)
    requires s != [] && SortedByText(s, key) && TextLe(key(s[0]), key(x))
    requires multiset(rest) == multiset(s[1..]) + multiset{x}
    ensures forall k :: 0 <= k < |rest| ==> TextLe(key(s[0]), key(rest[k]))
  {
    forall k | 0 <= k < |rest| ensures TextLe(key(s[0]), key(rest[k])) {
      var y := rest[k];
      assert y in multiset(rest);
      if y != x {
        assert y in multiset(s[1..]);
        var j :| 0 <= j < |s[1..]| && s[1..][j] == y;
        assert s[j + 1] == y;
      }
    }
  }

  /** A sort by a text key (an `order_by` on a text column): sorted, and a permutation of the input. */
  function SortByText<T>(s: seq<T>, key: T -> string): (r: seq<T>)
    ensures SortedByText(r, key)
    ensures multiset(r) == multiset(s)
  {
    if s == [] then []
    else
      assert s == [s[0]] + s[1..];
      InsertByText(s[0], SortByText(s[1..], key), key)
  }

  /** The position of the first element satisfying p (a `get` or `first()` on a filtered table). */
  function FindFirst<T>(s: seq<T>, p: T -> bool): (r: Option<nat>)
    ensures r.Some? ==> r.value < |s| && p(s[r.value]) && forall k :: 0 <= k < r.value ==> !p(s[k])
    ensures r.None? ==> forall k :: 0 <= k < |s| ==> !p(s[k])
  {
    if s == [] then None
    else if p(s[0]) then Some(0)
    else
      match FindFirst(s[1..], p)
      case None =>
        assert forall k :: 1 <= k < |s| ==> s[k] == s[1..][k - 1];
        None
      case Some(j) =>
        assert forall k :: 1 <= k <= j ==> s[k] == s[1..][k - 1];
        Some(j + 1)
  }

  /** The key an auto-increment column hands out next: larger than every key in use. */
  function NextKey<T>(s: seq<T>, key: T -> nat): (r: nat)
    ensures r >= 1
    ensures forall k :: 0 <= k < |s| ==> key(s[k]) < r
  {
    if s == [] then 1
    else
      var rest := NextKey(s[1..], key);
      assert forall k :: 1 <= k < |s| ==> s[k] == s[1..][k - 1];
      if key(s[0]) < rest then rest else key(s[0]) + 1
  }
}
