/** Swift's `sorted(by:)` for the orders the core uses, as an insertion sort on a numeric key,
    `map` and `prefix(_:)`. */
module Sorting {

  ghost predicate SortedBy<T>(s: seq<T>, key: T -> real) {
    forall i, j :: 0 <= i < j < |s| ==> key(s[i]) <= key(s[j])
  }

  /** Places x before the first element whose key is not smaller, so that x precedes its equals. */
  function InsertBy<T>(x: T, s: seq<T>, key: T -> real): (r: seq<T>)
    ensures multiset(r) == multiset(s) + multiset{x}
  {
    if s == [] || key(x) <= key(s[0]) then
      [x] + s
    else
      assert s == [s[0]] + s[1..];
      [s[0]] + InsertBy(x, s[1..], key)
  }

  lemma SortedCons<T>(a: T, r: seq<T>, key: T -> real)
    requires SortedBy(r, key)
    requires forall j :: 0 <= j < |r| ==> key(a) <= key(r[j])
    ensures SortedBy([a] + r, key)
  {
    var u := [a] + r;
    forall i, j | 0 <= i < j < |u|
      ensures key(u[i]) <= key(u[j])
    {
      assert u[j] == r[j - 1];
      if i > 0 {
        assert u[i] == r[i - 1];
      }
    }
  }

  lemma {:induction false} InsertBySorted<T>(x: T, s: seq<T>, key: T -> real)
    requires SortedBy(s, key)
    ensures SortedBy(InsertBy(x, s, key), key)
  {
    if s == [] || key(x) <= key(s[0]) {
      forall j | 0 <= j < |s|
        ensures key(x) <= key(s[j])
      {
        assert key(s[0]) <= key(s[j]);
      }
      SortedCons(x, s, key);
    } else {
      var rest := InsertBy(x, s[1..], key);
      InsertBySorted(x, s[1..], key);
      forall j | 0 <= j < |rest|
        ensures key(s[0]) <= key(rest[j])
      {
        assert rest[j] in multiset(rest);
        assert rest[j] in multiset(s[1..]) || rest[j] == x;
        if rest[j] != x {
          var k :| 0 <= k < |s[1..]| && s[1..][k] == rest[j];
          assert s[k + 1] == rest[j];
        }
      }
      SortedCons(s[0], rest, key);
    }
  }

  function SortBy<T>(s: seq<T>, key: T -> real): (r: seq<T>)
    ensures multiset(r) == multiset(s)
    ensures |r| == |s|
    ensures SortedBy(r, key)
  {
    if s == [] then
      []
    else
      assert s == [s[0]] + s[1..];
      InsertBySorted(s[0], SortBy(s[1..], key), key);
      InsertBy(s[0], SortBy(s[1..], key), key)
  }

  /** A sequence already sorted by the key is a fixed point of the sort: it comes back unchanged. */
  lemma {:induction false} SortBySorted<T>(s: seq<T>, key: T -> real)
    requires SortedBy(s, key)
    ensures SortBy(s, key) == s
  {
    if s != [] {
      SortBySorted(s[1..], key);
      assert s == [s[0]] + s[1..];
    }
  }

  /** `prefix(n)`: the first n elements, or all of them when there are fewer. */
  function Prefix<T>(s: seq<T>, n: nat): (r: seq<T>)
    ensures |r| <= n && |r| <= |s|
    ensures |r| == n || |r| == |s|
    ensures r == s[..|r|]
  {
    if |s| <= n then s else s[..n]
  }

  /** `map(f)`: f applied to each element, in order. */
  function Map<T, U>(s: seq<T>, f: T -> U): (r: seq<U>)
    ensures |r| == |s|
    ensures forall i :: 0 <= i < |s| ==> r[i] == f(s[i])
  {
    if s == [] then [] else [f(s[0])] + Map(s[1..], f)
  }

  /** Mapping with a function that keeps the sort key commutes with inserting. */
  lemma {:induction false} MapInsertBy<T, U>(x: T, s: seq<T>, f: T -> U, key: T -> real, key': U -> real)
    requires forall y :: key'(f(y)) == key(y)
    ensures Map(InsertBy(x, s, key), f) == InsertBy(f(x), Map(s, f), key')
  {
    if s != [] && key(x) > key(s[0]) {
      MapInsertBy(x, s[1..], f, key, key');
      assert Map(s, f)[1..] == Map(s[1..], f);
    }
  }

  /** Mapping with a function that keeps the sort key commutes with sorting, so the mapped sorted
      sequence is a permutation of the mapped input. */
  lemma {:induction false} MapSortBy<T, U>(s: seq<T>, f: T -> U, key: T -> real, key': U -> real)
    requires forall y :: key'(f(y)) == key(y)
    ensures Map(SortBy(s, key), f) == SortBy(Map(s, f), key')
    ensures multiset(Map(SortBy(s, key), f)) == multiset(Map(s, f))
  {
    if s != [] {
      MapSortBy(s[1..], f, key, key');
      MapInsertBy(s[0], SortBy(s[1..], key), f, key, key');
      assert Map(s, f)[1..] == Map(s[1..], f);
    }
  }
}
