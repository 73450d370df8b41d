/** Order-preserving selection of the elements of a sequence by a key, and identity keys, used for the
    store's collections (fetch by relationship, delete, object identity). */
module Keyed {
  import opened Foundation

  /** The elements whose key is k, in their original order. */
  function Having<T(!new), K(==)>(s: seq<T>, key: T -> K, k: K): (r: seq<T>)
    ensures |r| <= |s|
  {
    if s == [] then []
    else Having(s[..|s| - 1], key, k) + (if key(s[|s| - 1]) == k then [s[|s| - 1]] else [])
  }

  /** Exactly the elements with key k are selected. */
  lemma {:induction false} HavingMembers<T(!new), K>(s: seq<T>, key: T -> K, k: K)
    ensures forall x :: x in Having(s, key, k) <==> x in s && key(x) == k
  {
    if s != [] {
      HavingMembers(s[..|s| - 1], key, k);
      assert s == s[..|s| - 1] + [s[|s| - 1]];
    }
  }

  /** The elements whose key is not k, in their original order. */
  function Without<T(!new), K(==)>(s: seq<T>, key: T -> K, k: K): (r: seq<T>)
    ensures |r| <= |s|
  {
    if s == [] then []
    else Without(s[..|s| - 1], key, k) + (if key(s[|s| - 1]) != k then [s[|s| - 1]] else [])
  }

  /** Exactly the elements whose key is not k are kept. */
  lemma {:induction false} WithoutMembers<T(!new), K>(s: seq<T>, key: T -> K, k: K)
    ensures forall x :: x in Without(s, key, k) <==> x in s && key(x) != k
  {
    if s != [] {
      WithoutMembers(s[..|s| - 1], key, k);
      assert s == s[..|s| - 1] + [s[|s| - 1]];
    }
  }

  lemma HavingAppend<T(!new), K>(s: seq<T>, x: T, key: T -> K, k: K)
    ensures Having(s + [x], key, k) == Having(s, key, k) + (if key(x) == k then [x] else [])
  {
    assert (s + [x])[..|s|] == s;
  }

  lemma WithoutAppend<T(!new), K>(s: seq<T>, x: T, key: T -> K, k: K)
    ensures Without(s + [x], key, k) == Without(s, key, k) + (if key(x) != k then [x] else [])
  {
    assert (s + [x])[..|s|] == s;
  }

  lemma {:induction false} HavingNone<T(!new), K>(s: seq<T>, key: T -> K, k: K)
    requires forall i :: 0 <= i < |s| ==> key(s[i]) != k
    ensures Having(s, key, k) == []
  {
    if s != [] {
      HavingNone(s[..|s| - 1], key, k);
    }
  }

  /** Selection distributes over concatenation. */
  lemma {:induction false} HavingConcat<T(!new), K>(s: seq<T>, t: seq<T>, key: T -> K, k: K)
    ensures Having(s + t, key, k) == Having(s, key, k) + Having(t, key, k)
  {
    if t == [] {
      assert s + t == s;
    } else {
      var n := |t| - 1;
      var u := s + t;
      assert u[..|u| - 1] == s + t[..n];
      assert u[|u| - 1] == t[n];
      HavingConcat(s, t[..n], key, k);
      var last := if key(t[n]) == k then [t[n]] else [];
      calc {
        Having(u, key, k);
        Having(s + t[..n], key, k) + last;
        Having(s, key, k) + Having(t[..n], key, k) + last;
        Having(s, key, k) + (Having(t[..n], key, k) + last);
      }
    }
  }

  lemma {:induction false} HavingAll<T(!new), K>(s: seq<T>, key: T -> K, k: K)
    requires forall i :: 0 <= i < |s| ==> key(s[i]) == k
    ensures Having(s, key, k) == s
  {
    if s != [] {
      HavingAll(s[..|s| - 1], key, k);
    }
  }

  /** Selection keeps every occurrence of an element with key k and drops every other one. */
  lemma {:induction false} HavingMultiset<T(!new), K>(s: seq<T>, key: T -> K, k: K)
    ensures forall x :: multiset(Having(s, key, k))[x] == if key(x) == k then multiset(s)[x] else 0
  {
    if s != [] {
      var p, y := s[..|s| - 1], s[|s| - 1];
      HavingMultiset(p, key, k);
      assert s == p + [y];
      assert multiset(s) == multiset(p) + multiset{y};
    }
  }

  /** Every element is either selected or removed: the two parts together are as long as the whole. */
  lemma {:induction false} HavingWithoutSplit<T(!new), K>(s: seq<T>, key: T -> K, k: K)
    ensures |Having(s, key, k)| + |Without(s, key, k)| == |s|
  {
    if s != [] {
      HavingWithoutSplit(s[..|s| - 1], key, k);
    }
  }

  /** Removing the elements with key k does not change which elements have another key k'. */
  lemma {:induction false} HavingOfWithout<T(!new), K>(s: seq<T>, key: T -> K, k: K, k': K)
    requires k != k'
    ensures Having(Without(s, key, k), key, k') == Having(s, key, k')
  {
    if s != [] {
      var p, x := s[..|s| - 1], s[|s| - 1];
      HavingOfWithout(p, key, k, k');
      assert Having(s, key, k') == Having(p, key, k') + (if key(x) == k' then [x] else []);
      if key(x) != k {
        assert Without(s, key, k) == Without(p, key, k) + [x];
        HavingAppend(Without(p, key, k), x, key, k');
      } else {
        assert Without(s, key, k) == Without(p, key, k) + [];
        assert Without(p, key, k) + [] == Without(p, key, k);
      }
    }
  }

  /** Object identities: each below the next identifier to hand out, and no two alike. */
  ghost predicate FreshIds<T>(s: seq<T>, id: T -> PersistentId, next: PersistentId) {
    && (forall i :: 0 <= i < |s| ==> id(s[i]) < next)
    && (forall i, j :: 0 <= i < j < |s| ==> id(s[i]) != id(s[j]))
  }

  lemma FreshIdsAppend<T>(s: seq<T>, x: T, id: T -> PersistentId, next: PersistentId)
    requires FreshIds(s, id, next) && id(x) == next
    ensures FreshIds(s + [x], id, next + 1)
  {
  }

  lemma {:induction false} FreshIdsWithout<T(!new), K>(s: seq<T>, id: T -> PersistentId, next: PersistentId, key: T -> K, k: K)
    requires FreshIds(s, id, next)
    ensures FreshIds(Without(s, key, k), id, next)
  {
    if s != [] {
      var p, x := s[..|s| - 1], s[|s| - 1];
      assert FreshIds(p, id, next);
      FreshIdsWithout(p, id, next, key, k);
      var w := Without(p, key, k);
      WithoutMembers(p, key, k);
      forall i | 0 <= i < |w|
        ensures id(w[i]) != id(x)
      {
        assert w[i] in p;
      }
    }
  }

  /** The first position whose key is k. */
  function IndexOf<T, K(==)>(s: seq<T>, key: T -> K, k: K): (r: Option<nat>)
    ensures r.Some? ==> r.value < |s| && key(s[r.value]) == k
    ensures r.Some? ==> forall j :: 0 <= j < r.value ==> key(s[j]) != k
    ensures r.None? <==> forall j :: 0 <= j < |s| ==> key(s[j]) != k
  {
    if s == [] then None
    else if key(s[0]) == k then Some(0)
    else
      var r := IndexOf(s[1..], key, k);
      if r.Some? then Some(r.value + 1) else None
  }

  /** The first position with a key depends only on the keys. */
  lemma {:induction false} IndexOfSameKeys<T, K>(s: seq<T>, t: seq<T>, key: T -> K, k: K)
    requires |s| == |t| && forall i :: 0 <= i < |s| ==> key(s[i]) == key(t[i])
    ensures IndexOf(s, key, k) == IndexOf(t, key, k)
  {
    if s != [] {
      IndexOfSameKeys(s[1..], t[1..], key, k);
    }
  }
}
