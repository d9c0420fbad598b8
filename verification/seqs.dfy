/** Order-preserving list operations used by every page: `filter`, `filter(...).length`,
    `slice(0, n)` and the size of `new Set(xs.map(f))`. */
module Seqs {

  /** `s.filter(p)`: keeps, in order, exactly the elements satisfying `p`. */
  function Filter<T(!new)>(s: seq<T>, p: T -> bool): (r: seq<T>)
    ensures |r| <= |s|
    ensures forall i :: 0 <= i < |r| ==> r[i] in s && p(r[i])
    ensures forall i :: 0 <= i < |s| && p(s[i]) ==> s[i] in r
  {
    if |s| == 0 then []
    else if p(s[0]) then [s[0]] + Filter(s[1..], p)
    else Filter(s[1..], p)
  }

  /** Each value occurs in the filtered list as often as in the input when it
      passes, and not at all otherwise. */
  lemma {:induction false} FilterMultiset<T(!new)>(s: seq<T>, p: T -> bool)
    ensures forall x :: multiset(Filter(s, p))[x] == if p(x) then multiset(s)[x] else 0
  {
    if |s| > 0 {
      FilterMultiset(s[1..], p);
      assert s == [s[0]] + s[1..];
    }
  }

  /** `s.filter(p).length`. */
  function Count<T(!new)>(s: seq<T>, p: T -> bool): nat
  {
    |Filter(s, p)|
  }

  /** `s.slice(0, n)`. */
  function Take<T>(s: seq<T>, n: nat): (r: seq<T>)
    ensures |r| <= n && |r| <= |s|
    ensures |s| <= n ==> r == s
    ensures |s| > n ==> |r| == n
    ensures forall i :: 0 <= i < |r| ==> r[i] == s[i]
  {
    if |s| <= n then s else s[..n]
  }

  /** The set of keys `f(x)` of the elements of `s`: `new Set(s.map(f))`. */
  function Image<T, K>(s: seq<T>, f: T -> K): (r: set<K>)
    ensures |r| <= |s|
    ensures forall i :: 0 <= i < |s| ==> f(s[i]) in r
    ensures |s| > 0 ==> |r| > 0
  {
    if |s| == 0 then {}
    else
      {f(s[0])} + Image(s[1..], f)
  }

  /** The keys of `s` are exactly the values of `f` on its elements. */
  lemma {:induction false} ImageIsKeys<T, K>(s: seq<T>, f: T -> K)
    ensures Image(s, f) == set x | x in s :: f(x)
  {
    if |s| > 0 {
      ImageIsKeys(s[1..], f);
      assert s == [s[0]] + s[1..];
    }
  }

  /** Filtering distributes over concatenation: the relative order of the kept
      elements is the order they had in the input. */
  lemma {:induction false} FilterConcat<T(!new)>(a: seq<T>, b: seq<T>, p: T -> bool)
    ensures Filter(a + b, p) == Filter(a, p) + Filter(b, p)
  {
    if |a| == 0 {
      assert a + b == b;
    } else {
      assert (a + b)[0] == a[0];
      assert (a + b)[1..] == a[1..] + b;
      FilterConcat(a[1..], b, p);
    }
  }

  /** Filtering a list extended by one element extends the filtered list by
      that element exactly when it passes: with `Filter([], p) == []` this
      fixes the result, order included. */
  lemma FilterSnoc<T(!new)>(s: seq<T>, x: T, p: T -> bool)
    ensures Filter(s + [x], p) == Filter(s, p) + (if p(x) then [x] else [])
  {
    FilterConcat(s, [x], p);
    assert [x][1..] == [];
  }

  /** The positions of `s` whose element passes `p`. */
  function Positions<T>(s: seq<T>, p: T -> bool): set<int>
  {
    set i | 0 <= i < |s| && p(s[i])
  }

  /** Extending a list by one element adds its position exactly when it passes. */
  lemma PositionsSnoc<T>(s: seq<T>, x: T, p: T -> bool)
    ensures Positions(s + [x], p) == Positions(s, p) + (if p(x) then {|s|} else {})
    ensures |s| !in Positions(s, p)
  {
    var t := s + [x];
    var last: set<int> := if p(x) then {|s|} else {};
    forall i | i in Positions(t, p) ensures i in Positions(s, p) + last {
      if i < |s| { assert t[i] == s[i]; }
    }
    forall i | i in Positions(s, p) + last ensures i in Positions(t, p) {
      if i < |s| { assert t[i] == s[i]; }
    }
  }

  /** The number of kept elements is the number of positions whose element
      passes the predicate. */
  lemma {:induction false} CountPositions<T(!new)>(s: seq<T>, p: T -> bool)
    ensures |Filter(s, p)| == |Positions(s, p)|
  {
    if |s| > 0 {
      var n := |s| - 1;
      var init := s[..n];
      assert s == init + [s[n]];
      CountPositions(init, p);
      FilterSnoc(init, s[n], p);
      PositionsSnoc(init, s[n], p);
    }
  }

  /** Splitting a list around position `k` splits the count of kept elements. */
  lemma CountAround<T(!new)>(s: seq<T>, k: nat, p: T -> bool)
    requires k < |s|
    ensures |Filter(s, p)| == |Filter(s[..k], p)| + (if p(s[k]) then 1 else 0) + |Filter(s[k + 1..], p)|
  {
    assert s == s[..k] + [s[k]] + s[k + 1..];
    FilterConcat(s[..k] + [s[k]], s[k + 1..], p);
    FilterConcat(s[..k], [s[k]], p);
    assert [s[k]][1..] == [];
  }

  /** A filter whose predicate holds everywhere is the identity. */
  lemma {:induction false} FilterAll<T(!new)>(s: seq<T>, p: T -> bool)
    requires forall i :: 0 <= i < |s| ==> p(s[i])
    ensures Filter(s, p) == s
  {
    if |s| > 0 {
      FilterAll(s[1..], p);
    }
  }

  /** A filter whose predicate holds nowhere keeps nothing. */
  lemma {:induction false} FilterNone<T(!new)>(s: seq<T>, p: T -> bool)
    requires forall i :: 0 <= i < |s| ==> !p(s[i])
    ensures Filter(s, p) == []
  {
    if |s| > 0 {
      FilterNone(s[1..], p);
    }
  }

  /** Every element either passes `p` or passes its negation, never both. */
  lemma {:induction false} FilterPartition<T(!new)>(s: seq<T>, p: T -> bool, q: T -> bool)
    requires forall i :: 0 <= i < |s| ==> q(s[i]) == !p(s[i])
    ensures Count(s, p) + Count(s, q) == |s|
  {
    if |s| > 0 {
      FilterPartition(s[1..], p, q);
    }
  }

  /** Two predicates that agree on every element of `s` filter it alike. */
  lemma {:induction false} FilterCongruent<T(!new)>(s: seq<T>, p: T -> bool, q: T -> bool)
    requires forall i :: 0 <= i < |s| ==> p(s[i]) == q(s[i])
    ensures Filter(s, p) == Filter(s, q)
  {
    if |s| > 0 {
      FilterCongruent(s[1..], p, q);
    }
  }

  /** The keys `f(x)` of the elements of `s` are pairwise distinct. */
  predicate DistinctKeys<T, K(==)>(s: seq<T>, f: T -> K)
  {
    forall i, j :: 0 <= i < j < |s| ==> f(s[i]) != f(s[j])
  }

  /** When the keys `f(x)` of `s` are pairwise distinct, at most one element has key `k`. */
  lemma {:induction false} DistinctKeysFilterAtMostOne<T(!new), K>(s: seq<T>, f: T -> K, k: K, p: T -> bool)
    requires DistinctKeys(s, f)
    requires forall i :: 0 <= i < |s| ==> (p(s[i]) <==> f(s[i]) == k)
    ensures |Filter(s, p)| <= 1
  {
    if |s| > 0 {
      DistinctKeysFilterAtMostOne(s[1..], f, k, p);
      if f(s[0]) == k {
        assert forall j :: 0 <= j < |s[1..]| ==> f(s[1..][j]) != k by {
          forall j | 0 <= j < |s[1..]| ensures f(s[1..][j]) != k {
            assert s[1..][j] == s[j + 1];
          }
        }
        FilterNone(s[1..], p);
      }
    }
  }

  /** Filtering keeps pairwise-distinct keys pairwise distinct. */
  lemma {:induction false} FilterKeepsDistinct<T(!new), K>(s: seq<T>, p: T -> bool, f: T -> K)
    requires DistinctKeys(s, f)
    ensures DistinctKeys(Filter(s, p), f)
  {
    if |s| > 0 {
      FilterKeepsDistinct(s[1..], p, f);
      var rest := Filter(s[1..], p);
      forall k | 0 <= k < |rest|
        ensures f(rest[k]) != f(s[0])
      {
        var j :| 0 <= j < |s[1..]| && s[1..][j] == rest[k];
        assert s[j + 1] == rest[k];
      }
      if p(s[0]) {
        var r := [s[0]] + rest;
        forall i, j | 0 <= i < j < |r|
          ensures f(r[i]) != f(r[j])
        {
          assert r[j] == rest[j - 1];
          if i > 0 {
            assert r[i] == rest[i - 1];
            assert f(rest[i - 1]) != f(rest[j - 1]);
          } else {
            assert f(rest[j - 1]) != f(s[0]);
          }
        }
      }
    }
  }
}
