/** Order-preserving filtering and ordering of result lists: the model of
    `Array.prototype.filter` on the pages and of `WHERE ... ORDER BY` in the
    repositories. */
module Lists {

  /** `a` is obtained from `b` by deleting elements, keeping their order. */
  predicate IsSubsequence<T(==)>(a: seq<T>, b: seq<T>)
    decreases |b|
  {
    if a == [] then true
    else if b == [] then false
    else if a[0] == b[0] then IsSubsequence(a[1..], b[1..])
    else IsSubsequence(a, b[1..])
  }

  /** The elements of `s` that satisfy `p`, in their original order. */
  function Filter<T(!new)>(s: seq<T>, p: T -> bool): (r: seq<T>)
    ensures |r| <= |s|
    ensures forall x :: x in r <==> x in s && p(x)
    ensures forall i :: 0 <= i < |r| ==> p(r[i])
    ensures multiset(r) <= multiset(s)
    ensures IsSubsequence(r, s)
  {
    if s == [] then []
    else
      var rest := Filter(s[1..], p);
      assert s == [s[0]] + s[1..];
      if p(s[0]) then
        assert ([s[0]] + rest)[1..] == rest;
        [s[0]] + rest
      else
        SubsequenceSkip(rest, s);
        rest
  }

  /** Dropping the head of the longer list keeps a subsequence a subsequence of the whole. */
  lemma {:induction false} SubsequenceSkip<T>(a: seq<T>, b: seq<T>)
    requires b != [] && IsSubsequence(a, b[1..])
    ensures IsSubsequence(a, b)
    decreases |a| + |b|
  {
    if a != [] && a[0] == b[0] {
      SubsequenceTail(a, b[1..]);
    }
  }

  /** A subsequence stays one when its head is dropped. */
  lemma {:induction false} SubsequenceTail<T>(a: seq<T>, b: seq<T>)
    requires a != [] && IsSubsequence(a, b)
    ensures IsSubsequence(a[1..], b)
    decreases |a| + |b|
  {
    if a[0] == b[0] {
      if a[1..] != [] {
        SubsequenceSkip(a[1..], b);
      }
    } else {
      SubsequenceTail(a, b[1..]);
      SubsequenceSkip(a[1..], b);
    }
  }

  /** Every element of `s` that satisfies `p` occurs in `Filter(s, p)` as often as in `s`. */
  lemma {:induction false} FilterCount<T(!new)>(s: seq<T>, p: T -> bool, x: T)
    requires p(x)
    ensures multiset(Filter(s, p))[x] == multiset(s)[x]
  {
    if s != [] {
      var t := s[1..];
      var rest := Filter(t, p);
      FilterCount(t, p, x);
      assert s == [s[0]] + t;
      assert multiset(s)[x] == multiset([s[0]])[x] + multiset(t)[x];
      if p(s[0]) {
        assert Filter(s, p) == [s[0]] + rest;
        assert multiset(Filter(s, p))[x] == multiset([s[0]])[x] + multiset(rest)[x];
      } else {
        assert Filter(s, p) == rest;
      }
    }
  }

  /** A filter that every element passes returns the list unchanged. */
  lemma {:induction false} FilterAll<T(!new)>(s: seq<T>, p: T -> bool)
    requires forall x :: x in s ==> p(x)
    ensures Filter(s, p) == s
  {
    if s != [] {
      FilterAll(s[1..], p);
    }
  }

  /** A filter applied only when `apply` holds (a conditional `andWhere`). */
  function FilterIf<T(!new)>(apply: bool, s: seq<T>, p: T -> bool): (r: seq<T>)
    ensures forall x :: x in r <==> x in s && (apply ==> p(x))
  {
    if apply then Filter(s, p) else s
  }

  /** An element that passes the conditional filter keeps its multiplicity. */
  lemma FilterIfCount<T(!new)>(apply: bool, s: seq<T>, p: T -> bool, x: T)
    requires apply ==> p(x)
    ensures multiset(FilterIf(apply, s, p))[x] == multiset(s)[x]
  {
    if apply {
      FilterCount(s, p, x);
    }
  }

  /** A conditional filter is a plain filter by "not applied, or passes". */
  lemma FilterIfFilter<T(!new)>(apply: bool, s: seq<T>, q: T -> bool, pq: T -> bool)
    requires forall x :: pq(x) == (apply ==> q(x))
    ensures FilterIf(apply, s, q) == Filter(s, pq)
  {
    if apply {
      FilterExt(s, q, pq);
    } else {
      FilterAll(s, pq);
    }
  }

  /** A conditional filter applied to a filtered list is one filter by the
      conjunction of the two conditions. */
  lemma {:induction false} FilterIfAfter<T(!new)>(apply: bool, s: seq<T>, p: T -> bool, q: T -> bool, pq: T -> bool)
    requires forall x :: pq(x) == (p(x) && (apply ==> q(x)))
    ensures FilterIf(apply, Filter(s, p), q) == Filter(s, pq)
  {
    if s != [] {
      FilterIfAfter(apply, s[1..], p, q, pq);
    }
  }

  /** Filters by pointwise-equal predicates agree. */
  lemma {:induction false} FilterExt<T(!new)>(s: seq<T>, p: T -> bool, q: T -> bool)
    requires forall x :: p(x) == q(x)
    ensures Filter(s, p) == Filter(s, q)
  {
    if s != [] {
      FilterExt(s[1..], p, q);
    }
  }

  /** A filter and its complement split the list: the sizes add up. */
  lemma {:induction false} FilterPartition<T(!new)>(s: seq<T>, p: T -> bool, q: T -> bool)
    requires forall x :: q(x) == !p(x)
    ensures |Filter(s, p)| + |Filter(s, q)| == |s|
  {
    if s != [] {
      FilterPartition(s[1..], p, q);
    }
  }

  /** `le` orders every pair, transitively. */
  ghost predicate TotalPreorder<T(!new)>(le: (T, T) -> bool)
  {
    && (forall a, b :: le(a, b) || le(b, a))
    && (forall a, b, c :: le(a, b) && le(b, c) ==> le(a, c))
  }

  predicate SortedBy<T>(s: seq<T>, le: (T, T) -> bool)
  {
    forall i, j :: 0 <= i < j < |s| ==> le(s[i], s[j])
  }

  function Insert<T>(x: T, s: seq<T>, le: (T, T) -> bool): (r: seq<T>)
    ensures multiset(r) == multiset(s) + multiset{x}
  {
    if s == [] then [x]
    else if le(x, s[0]) then [x] + s
    else
      assert s == [s[0]] + s[1..];
      [s[0]] + Insert(x, s[1..], le)
  }

  /** Insertion sort: the model of an `ORDER BY`. */
  function SortBy<T>(s: seq<T>, le: (T, T) -> bool): (r: seq<T>)
    ensures multiset(r) == multiset(s)
    ensures |r| == |s|
  {
    if s == [] then []
    else
      assert s == [s[0]] + s[1..];
      Insert(s[0], SortBy(s[1..], le), le)
  }

  lemma {:induction false} InsertSorted<T(!new)>(x: T, s: seq<T>, le: (T, T) -> bool)
    requires TotalPreorder(le)
    requires SortedBy(s, le)
    ensures SortedBy(Insert(x, s, le), le)
  {
    if s != [] && !le(x, s[0]) {
      InsertSorted(x, s[1..], le);
      var r := Insert(x, s, le);
      var t := Insert(x, s[1..], le);
      assert r == [s[0]] + t;
      assert le(s[0], x);
      forall j | 0 < j < |r|
        ensures le(s[0], r[j])
      {
        assert r[j] in multiset(t);
        assert r[j] == x || r[j] in s[1..];
      }
    }
  }

  /** The result of `SortBy` is ordered by `le`. */
  lemma {:induction false} SortBySorted<T(!new)>(s: seq<T>, le: (T, T) -> bool)
    requires TotalPreorder(le)
    ensures SortedBy(SortBy(s, le), le)
  {
    if s != [] {
      SortBySorted(s[1..], le);
      InsertSorted(s[0], SortBy(s[1..], le), le);
    }
  }

  /** No element of `s` occurs twice. */
  predicate Distinct<T(==)>(s: seq<T>)
  {
    forall i, j :: 0 <= i < j < |s| ==> s[i] != s[j]
  }

  /** An element of a list without repetitions occurs in it exactly once. */
  lemma {:induction false} DistinctCount<T>(s: seq<T>, x: T)
    requires Distinct(s) && x in s
    ensures multiset(s)[x] == 1
  {
    assert s == [s[0]] + s[1..];
    assert Distinct(s[1..]) by {
      forall i, j | 0 <= i < j < |s[1..]|
        ensures s[1..][i] != s[1..][j]
      {
        assert s[1..][i] == s[i + 1] && s[1..][j] == s[j + 1];
      }
    }
    if s[0] == x {
      assert x !in s[1..] by {
        forall i | 0 <= i < |s[1..]|
          ensures s[1..][i] != x
        {
          assert s[1..][i] == s[i + 1];
        }
      }
      assert multiset(s[1..])[x] == 0;
    } else {
      DistinctCount(s[1..], x);
    }
  }

  /** A result whose every element keeps its multiplicity in a list without
      repetitions holds each of its elements once. */
  lemma UnaVez<T>(s: seq<T>, r: seq<T>)
    requires Distinct(s)
    requires forall x :: x in r ==> x in s && multiset(r)[x] == multiset(s)[x]
    ensures forall x :: x in r ==> multiset(r)[x] == 1
  {
    forall x | x in r
      ensures multiset(r)[x] == 1
    {
      DistinctCount(s, x);
    }
  }

  /** No two keys of `m` hold the same value. */
  predicate Injective<K, V(==)>(m: map<K, V>)
  {
    forall a, b :: a in m && b in m && m[a] == m[b] ==> a == b
  }

  /** The rows of a table in some storage order: every value of `m`
      appears, and nothing else; one entry per key, so that a map whose
      keys hold distinct values gives a list without repetitions. */
  method Values<K, V(==,!new)>(m: map<K, V>) returns (s: seq<V>)
    ensures forall v :: v in s <==> v in m.Values
    ensures forall v :: v in s ==> exists k :: k in m && m[k] == v
    ensures forall k :: k in m ==> m[k] in s
    ensures |s| == |m|
    ensures Injective(m) ==> Distinct(s)
  {
    s := [];
    var todo := m.Keys;
    while todo != {}
      invariant todo <= m.Keys
      invariant forall v :: v in s <==> exists k :: k in m.Keys - todo && m[k] == v
      invariant |s| + |todo| == |m.Keys|
      invariant Injective(m) ==> Distinct(s)
      decreases |todo|
    {
      var k :| k in todo;
      if Injective(m) {
        assert m[k] !in s;
      }
      s := s + [m[k]];
      todo := todo - {k};
    }
  }
}
