/** Order-preserving selection over sequences: the shape shared by SQL `WHERE`,
    JavaScript `Array.prototype.filter`, pandas boolean masks and `head(n)`. */
module Seqs {

  /** The subsequence of `s` whose elements satisfy `p`, in the order of `s`. */
  function Filter<T(==)>(s: seq<T>, p: T -> bool): (r: seq<T>)
    ensures |r| <= |s|
    ensures forall i :: 0 <= i < |r| ==> r[i] in s && p(r[i])
    ensures forall i :: 0 <= i < |s| && p(s[i]) ==> s[i] in r
  {
    if s == [] then []
    else Filter(s[..|s| - 1], p) + (if p(s[|s| - 1]) then [s[|s| - 1]] else [])
  }

  /** `a` can be obtained from `b` by deleting elements. */
  predicate IsSubsequence<T(==)>(a: seq<T>, b: seq<T>)
    decreases |b|
  {
    a == [] ||
    (b != [] &&
     ((a[|a| - 1] == b[|b| - 1] && IsSubsequence(a[..|a| - 1], b[..|b| - 1])) ||
      IsSubsequence(a, b[..|b| - 1])))
  }

  /** The first `n` elements of `s`, or all of them when there are fewer (pandas `head`). */
  function Take<T>(s: seq<T>, n: int): (r: seq<T>)
    ensures |r| == if n <= 0 then 0 else if n < |s| then n else |s|
    ensures r == s[..|r|]
  {
    if n <= 0 then [] else if n < |s| then s[..n] else s
  }

  lemma {:induction false} FilterIsSubsequence<T>(s: seq<T>, p: T -> bool)
    ensures IsSubsequence(Filter(s, p), s)
  {
    if s != [] {
      var init, last := s[..|s| - 1], s[|s| - 1];
      FilterIsSubsequence(init, p);
      var r := Filter(s, p);
      if p(last) {
        assert r == Filter(init, p) + [last];
        assert r[..|r| - 1] == Filter(init, p);
      } else {
        assert r == Filter(init, p);
      }
    }
  }

  lemma {:induction false} FilterAppend<T>(s: seq<T>, t: seq<T>, p: T -> bool)
    ensures Filter(s + t, p) == Filter(s, p) + Filter(t, p)
    decreases |t|
  {
    if t == [] {
      assert s + t == s;
    } else {
      var t' := t[..|t| - 1];
      assert (s + t)[..|s + t| - 1] == s + t';
      FilterAppend(s, t', p);
    }
  }

  lemma {:induction false} FilterIdempotent<T>(s: seq<T>, p: T -> bool)
    ensures Filter(Filter(s, p), p) == Filter(s, p)
  {
    FilterAllKept(Filter(s, p), p);
  }

  /** Filtering keeps everything exactly when every element passes. */
  lemma {:induction false} FilterAllKept<T>(s: seq<T>, p: T -> bool)
    requires forall i :: 0 <= i < |s| ==> p(s[i])
    ensures Filter(s, p) == s
  {
    if s != [] {
      FilterAllKept(s[..|s| - 1], p);
      assert s[..|s| - 1] + [s[|s| - 1]] == s;
    }
  }

  /** Filtering leaves nothing exactly when no element passes. */
  lemma FilterEmptyIff<T>(s: seq<T>, p: T -> bool)
    ensures Filter(s, p) == [] <==> forall i :: 0 <= i < |s| ==> !p(s[i])
  {
    if Filter(s, p) == [] {
      forall i | 0 <= i < |s| ensures !p(s[i]) {
        assert s[i] in s;
      }
    } else {
      var x := Filter(s, p)[0];
      assert x in Filter(s, p);
      var i :| 0 <= i < |s| && s[i] == x;
    }
  }

  /** Two predicates that agree pointwise select the same subsequence. */
  lemma {:induction false} FilterExtensional<T>(s: seq<T>, p: T -> bool, q: T -> bool)
    requires forall x :: p(x) == q(x)
    ensures Filter(s, p) == Filter(s, q)
  {
    if s != [] {
      FilterExtensional(s[..|s| - 1], p, q);
    }
  }

  /** Narrowing by `p` and then by `q` is filtering once by their conjunction `pq`. */
  lemma {:induction false} FilterFilter<T>(s: seq<T>, p: T -> bool, q: T -> bool, pq: T -> bool)
    requires forall x :: pq(x) == (p(x) && q(x))
    ensures Filter(Filter(s, p), q) == Filter(s, pq)
  {
    if s != [] {
      var init, last := s[..|s| - 1], s[|s| - 1];
      FilterFilter(init, p, q, pq);
      assert Filter(s, pq) == Filter(init, pq) + (if pq(last) then [last] else []);
      if p(last) {
        assert Filter(s, p) == Filter(init, p) + [last];
        FilterAppend(Filter(init, p), [last], q);
        assert Filter([last], q) == (if q(last) then [last] else []) by {
          assert [last][..0] == [];
        }
      } else {
        assert Filter(s, p) == Filter(init, p);
      }
    }
  }

  lemma {:induction false} IsSubsequenceReflexive<T>(s: seq<T>)
    ensures IsSubsequence(s, s)
  {
    if s != [] { IsSubsequenceReflexive(s[..|s| - 1]); }
  }

  lemma {:induction false} IsSubsequenceTransitive<T>(a: seq<T>, b: seq<T>, c: seq<T>)
    requires IsSubsequence(a, b) && IsSubsequence(b, c)
    ensures IsSubsequence(a, c)
    decreases |c|
  {
    if a != [] {
      var b', c' := b[..|b| - 1], c[..|c| - 1];
      if IsSubsequence(b, c') {
        IsSubsequenceTransitive(a, b, c');
      } else {
        assert b[|b| - 1] == c[|c| - 1] && IsSubsequence(b', c');
        if a[|a| - 1] == b[|b| - 1] && IsSubsequence(a[..|a| - 1], b') {
          IsSubsequenceTransitive(a[..|a| - 1], b', c');
        } else {
          IsSubsequenceTransitive(a, b', c');
        }
      }
    }
  }

  /** A prefix, and so `head(n)`, keeps the order of the whole. */
  lemma {:induction false} TakeIsSubsequence<T>(s: seq<T>, n: int)
    ensures IsSubsequence(Take(s, n), s)
    decreases |s|
  {
    var r := Take(s, n);
    if r == s {
      IsSubsequenceReflexive(s);
    } else if r != [] {
      var init := s[..|s| - 1];
      assert r == Take(init, |r|);
      TakeIsSubsequence(init, |r|);
    }
  }

  /** The first `n` kept elements are all the kept elements of some prefix: `head(n)`
      of a mask takes the earliest matches. */
  lemma {:induction false} TakeFilterIsPrefixFilter<T>(s: seq<T>, p: T -> bool, n: int)
    ensures exists j :: 0 <= j <= |s| && Take(Filter(s, p), n) == Filter(s[..j], p)
    decreases |s|
  {
    var f := Filter(s, p);
    if n <= 0 {
      assert s[..0] == [];
      assert Take(f, n) == Filter(s[..0], p);
    } else if |f| <= n {
      assert s[..|s|] == s;
      assert Take(f, n) == Filter(s[..|s|], p);
    } else {
      var init := s[..|s| - 1];
      var g := Filter(init, p);
      assert f == g + (if p(s[|s| - 1]) then [s[|s| - 1]] else []);
      assert Take(f, n) == Take(g, n);
      TakeFilterIsPrefixFilter(init, p, n);
      var j :| 0 <= j <= |init| && Take(g, n) == Filter(init[..j], p);
      assert init[..j] == s[..j];
    }
  }
}
