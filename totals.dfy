/** Sums and filters over sequences, as JavaScript's reduce((sum, x) => sum + f(x), 0)
    and filter(p) compute them: both read left to right, so they are defined on the
    last element, which makes a loop's prefix one step longer at a time. */
module Totals {
  /** The sum of f over s, added left to right. */
  function Total<T>(s: seq<T>, f: T -> real): real {
    if s == [] then 0.0 else Total(s[..|s| - 1], f) + f(s[|s| - 1])
  }

  /** The elements of s satisfying p, in their order in s. */
  function Filter<T>(s: seq<T>, p: T -> bool): (r: seq<T>)
    ensures |r| <= |s|
  {
    if s == [] then []
    else Filter(s[..|s| - 1], p) + (if p(s[|s| - 1]) then [s[|s| - 1]] else [])
  }

  /** One element more at the end of a prefix. */
  lemma TotalPrefix<T>(s: seq<T>, k: nat, f: T -> real)
    requires k < |s|
    ensures Total(s[..k + 1], f) == Total(s[..k], f) + f(s[k])
  {
    assert s[..k + 1][..k] == s[..k];
  }

  lemma {:induction false} TotalAppend<T>(a: seq<T>, b: seq<T>, f: T -> real)
    ensures Total(a + b, f) == Total(a, f) + Total(b, f)
  {
    if b == [] {
      assert a + b == a;
    } else {
      var n := |b| - 1;
      assert (a + b)[..|a + b| - 1] == a + b[..n];
      TotalAppend(a, b[..n], f);
    }
  }

  /** Filtering before summing is summing with the filtered-out elements counted as
      zero. */
  lemma {:induction false} TotalFilter<T>(s: seq<T>, p: T -> bool, f: T -> real, g: T -> real)
    requires forall x :: g(x) == if p(x) then f(x) else 0.0
    ensures Total(Filter(s, p), f) == Total(s, g)
  {
    if s != [] {
      var n := |s| - 1;
      TotalFilter(s[..n], p, f, g);
      TotalAppend(Filter(s[..n], p), if p(s[n]) then [s[n]] else [], f);
      if p(s[n]) {
        assert Total([s[n]], f) == f(s[n]) by {
          assert [s[n]][..0] == [];
        }
      }
    }
  }

  /** Removing the element at j. */
  lemma TotalWithout<T>(s: seq<T>, j: nat, f: T -> real)
    requires j < |s|
    ensures Total(s, f) == Total(s[..j] + s[j + 1..], f) + f(s[j])
  {
    var u, x, w := s[..j], s[j], s[j + 1..];
    Around(s, j);
    TotalAppend(u + [x], w, f);
    TotalAppend(u, [x], f);
    TotalAppend(u, w, f);
    assert [x][..0] == [];
  }

  /** The last element of a is somewhere in b, and what is left of each holds the
      same elements. */
  lemma MatchLast<T>(a: seq<T>, b: seq<T>) returns (j: nat)
    requires a != [] && multiset(a) == multiset(b)
    ensures j < |b| && b[j] == a[|a| - 1]
    ensures multiset(a[..|a| - 1]) == multiset(b[..j] + b[j + 1..])
  {
    var n := |a| - 1;
    var x := a[n];
    assert a == a[..n] + [x];
    assert x in multiset(b);
    j :| 0 <= j < |b| && b[j] == x;
    Around(b, j);
    MultisetAround(b[..j], [x], b[j + 1..]);
    Cancel(multiset(a[..n]), multiset(b[..j] + b[j + 1..]), x);
  }

  lemma Cancel<T>(m: multiset<T>, k: multiset<T>, x: T)
    requires m + multiset{x} == k + multiset{x}
    ensures m == k
  {
    assert m == m + multiset{x} - multiset{x};
    assert k == k + multiset{x} - multiset{x};
  }

  /** The order of the summands does not matter. */
  lemma {:induction false} TotalPermutation<T>(a: seq<T>, b: seq<T>, f: T -> real)
    requires multiset(a) == multiset(b)
    ensures Total(a, f) == Total(b, f)
    decreases |a|
  {
    if a != [] {
      var n := |a| - 1;
      var j := MatchLast(a, b);
      TotalPermutation(a[..n], b[..j] + b[j + 1..], f);
      TotalWithout(b, j, f);
    } else {
      assert |b| == |multiset(b)| == 0;
    }
  }

  /** A sum over elements that all contribute nothing. */
  lemma {:induction false} TotalZero<T>(s: seq<T>, f: T -> real)
    requires forall i :: 0 <= i < |s| ==> f(s[i]) == 0.0
    ensures Total(s, f) == 0.0
  {
    if s != [] {
      TotalZero(s[..|s| - 1], f);
    }
  }

  /** A sum split by a condition into the part where it holds and the rest. */
  lemma {:induction false} TotalSplit<T>(s: seq<T>, p: T -> bool, q: T -> bool, f: T -> real)
    requires forall x :: q(x) == !p(x)
    ensures Total(s, f) == Total(Filter(s, p), f) + Total(Filter(s, q), f)
  {
    if s != [] {
      var n := |s| - 1;
      var x := s[n];
      TotalSplit(s[..n], p, q, f);
      TotalAppend(Filter(s[..n], p), if p(x) then [x] else [], f);
      TotalAppend(Filter(s[..n], q), if q(x) then [x] else [], f);
      assert Total([x], f) == f(x) by {
        assert [x][..0] == [];
      }
    }
  }

  /** One element more at the end. */
  lemma FilterStep<T>(s: seq<T>, x: T, p: T -> bool)
    ensures Filter(s + [x], p) == Filter(s, p) + (if p(x) then [x] else [])
  {
    assert (s + [x])[..|s|] == s;
  }

  /** A sum of ones counts the elements. */
  lemma {:induction false} TotalOnes<T>(s: seq<T>, one: T -> real)
    requires forall x :: one(x) == 1.0
    ensures Total(s, one) == |s| as real
  {
    if s != [] {
      TotalOnes(s[..|s| - 1], one);
    }
  }

  lemma {:induction false} FilterAppend<T>(a: seq<T>, b: seq<T>, p: T -> bool)
    ensures Filter(a + b, p) == Filter(a, p) + Filter(b, p)
  {
    if b != [] {
      var n := |b| - 1;
      assert (a + b)[..|a + b| - 1] == a + b[..n];
      FilterAppend(a, b[..n], p);
    } else {
      assert a + b == a;
    }
  }

  /** Filtering a sequence all of whose elements pass keeps it whole. */
  lemma {:induction false} FilterAll<T>(s: seq<T>, p: T -> bool)
    requires forall i :: 0 <= i < |s| ==> p(s[i])
    ensures Filter(s, p) == s
  {
    if s != [] {
      var n := |s| - 1;
      FilterAll(s[..n], p);
      assert s[..n] + [s[n]] == s;
    }
  }

  /** What a filter keeps comes from the sequence and passes. */
  lemma {:induction false} FilterKeeps<T>(s: seq<T>, p: T -> bool, x: T)
    requires x in Filter(s, p)
    ensures x in s && p(x)
  {
    var n := |s| - 1;
    if x !in Filter(s[..n], p) {
      assert x == s[n];
    } else {
      FilterKeeps(s[..n], p, x);
    }
  }

  /** A filter keeps everything that passes. */
  lemma {:induction false} FilterFinds<T>(s: seq<T>, p: T -> bool, x: T)
    requires x in s && p(x)
    ensures x in Filter(s, p)
  {
    var n := |s| - 1;
    if x == s[n] {
    } else {
      assert x in s[..n] by {
        var i :| 0 <= i < |s| && s[i] == x;
        assert s[..n][i] == x;
      }
      FilterFinds(s[..n], p, x);
    }
  }

  /** Filtering a sequence split around one element. */
  lemma FilterAround<T>(u: seq<T>, x: T, w: seq<T>, p: T -> bool)
    ensures Filter(u + [x] + w, p) == Filter(u, p) + Filter([x], p) + Filter(w, p)
    ensures Filter(u + w, p) == Filter(u, p) + Filter(w, p)
  {
    FilterAppend(u + [x], w, p);
    FilterAppend(u, [x], p);
    FilterAppend(u, w, p);
  }

  /** A sequence is what comes before position j, the element there, and the rest. */
  lemma Around<T>(s: seq<T>, j: nat)
    requires j < |s|
    ensures s == s[..j] + [s[j]] + s[j + 1..]
  {
  }

  lemma MultisetAround<T>(a: seq<T>, b: seq<T>, c: seq<T>)
    ensures multiset(a + b + c) == multiset(a + c) + multiset(b)
  {
  }

  /** Filtering after removing the element at j. */
  lemma FilterWithout<T>(s: seq<T>, j: nat, p: T -> bool)
    requires j < |s|
    ensures multiset(Filter(s, p))
      == multiset(Filter(s[..j] + s[j + 1..], p)) + multiset(Filter([s[j]], p))
  {
    var u, x, w := s[..j], s[j], s[j + 1..];
    Around(s, j);
    FilterAround(u, x, w, p);
    MultisetAround(Filter(u, p), Filter([x], p), Filter(w, p));
  }

  /** Filtering two orderings of the same elements keeps the same elements. */
  lemma {:induction false} FilterPermutation<T>(a: seq<T>, b: seq<T>, p: T -> bool)
    requires multiset(a) == multiset(b)
    ensures multiset(Filter(a, p)) == multiset(Filter(b, p))
    decreases |a|
  {
    if a != [] {
      var n := |a| - 1;
      var j := MatchLast(a, b);
      FilterPermutation(a[..n], b[..j] + b[j + 1..], p);
      FilterWithout(b, j, p);
      FilterWithout(a, n, p);
      assert a[..n] + a[n + 1..] == a[..n];
    } else {
      assert |b| == |multiset(b)| == 0;
    }
  }
}
