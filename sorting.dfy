/** A stable sort by a real-valued key. It models JavaScript's Array.prototype.sort
    with a numeric comparator (stable since ES2019). Descending order is ascending
    order on the negated key. A second sort, stable too, orders by a text key, newest
    first, as Go's sort.Slice does with `>` on timestamp strings (of which only the
    order and the permutation are stated, since sort.Slice is not stable). */
module Sorting {
  import opened Text

  /** Every element's key is no larger than the key of every later element. */
  ghost predicate SortedBy<T>(s: seq<T>, key: T -> real) {
    forall i, j :: 0 <= i < j < |s| ==> key(s[i]) <= key(s[j])
  }

  /** Every element's key is no smaller than the key of every later element. */
  ghost predicate SortedDescBy<T>(s: seq<T>, key: T -> real) {
    forall i, j :: 0 <= i < j < |s| ==> key(s[i]) >= key(s[j])
  }

  /** The elements of s whose key is v, in their order in s. */
  function WithKey<T, K(==)>(s: seq<T>, key: T -> K, v: K): (r: seq<T>)
    ensures |r| <= |s|
  {
    if s == [] then []
    else (if key(s[0]) == v then [s[0]] else []) + WithKey(s[1..], key, v)
  }

  /** x placed before the first element whose key is at least key(x). */
  function Insert<T>(x: T, s: seq<T>, key: T -> real): seq<T> {
    if s == [] || key(x) <= key(s[0]) then [x] + s
    else [s[0]] + Insert(x, s[1..], key)
  }

  /** Insertion sort, ascending by key. */
  function SortAsc<T>(s: seq<T>, key: T -> real): seq<T> {
    if s == [] then [] else Insert(s[0], SortAsc(s[1..], key), key)
  }

  /** Ascending order on the negated key: descending, equal keys keep their order. */
  function SortDesc<T>(s: seq<T>, key: T -> real): seq<T> {
    SortAsc(s, x => -key(x))
  }

  lemma {:induction false} InsertPermutes<T>(x: T, s: seq<T>, key: T -> real)
    ensures multiset(Insert(x, s, key)) == multiset(s) + multiset{x}
  {
    if s != [] && key(x) > key(s[0]) {
      InsertPermutes(x, s[1..], key);
      assert s == [s[0]] + s[1..];
    }
  }

  lemma {:induction false} InsertSorted<T>(x: T, s: seq<T>, key: T -> real)
    requires SortedBy(s, key)
    ensures SortedBy(Insert(x, s, key), key)
  {
    if s != [] && key(x) > key(s[0]) {
      InsertSorted(x, s[1..], key);
      InsertPermutes(x, s[1..], key);
      var t := Insert(x, s[1..], key);
      forall k | 0 <= k < |t| ensures key(s[0]) <= key(t[k]) {
        assert t[k] in multiset(t);
        assert t[k] in multiset(s[1..]) + multiset{x};
        if t[k] != x {
          assert t[k] in multiset(s[1..]);
          var m :| 0 <= m < |s[1..]| && s[1..][m] == t[k];
          assert s[m + 1] == t[k];
        }
      }
    }
  }

  lemma {:induction false} WithKeyConcat<T, K>(a: seq<T>, b: seq<T>, key: T -> K, v: K)
    ensures WithKey(a + b, key, v) == WithKey(a, key, v) + WithKey(b, key, v)
  {
    if a == [] {
      assert a + b == b;
    } else {
      var h := if key(a[0]) == v then [a[0]] else [];
      assert (a + b)[0] == a[0];
      assert (a + b)[1..] == a[1..] + b;
      WithKeyConcat(a[1..], b, key, v);
      calc {
        WithKey(a + b, key, v);
        h + WithKey(a[1..] + b, key, v);
        h + (WithKey(a[1..], key, v) + WithKey(b, key, v));
        (h + WithKey(a[1..], key, v)) + WithKey(b, key, v);
      }
    }
  }

  lemma {:induction false} InsertWithKey<T>(x: T, s: seq<T>, key: T -> real, v: real)
    requires SortedBy(s, key)
    ensures WithKey(Insert(x, s, key), key, v)
         == (if key(x) == v then [x] else []) + WithKey(s, key, v)
  {
    if s == [] || key(x) <= key(s[0]) {
      WithKeyConcat([x], s, key, v);
    } else {
      InsertWithKey(x, s[1..], key, v);
      WithKeyConcat([s[0]], Insert(x, s[1..], key), key, v);
      WithKeyConcat([s[0]], s[1..], key, v);
      assert [s[0]] + s[1..] == s;
    }
  }

  /** The sort yields an ascending sequence. */
  lemma {:induction false} SortAscSorted<T>(s: seq<T>, key: T -> real)
    ensures SortedBy(SortAsc(s, key), key)
  {
    if s != [] {
      SortAscSorted(s[1..], key);
      InsertSorted(s[0], SortAsc(s[1..], key), key);
    }
  }

  /** The sort neither loses nor invents elements. */
  lemma {:induction false} SortAscPermutes<T>(s: seq<T>, key: T -> real)
    ensures multiset(SortAsc(s, key)) == multiset(s)
  {
    if s != [] {
      SortAscPermutes(s[1..], key);
      InsertPermutes(s[0], SortAsc(s[1..], key), key);
      assert s == [s[0]] + s[1..];
    }
  }

  /** The sort is stable: the elements sharing a key keep their relative order. */
  lemma {:induction false} SortAscStable<T>(s: seq<T>, key: T -> real, v: real)
    ensures WithKey(SortAsc(s, key), key, v) == WithKey(s, key, v)
  {
    if s != [] {
      SortAscStable(s[1..], key, v);
      SortAscSorted(s[1..], key);
      InsertWithKey(s[0], SortAsc(s[1..], key), key, v);
    }
  }

  /** Descending sort: ordered and a permutation (its stability is SortDescStable). */
  lemma SortDescSpec<T>(s: seq<T>, key: T -> real)
    ensures SortedDescBy(SortDesc(s, key), key)
    ensures multiset(SortDesc(s, key)) == multiset(s)
    ensures |SortDesc(s, key)| == |s|
  {
    var neg := x => -key(x);
    SortAscSorted(s, neg);
    SortAscPermutes(s, neg);
    var r := SortDesc(s, key);
    assert |multiset(r)| == |multiset(s)|;
    forall i, j | 0 <= i < j < |r| ensures key(r[i]) >= key(r[j]) {
      assert neg(r[i]) <= neg(r[j]);
    }
  }

  lemma {:induction false} WithNegatedKey<T>(s: seq<T>, key: T -> real, v: real)
    ensures WithKey(s, x => -key(x), -v) == WithKey(s, key, v)
  {
    if s != [] {
      WithNegatedKey(s[1..], key, v);
    }
  }

  /** Descending sort keeps the order of the elements sharing a key. */
  lemma SortDescStable<T>(s: seq<T>, key: T -> real, v: real)
    ensures WithKey(SortDesc(s, key), key, v) == WithKey(s, key, v)
  {
    SortAscStable(s, x => -key(x), -v);
    WithNegatedKey(s, key, v);
    WithNegatedKey(SortDesc(s, key), key, v);
  }

  // ---------------------------------------------------------------- text keys

  /** No element's key comes before the key of a later element. */
  ghost predicate SortedDescByText<T>(s: seq<T>, key: T -> string) {
    forall i, j :: 0 <= i < j < |s| ==> !LexLess(key(s[i]), key(s[j]))
  }

  /** x placed before the first element whose key does not come after key(x). */
  function InsertDescText<T>(x: T, s: seq<T>, key: T -> string): seq<T> {
    if s == [] || !LexLess(key(x), key(s[0])) then [x] + s
    else [s[0]] + InsertDescText(x, s[1..], key)
  }

  /** Insertion sort, descending by a text key. */
  function SortDescText<T>(s: seq<T>, key: T -> string): seq<T> {
    if s == [] then [] else InsertDescText(s[0], SortDescText(s[1..], key), key)
  }

  lemma {:induction false} InsertDescTextPermutes<T>(x: T, s: seq<T>, key: T -> string)
    ensures multiset(InsertDescText(x, s, key)) == multiset(s) + multiset{x}
  {
    if s != [] && LexLess(key(x), key(s[0])) {
      InsertDescTextPermutes(x, s[1..], key);
      assert s == [s[0]] + s[1..];
    }
  }

  lemma {:induction false} InsertDescTextSorted<T>(x: T, s: seq<T>, key: T -> string)
    requires SortedDescByText(s, key)
    ensures SortedDescByText(InsertDescText(x, s, key), key)
  {
    if s == [] {
    } else if !LexLess(key(x), key(s[0])) {
      var r := [x] + s;
      forall i, j | 0 <= i < j < |r| ensures !LexLess(key(r[i]), key(r[j])) {
        if i == 0 && j > 1 {
          NotLexLessTransitive(key(x), key(s[0]), key(s[j - 1]));
        }
      }
    } else {
      InsertDescTextSorted(x, s[1..], key);
      InsertDescTextPermutes(x, s[1..], key);
      var t := InsertDescText(x, s[1..], key);
      forall k | 0 <= k < |t| ensures !LexLess(key(s[0]), key(t[k])) {
        assert t[k] in multiset(t);
        assert t[k] in multiset(s[1..]) + multiset{x};
        if t[k] == x {
          LexLessAsymmetric(key(x), key(s[0]));
        } else {
          assert t[k] in multiset(s[1..]);
          var m :| 0 <= m < |s[1..]| && s[1..][m] == t[k];
          assert s[m + 1] == t[k];
        }
      }
    }
  }

  /** The text sort yields a descending permutation of its input. */
  lemma {:induction false} SortDescTextSpec<T>(s: seq<T>, key: T -> string)
    ensures SortedDescByText(SortDescText(s, key), key)
    ensures multiset(SortDescText(s, key)) == multiset(s)
    ensures |SortDescText(s, key)| == |s|
  {
    if s != [] {
      SortDescTextSpec(s[1..], key);
      InsertDescTextSorted(s[0], SortDescText(s[1..], key), key);
      InsertDescTextPermutes(s[0], SortDescText(s[1..], key), key);
      assert s == [s[0]] + s[1..];
    }
    assert |multiset(SortDescText(s, key))| == |multiset(s)|;
  }

  /** Inserting x puts it before every element that shares its key. */
  lemma {:induction false} InsertDescTextWithKey<T>(x: T, s: seq<T>, key: T -> string, v: string)
    ensures WithKey(InsertDescText(x, s, key), key, v)
         == (if key(x) == v then [x] else []) + WithKey(s, key, v)
  {
    if s == [] || !LexLess(key(x), key(s[0])) {
      var r := [x] + s;
      assert r[0] == x && r[1..] == s;
    } else {
      var r := [s[0]] + InsertDescText(x, s[1..], key);
      assert r[0] == s[0] && r[1..] == InsertDescText(x, s[1..], key);
      InsertDescTextWithKey(x, s[1..], key, v);
      if key(x) == v && key(s[0]) == v {
        LexLessIrreflexive(v);
      }
    }
  }

  /** The text sort is stable: elements with equal keys keep their relative order. */
  lemma {:induction false} SortDescTextStable<T>(s: seq<T>, key: T -> string, v: string)
    ensures WithKey(SortDescText(s, key), key, v) == WithKey(s, key, v)
  {
    if s != [] {
      SortDescTextStable(s[1..], key, v);
      InsertDescTextWithKey(s[0], SortDescText(s[1..], key), key, v);
    }
  }
}
