/** Grouping a sequence by a string key, as a JavaScript Map or plain object filled in
    a forEach groups it: the keys in the order they are first met, each with the
    elements that carry it, in their order. */
module Grouping {
  import opened Totals

  /** The distinct keys of s, in the order of their first occurrence. */
  function Keys<T>(s: seq<T>, key: T -> string): seq<string> {
    if s == [] then []
    else
      var ks := Keys(s[..|s| - 1], key);
      if key(s[|s| - 1]) in ks then ks else ks + [key(s[|s| - 1])]
  }

  function HasKey<T>(key: T -> string, k: string): T -> bool {
    (x: T) => key(x) == k
  }

  /** The elements of s with key k, in their order. */
  function Members<T>(s: seq<T>, key: T -> string, k: string): seq<T> {
    Filter(s, HasKey(key, k))
  }

  predicate Distinct(ks: seq<string>) {
    forall i, j :: 0 <= i < j < |ks| ==> ks[i] != ks[j]
  }

  /** No key occurs twice in a sequence of distinct keys. */
  lemma {:induction false} DistinctOnce(ks: seq<string>, k: string)
    requires Distinct(ks)
    ensures multiset(ks)[k] <= 1
  {
    if ks != [] {
      var n := |ks| - 1;
      assert ks == ks[..n] + [ks[n]];
      DistinctOnce(ks[..n], k);
      if ks[n] == k {
        assert k !in ks[..n];
      }
    }
  }

  /** Reordering distinct keys keeps them distinct. */
  lemma DistinctPermutation(a: seq<string>, b: seq<string>)
    requires Distinct(a) && multiset(a) == multiset(b)
    ensures Distinct(b)
  {
    forall i, j | 0 <= i < j < |b| ensures b[i] != b[j] {
      if b[i] == b[j] {
        assert b == b[..j] + [b[j]] + b[j + 1..];
        assert b[i] in b[..j];
        assert multiset(b)[b[j]] >= 2;
        DistinctOnce(a, b[j]);
        assert false;
      }
    }
  }

  /** One element more: the keys grow only by a key not met before. */
  lemma KeysStep<T>(s: seq<T>, x: T, key: T -> string)
    ensures Keys(s + [x], key) == if key(x) in Keys(s, key) then Keys(s, key) else Keys(s, key) + [key(x)]
  {
    assert (s + [x])[..|s|] == s;
  }

  /** One element more: only its own group grows, by it. */
  lemma MembersStep<T>(s: seq<T>, x: T, key: T -> string, k: string)
    ensures Members(s + [x], key, k) == Members(s, key, k) + (if key(x) == k then [x] else [])
  {
    FilterStep(s, x, HasKey(key, k));
  }

  lemma {:induction false} KeysDistinct<T>(s: seq<T>, key: T -> string)
    ensures Distinct(Keys(s, key))
  {
    if s != [] {
      KeysDistinct(s[..|s| - 1], key);
    }
  }

  /** A key is listed exactly when some element carries it. */
  lemma {:induction false} KeysCover<T>(s: seq<T>, key: T -> string, k: string)
    ensures k in Keys(s, key) <==> exists i :: 0 <= i < |s| && key(s[i]) == k
  {
    if s != [] {
      var n := |s| - 1;
      KeysCover(s[..n], key, k);
      if exists i :: 0 <= i < n && key(s[..n][i]) == k {
        var i :| 0 <= i < n && key(s[..n][i]) == k;
        assert s[i] == s[..n][i];
      }
      if exists i :: 0 <= i < |s| && key(s[i]) == k {
        var i :| 0 <= i < |s| && key(s[i]) == k;
        if i < n {
          assert s[..n][i] == s[i];
        }
      }
    }
  }

  /** A key no element carries has no members. */
  lemma {:induction false} MembersOfAbsent<T>(s: seq<T>, key: T -> string, k: string)
    requires k !in Keys(s, key)
    ensures Members(s, key, k) == []
  {
    if s != [] {
      var n := |s| - 1;
      assert s == s[..n] + [s[n]];
      KeysStep(s[..n], s[n], key);
      MembersStep(s[..n], s[n], key, k);
      MembersOfAbsent(s[..n], key, k);
    }
  }

  /** Every listed key has members. */
  lemma {:induction false} MembersOfListed<T>(s: seq<T>, key: T -> string, k: string)
    requires k in Keys(s, key)
    ensures Members(s, key, k) != []
  {
    var n := |s| - 1;
    assert s == s[..n] + [s[n]];
    KeysStep(s[..n], s[n], key);
    MembersStep(s[..n], s[n], key, k);
    if k in Keys(s[..n], key) {
      MembersOfListed(s[..n], key, k);
    }
  }

  /** The sum of f over the members of each key in ks, key by key. */
  function GroupTotal<T>(s: seq<T>, key: T -> string, ks: seq<string>, f: T -> real): real {
    if ks == [] then 0.0 else GroupTotal(s, key, ks[..|ks| - 1], f) + Total(Members(s, key, ks[|ks| - 1]), f)
  }

  /** The sum of f over the members of one key. */
  function GroupSum<T>(s: seq<T>, key: T -> string, f: T -> real): string -> real {
    (k: string) => Total(Members(s, key, k), f)
  }

  /** The group totals, key by key, are the sum over the keys of each group's sum. */
  lemma {:induction false} GroupTotalIsTotal<T>(s: seq<T>, key: T -> string, ks: seq<string>, f: T -> real)
    ensures GroupTotal(s, key, ks, f) == Total(ks, GroupSum(s, key, f))
  {
    if ks != [] {
      GroupTotalIsTotal(s, key, ks[..|ks| - 1], f);
    }
  }

  /** The keys may be taken in any order: the group totals add up the same. */
  lemma GroupTotalPermutation<T>(s: seq<T>, key: T -> string, ks: seq<string>, ks': seq<string>, f: T -> real)
    requires multiset(ks) == multiset(ks')
    ensures GroupTotal(s, key, ks, f) == GroupTotal(s, key, ks', f)
  {
    GroupTotalIsTotal(s, key, ks, f);
    GroupTotalIsTotal(s, key, ks', f);
    TotalPermutation(ks, ks', GroupSum(s, key, f));
  }

  /** Over distinct keys, one element more adds its own f once when its key is among
      them, and nothing otherwise. */
  lemma {:induction false} GroupTotalStep<T>(s: seq<T>, x: T, key: T -> string, ks: seq<string>, f: T -> real)
    requires Distinct(ks)
    ensures GroupTotal(s + [x], key, ks, f) == GroupTotal(s, key, ks, f) + (if key(x) in ks then f(x) else 0.0)
  {
    if ks != [] {
      var n := |ks| - 1;
      var k := ks[n];
      assert ks == ks[..n] + [k];
      assert key(x) in ks <==> key(x) in ks[..n] || key(x) == k;
      assert Distinct(ks[..n]);
      if key(x) == k {
        assert key(x) !in ks[..n];
      }
      GroupTotalStep(s, x, key, ks[..n], f);
      MembersStep(s, x, key, k);
      TotalAppend(Members(s, key, k), if key(x) == k then [x] else [], f);
      assert Total([x], f) == f(x) by {
        assert [x][..0] == [];
      }
    }
  }

  /** The groups partition the sequence: summed group by group, f adds up to its sum
      over the whole. */
  lemma {:induction false} GroupsPartition<T>(s: seq<T>, key: T -> string, f: T -> real)
    ensures GroupTotal(s, key, Keys(s, key), f) == Total(s, f)
  {
    if s != [] {
      var n := |s| - 1;
      var u, x := s[..n], s[n];
      assert s == u + [x];
      GroupsPartition(u, key, f);
      KeysStep(u, x, key);
      KeysDistinct(u, key);
      GroupTotalStep(u, x, key, Keys(u, key), f);
      if key(x) !in Keys(u, key) {
        var ks := Keys(u, key) + [key(x)];
        assert ks[..|ks| - 1] == Keys(u, key);
        MembersStep(u, x, key, key(x));
        MembersOfAbsent(u, key, key(x));
        assert Members(s, key, key(x)) == [x];
        assert Total([x], f) == f(x) by {
          assert [x][..0] == [];
        }
      }
    }
  }
}
