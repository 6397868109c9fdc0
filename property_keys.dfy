/** The order in which JavaScript lists the own string keys of an ordinary object
    (Object.keys, Object.values, for-in), as section 10.1.11.1 of ECMAScript 2024
    (OrdinaryOwnPropertyKeys) fixes it: first the keys that are array indices, in
    ascending numeric order, then every other key in the order it was first added.
    A record filled with `obj[id] = ...` and read back with Object.values is read in
    this order, not in plain insertion order, as soon as an id is a decimal number. */
module PropertyKeys {
  import opened Totals
  import opened Grouping
  import Sorting
  import opened Text

  /** The number a string of decimal digits denotes. */
  function DecimalValue(s: string): nat
    requires AllDigits(s)
  {
    if s == "" then 0
    else 10 * DecimalValue(s[..|s| - 1]) + (s[|s| - 1] as int - '0' as int)
  }

  /** An array index: the canonical decimal form (no sign, no leading zero) of a whole
      number below 2^32 - 1. */
  predicate IsArrayIndex(k: string) {
    && k != ""
    && AllDigits(k)
    && (k[0] == '0' ==> |k| == 1)
    && DecimalValue(k) < 0xFFFF_FFFF
  }

  predicate NotArrayIndex(k: string) {
    !IsArrayIndex(k)
  }

  /** The numeric value an array-index key is ordered by. */
  function IndexValue(k: string): real {
    if IsArrayIndex(k) then DecimalValue(k) as real else 0.0
  }

  /** The own keys of an object whose keys were first added in the order `added`. */
  function PropertyOrder(added: seq<string>): seq<string> {
    Sorting.SortAsc(Filter(added, IsArrayIndex), IndexValue) + Filter(added, NotArrayIndex)
  }

  /** Splitting a sequence by a predicate and its negation keeps every element once. */
  lemma {:induction false} FilterSplit(s: seq<string>)
    ensures multiset(Filter(s, IsArrayIndex)) + multiset(Filter(s, NotArrayIndex)) == multiset(s)
  {
    if s != [] {
      var n := |s| - 1;
      FilterSplit(s[..n]);
      assert s == s[..n] + [s[n]];
    }
  }

  /** Everything a filter keeps passes it. */
  lemma FilterHolds(s: seq<string>, p: string -> bool)
    ensures forall i :: 0 <= i < |Filter(s, p)| ==> p(Filter(s, p)[i])
  {
    forall i | 0 <= i < |Filter(s, p)| ensures p(Filter(s, p)[i]) {
      FilterKeeps(s, p, Filter(s, p)[i]);
    }
  }

  /** The object lists every added key, each as often as it was added. */
  lemma PropertyOrderPermutes(added: seq<string>)
    ensures multiset(PropertyOrder(added)) == multiset(added)
    ensures |PropertyOrder(added)| == |added|
  {
    Sorting.SortAscPermutes(Filter(added, IsArrayIndex), IndexValue);
    FilterSplit(added);
    assert |multiset(PropertyOrder(added))| == |multiset(added)|;
  }

  /** A key is listed exactly when it was added, and distinct keys stay distinct. */
  lemma PropertyOrderMembers(added: seq<string>)
    ensures forall k :: k in PropertyOrder(added) <==> k in added
    ensures Distinct(added) ==> Distinct(PropertyOrder(added))
  {
    PropertyOrderPermutes(added);
    forall k ensures k in PropertyOrder(added) <==> k in added {
      assert k in PropertyOrder(added) <==> k in multiset(PropertyOrder(added));
    }
    if Distinct(added) {
      DistinctPermutation(added, PropertyOrder(added));
    }
  }

  /** The listing: the array indices come first, in ascending numeric order, then
      every other key in the order it was added. */
  lemma PropertyOrderSpec(added: seq<string>)
    ensures var keys := PropertyOrder(added);
      var n := |Filter(added, IsArrayIndex)|;
      && n <= |keys|
      && (forall i :: 0 <= i < |keys| ==> (IsArrayIndex(keys[i]) <==> i < n))
      && Sorting.SortedBy(keys[..n], IndexValue)
      && keys[n..] == Filter(added, NotArrayIndex)
  {
    var idx := Filter(added, IsArrayIndex);
    var sorted := Sorting.SortAsc(idx, IndexValue);
    var rest := Filter(added, NotArrayIndex);
    var keys := PropertyOrder(added);
    FilterHolds(added, IsArrayIndex);
    FilterHolds(added, NotArrayIndex);
    SortedIndices(idx);
    Sorting.SortAscSorted(idx, IndexValue);
    assert keys == sorted + rest;
    assert keys[..|idx|] == sorted && keys[|idx|..] == rest;
    forall i | 0 <= i < |keys| ensures IsArrayIndex(keys[i]) <==> i < |idx| {
      if i < |idx| {
        assert keys[i] == sorted[i];
      } else {
        assert keys[i] == rest[i - |idx|];
      }
    }
  }

  /** Sorting the array-index keys keeps their number, and keeps them array indices. */
  lemma SortedIndices(idx: seq<string>)
    requires forall i :: 0 <= i < |idx| ==> IsArrayIndex(idx[i])
    ensures var sorted := Sorting.SortAsc(idx, IndexValue);
      |sorted| == |idx| && forall i :: 0 <= i < |sorted| ==> IsArrayIndex(sorted[i])
  {
    var sorted := Sorting.SortAsc(idx, IndexValue);
    Sorting.SortAscPermutes(idx, IndexValue);
    assert |multiset(sorted)| == |multiset(idx)|;
    forall i | 0 <= i < |sorted| ensures IsArrayIndex(sorted[i]) {
      assert sorted[i] in multiset(idx);
    }
  }

  /** No key passes the array-index filter when none is an array index. */
  lemma {:induction false} NoIndices(s: seq<string>)
    requires forall i :: 0 <= i < |s| ==> NotArrayIndex(s[i])
    ensures Filter(s, IsArrayIndex) == []
  {
    if s != [] {
      NoIndices(s[..|s| - 1]);
    }
  }

  /** With no decimal key among them the keys are listed in the order they were added. */
  lemma PropertyOrderInsertion(added: seq<string>)
    requires forall i :: 0 <= i < |added| ==> NotArrayIndex(added[i])
    ensures PropertyOrder(added) == added
  {
    FilterAll(added, NotArrayIndex);
    NoIndices(added);
  }

  /** Ids added as "b", "2", "a", "10", "1" are listed as "1", "2", "10", "b", "a". */
  lemma PropertyOrderExample()
    ensures PropertyOrder(["b", "2", "a", "10", "1"]) == ["1", "2", "10", "b", "a"]
  {
    ExampleFilters();
    ExampleSort();
  }

  /** The keys of the example that are array indices, and those that are not. */
  lemma ExampleFilters()
    ensures Filter(["b", "2", "a", "10", "1"], IsArrayIndex) == ["2", "10", "1"]
    ensures Filter(["b", "2", "a", "10", "1"], NotArrayIndex) == ["b", "a"]
  {
    ExampleKeys();
    var a1: seq<string> := ["b"];
    var a2 := a1 + ["2"];
    var a3 := a2 + ["a"];
    var a4 := a3 + ["10"];
    var a5 := a4 + ["1"];
    assert a5 == ["b", "2", "a", "10", "1"];
    assert a1 == [] + ["b"];
    FilterStep([], "b", IsArrayIndex); FilterStep([], "b", NotArrayIndex);
    FilterStep(a1, "2", IsArrayIndex); FilterStep(a1, "2", NotArrayIndex);
    FilterStep(a2, "a", IsArrayIndex); FilterStep(a2, "a", NotArrayIndex);
    FilterStep(a3, "10", IsArrayIndex); FilterStep(a3, "10", NotArrayIndex);
    FilterStep(a4, "1", IsArrayIndex); FilterStep(a4, "1", NotArrayIndex);
  }

  /** Which keys of the example are array indices. */
  lemma ExampleKeys()
    ensures IsArrayIndex("2") && IsArrayIndex("10") && IsArrayIndex("1")
    ensures NotArrayIndex("b") && NotArrayIndex("a")
  {
    assert DecimalValue("10") == 10 by {
      assert "10"[..1] == "1";
    }
    assert !IsDigit("b"[0]) && !IsDigit("a"[0]);
  }

  /** The example's array indices in ascending numeric order: "10" after "2". */
  lemma ExampleSort()
    ensures Sorting.SortAsc(["2", "10", "1"], IndexValue) == ["1", "2", "10"]
  {
    assert DecimalValue("10") == 10 by {
      assert "10"[..1] == "1";
    }
    assert IndexValue("1") == 1.0 && IndexValue("2") == 2.0 && IndexValue("10") == 10.0;
    var s3 := ["2", "10", "1"];
    assert s3[1..] == ["10", "1"] && s3[1..][1..] == ["1"] && s3[1..][1..][1..] == [];
    assert Sorting.SortAsc(["1"], IndexValue) == ["1"];
    assert Sorting.Insert("10", ["1"], IndexValue) == ["1", "10"] by {
      assert ["1"][1..] == [];
    }
    assert Sorting.SortAsc(["10", "1"], IndexValue) == ["1", "10"];
    assert Sorting.Insert("2", ["1", "10"], IndexValue) == ["1", "2", "10"] by {
      assert ["1", "10"][1..] == ["10"];
      assert Sorting.Insert("2", ["10"], IndexValue) == ["2", "10"];
    }
  }
}
