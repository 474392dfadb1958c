/** The order in which `Object.entries` lists a JavaScript object's own
    string-keyed properties (OrdinaryOwnPropertyKeys, section 10.1.11.1 of
    ECMA-262, 2022 edition): first every key that is an array index, in
    ascending numeric order, then every other key in the order the properties
    were created. An object is modelled by its entries in creation order. */
module JsObjects {
  import opened Common
  import opened Sorting

  /** Largest array index plus one: array indices are below 2^32 - 1. */
  const ArrayIndexLimit: nat := 4294967295

  /** `k` is the canonical decimal form of an integer `n` with
      0 <= n < 2^32 - 1 ("0", "7", "42", but not "07" or "-1"). */
  predicate IsArrayIndex(k: string) {
    && |k| > 0
    && AllDigits(k)
    && (k[0] != '0' || |k| == 1)
    && DecimalValue(k) < ArrayIndexLimit
  }

  predicate IsIndexEntry<V>(e: (string, V)) {
    IsArrayIndex(e.0)
  }

  predicate IsNamedEntry<V>(e: (string, V)) {
    !IsArrayIndex(e.0)
  }

  /** Ascending numeric order of index keys. */
  predicate IndexLe<V>(a: (string, V), b: (string, V)) {
    DecimalValue(a.0) <= DecimalValue(b.0)
  }

  lemma IndexLeTotalPreorder<V(!new)>()
    ensures TotalPreorder((a: (string, V), b: (string, V)) => IndexLe(a, b))
  {
  }

  function ObjectEntries<V>(entries: seq<(string, V)>): (r: seq<(string, V)>)
    ensures |r| == |entries|
  {
    FilterSplit(entries, IsIndexEntry, IsNamedEntry);
    assert |multiset(Filter(entries, IsIndexEntry))| + |multiset(Filter(entries, IsNamedEntry))|
        == |multiset(entries)|;
    SortBy(Filter(entries, IsIndexEntry), (a: (string, V), b: (string, V)) => IndexLe(a, b))
      + Filter(entries, IsNamedEntry)
  }

  function Key<V>(e: (string, V)): string {
    e.0
  }

  /** `Object.keys`, in the order the entries are given. */
  function Keys<V>(entries: seq<(string, V)>): (ks: seq<string>)
    ensures |ks| == |entries|
    ensures forall i :: 0 <= i < |entries| ==> ks[i] == entries[i].0
  {
    MapSeq(Key, entries)
  }

  /** `Object.entries` lists every property exactly once. */
  lemma ObjectEntriesPermutation<V>(entries: seq<(string, V)>)
    ensures multiset(ObjectEntries(entries)) == multiset(entries)
  {
    FilterSplit(entries, IsIndexEntry, IsNamedEntry);
  }

  /** An object none of whose keys is an array index is listed in creation
      order, as a month-keyed trend map is. */
  lemma ObjectEntriesNoIndexKeys<V>(entries: seq<(string, V)>)
    requires forall i :: 0 <= i < |entries| ==> !IsArrayIndex(entries[i].0)
    ensures ObjectEntries(entries) == entries
  {
    FilterNone(entries, IsIndexEntry);
    FilterAll(entries, IsNamedEntry);
  }

  /** Index keys come first, in ascending numeric order, and precede every
      other key, which keep their creation order. */
  lemma ObjectEntriesOrder<V(!new)>(entries: seq<(string, V)>)
    ensures var r := ObjectEntries(entries);
      var n := |Filter(entries, IsIndexEntry)|;
      && n <= |r|
      && (forall i :: 0 <= i < n ==> IsArrayIndex(r[i].0))
      && (forall i, j :: 0 <= i < j < n ==> DecimalValue(r[i].0) <= DecimalValue(r[j].0))
      && r[n..] == Filter(entries, IsNamedEntry)
  {
    var le := (a: (string, V), b: (string, V)) => IndexLe(a, b);
    var idx := Filter(entries, IsIndexEntry);
    var sorted := SortBy(idx, le);
    IndexLeTotalPreorder<V>();
    SortBySorted(idx, le);
    var r := ObjectEntries(entries);
    assert r == sorted + Filter(entries, IsNamedEntry);
    assert r[..|idx|] == sorted;
    forall i | 0 <= i < |idx|
      ensures IsArrayIndex(r[i].0)
    {
      assert sorted[i] in multiset(idx);
      assert IsIndexEntry(sorted[i]);
    }
  }
}
