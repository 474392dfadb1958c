/** The Benford chart: one bar pair per distribution entry, the fractions
    shown as percentages. The one-decimal rendering (`toFixed(1)`) is not
    modelled. A fraction the entry does not carry is kept as `None` here,
    where the page would show "NaN" for an absent field and "0.0" for a
    null one; the engine always writes both fractions as finite numbers. */
module BenfordChart {
  import opened Common
  import opened Sorting
  import opened JsObjects
  import opened Report

  datatype ChartRow = ChartRow(digit: string, actual: Option<real>, expected: Option<real>)

  function Percent(f: Option<real>): Option<real> {
    if f.None? then None else Some(f.value * 100.0)
  }

  function ToRow(e: (string, DigitFreq)): ChartRow {
    ChartRow(e.0, Percent(e.1.actual), Percent(e.1.expected))
  }

  function RowDigit(row: ChartRow): string {
    row.digit
  }

  /** The chart's `data`: `None` when there is no distribution (nothing is
      rendered); otherwise one row per `Object.entries` entry. */
  function ChartRows(dist: Option<seq<(string, DigitFreq)>>): (r: Option<seq<ChartRow>>)
    ensures r.None? <==> dist.None?
    ensures r.Some? ==> |r.value| == |dist.value|
  {
    if dist.None? then None else Some(MapSeq(ToRow, ObjectEntries(dist.value)))
  }

  /** Nothing is dropped or duplicated: the rows are the entries' rows in
      some order. */
  lemma ChartRowsPermutation(dist: seq<(string, DigitFreq)>)
    ensures multiset(ChartRows(Some(dist)).value) == multiset(MapSeq(ToRow, dist))
  {
    ObjectEntriesPermutation(dist);
    MapPermutation(ToRow, ObjectEntries(dist), dist);
  }

  /** A row's bars are the entry's fractions times 100. */
  lemma ChartRowValues(dist: seq<(string, DigitFreq)>, i: nat)
    requires i < |dist|
    ensures var rows := ChartRows(Some(dist)).value;
      exists j :: 0 <= j < |rows| && rows[j].digit == dist[i].0
        && (dist[i].1.actual.Some? ==> rows[j].actual == Some(dist[i].1.actual.value * 100.0))
        && (dist[i].1.expected.Some? ==> rows[j].expected == Some(dist[i].1.expected.value * 100.0))
  {
    var rows := ChartRows(Some(dist)).value;
    ChartRowsPermutation(dist);
    assert MapSeq(ToRow, dist)[i] == ToRow(dist[i]);
    assert ToRow(dist[i]) in multiset(rows);
    var j :| 0 <= j < |rows| && rows[j] == ToRow(dist[i]);
  }

  /** Rows of digit-like keys come first in ascending numeric order; the
      remaining rows follow in insertion order. */
  lemma ChartRowsOrder(dist: seq<(string, DigitFreq)>)
    ensures var rows := ChartRows(Some(dist)).value;
      var n := |Filter(dist, IsIndexEntry)|;
      && n <= |rows|
      && (forall i :: 0 <= i < n ==> IsArrayIndex(rows[i].digit))
      && (forall i, j :: 0 <= i < j < n ==> DecimalValue(rows[i].digit) <= DecimalValue(rows[j].digit))
      && rows[n..] == MapSeq(ToRow, Filter(dist, IsNamedEntry))
  {
    var entries := ObjectEntries(dist);
    var n := |Filter(dist, IsIndexEntry)|;
    ObjectEntriesOrder(dist);
    assert entries == entries[..n] + entries[n..];
    MapSeqAppend(ToRow, entries[..n], entries[n..]);
  }

  // ---------------------------------------------------------------------
  // The nine digit keys

  lemma DigitKeyFacts(i: nat)
    requires i < 9
    ensures IsArrayIndex(DigitKeys[i]) && DecimalValue(DigitKeys[i]) == i + 1
  {
    var k := DigitKeys[i];
    assert |k| == 1 && k[0] == (i + '1' as int) as char;
    assert k[..0] == [];
  }

  /** Numeric order of keys. */
  predicate KeyLe(x: string, y: string) {
    DecimalValue(x) <= DecimalValue(y)
  }

  lemma DigitKeysOrdered()
    ensures SortedBy(DigitKeys, KeyLe) && StrictlyComparable(DigitKeys, KeyLe)
  {
    forall i | 0 <= i < 9
      ensures DecimalValue(DigitKeys[i]) == i + 1
    {
      DigitKeyFacts(i);
    }
  }

  lemma DigitKeysAreIndices(dist: seq<(string, DigitFreq)>)
    requires multiset(Keys(dist)) == multiset(DigitKeys)
    ensures forall i :: 0 <= i < |dist| ==> IsArrayIndex(dist[i].0)
  {
    forall i | 0 <= i < |dist|
      ensures IsArrayIndex(dist[i].0)
    {
      assert Keys(dist)[i] in multiset(DigitKeys);
      var k :| 0 <= k < 9 && DigitKeys[k] == dist[i].0;
      DigitKeyFacts(k);
    }
  }

  /** When every key is an array index, the keys come out in numeric order. */
  lemma IndexKeysSorted(dist: seq<(string, DigitFreq)>)
    requires forall i :: 0 <= i < |dist| ==> IsArrayIndex(dist[i].0)
    ensures SortedBy(Keys(ObjectEntries(dist)), KeyLe)
  {
    var entries := ObjectEntries(dist);
    ObjectEntriesOrder(dist);
    FilterAll(dist, IsIndexEntry);
    var keys := Keys(entries);
    forall i, j | 0 <= i < j < |keys|
      ensures KeyLe(keys[i], keys[j])
    {
    }
  }

  lemma DigitKeysInOrder(dist: seq<(string, DigitFreq)>)
    requires multiset(Keys(dist)) == multiset(DigitKeys)
    ensures Keys(ObjectEntries(dist)) == DigitKeys
  {
    DigitKeysAreIndices(dist);
    IndexKeysSorted(dist);
    var entries := ObjectEntries(dist);
    var keys := Keys(entries);
    assert multiset(keys) == multiset(DigitKeys) by {
      ObjectEntriesPermutation(dist);
      MapPermutation(Key, entries, dist);
    }
    DigitKeysOrdered();
    SortedPermutationUnique(DigitKeys, keys, KeyLe);
  }

  lemma RowDigitsAreKeys(entries: seq<(string, DigitFreq)>)
    ensures MapSeq(RowDigit, MapSeq(ToRow, entries)) == Keys(entries)
  {
  }

  /** Whatever order the backend inserted the nine digit keys in, the chart
      shows the digits 1 to 9 in ascending order. */
  lemma DigitRowsInOrder(dist: seq<(string, DigitFreq)>)
    requires multiset(Keys(dist)) == multiset(DigitKeys)
    ensures MapSeq(RowDigit, ChartRows(Some(dist)).value) == DigitKeys
  {
    DigitKeysInOrder(dist);
    RowDigitsAreKeys(ObjectEntries(dist));
  }
}
