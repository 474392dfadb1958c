/** The monthly trend chart: turns the `monthly_trend` object into a series of
    `{month, amount}` points sorted by month. `localeCompare` is modelled as
    code-point order, which agrees with it on `YYYY-MM` keys. */
module TrendChart {
  import opened Common
  import opened Sorting
  import opened JsObjects

  datatype TrendPoint = TrendPoint(month: string, amount: real)

  function ToPoint(e: (string, real)): TrendPoint {
    TrendPoint(e.0, e.1)
  }

  /** Comparator `a.month.localeCompare(b.month)`, ascending. */
  predicate MonthLe(a: TrendPoint, b: TrendPoint) {
    LexLe(a.month, b.month)
  }

  /** `chartData`: absent input gives the empty series; otherwise the entries,
      mapped to points, sorted by month. */
  function ChartData(data: Option<seq<(string, real)>>): (r: seq<TrendPoint>)
    ensures data.None? ==> r == []
    ensures data.Some? ==> |r| == |data.value|
  {
    if data.None? then []
    else SortBy(MapSeq(ToPoint, ObjectEntries(data.value)), MonthLe)
  }

  /** The chart renders nothing for an absent or empty object. */
  predicate Renders(data: Option<seq<(string, real)>>) {
    data.Some? && |data.value| != 0
  }

  lemma MonthLeTotalPreorder()
    ensures TotalPreorder(MonthLe)
  {
    forall a: TrendPoint, b: TrendPoint
      ensures MonthLe(a, b) || MonthLe(b, a)
    {
      LexLeTotal(a.month, b.month);
    }
    forall a: TrendPoint, b: TrendPoint, c: TrendPoint | MonthLe(a, b) && MonthLe(b, c)
      ensures MonthLe(a, c)
    {
      LexLeTransitive(a.month, b.month, c.month);
    }
  }

  /** One point per entry, month and amount copied: the series is a
      permutation of the entries. */
  lemma ChartDataIsPermutation(data: seq<(string, real)>)
    ensures multiset(ChartData(Some(data))) == multiset(MapSeq(ToPoint, data))
  {
    ObjectEntriesPermutation(data);
    MapPermutation(ToPoint, ObjectEntries(data), data);
  }

  /** The series is in ascending month order. */
  lemma ChartDataSorted(data: Option<seq<(string, real)>>)
    ensures var r := ChartData(data);
      forall i, j :: 0 <= i < j < |r| ==> LexLe(r[i].month, r[j].month)
  {
    if data.Some? {
      MonthLeTotalPreorder();
      SortBySorted(MapSeq(ToPoint, ObjectEntries(data.value)), MonthLe);
    }
  }

  /** Re-sorting the series leaves it unchanged. */
  lemma ChartDataResortUnchanged(data: Option<seq<(string, real)>>)
    ensures SortBy(ChartData(data), MonthLe) == ChartData(data)
  {
    ChartDataSorted(data);
    SortByOfSorted(ChartData(data), MonthLe);
  }

  // ---------------------------------------------------------------------
  // Month keys

  /** A `YYYY-MM` key: four digits, a dash, two digits. */
  predicate IsMonthKey(k: string) {
    |k| == 7 && AllDigits(k[..4]) && k[4] == '-' && AllDigits(k[5..])
  }

  function Year(k: string): nat
    requires IsMonthKey(k)
  {
    DecimalValue(k[..4])
  }

  function Month(k: string): nat
    requires IsMonthKey(k)
  {
    DecimalValue(k[5..])
  }

  /** Month keys are not array indices, so `Object.entries` keeps their
      insertion order. */
  lemma MonthKeyIsNotArrayIndex(k: string)
    requires IsMonthKey(k)
    ensures !IsArrayIndex(k)
  {
    assert !IsDigit(k[4]);
  }

  /** For `YYYY-MM` keys the sort order is chronological: by year, then month. */
  lemma {:induction false} MonthOrderIsChronological(a: string, b: string)
    requires IsMonthKey(a) && IsMonthKey(b)
    ensures LexLe(a, b) <==> Year(a) < Year(b) || (Year(a) == Year(b) && Month(a) <= Month(b))
  {
    assert a == a[..4] + a[4..] && b == b[..4] + b[4..];
    LexLeAppend(a[..4], a[4..], b[..4], b[4..]);
    LexLeIsNumericOrder(a[..4], b[..4]);
    assert a[4..] == [a[4]] + a[5..] && b[4..] == [b[4]] + b[5..];
    LexLeAppend([a[4]], a[5..], [b[4]], b[5..]);
    LexLeIsNumericOrder(a[5..], b[5..]);
  }

  /** Keys that differ only in their last character compare by that character. */
  lemma LexLeLastChar(p: string, x: char, y: char)
    ensures LexLe(p + [x], p + [y]) <==> x <= y
  {
    LexLeAppend(p, [x], p, [y]);
  }

  lemma SortTwo(p0: TrendPoint, p1: TrendPoint)
    requires !MonthLe(p0, p1)
    ensures SortBy([p0, p1], MonthLe) == [p1, p0]
  {
    assert [p0, p1][..1] == [p0];
    assert [p0][..0] == [];
    assert SortBy([p0], MonthLe) == [p0];
    assert Insert([p0], p1, MonthLe) == [p1, p0];
  }

  lemma InsertBetween(p0: TrendPoint, p1: TrendPoint, p2: TrendPoint)
    requires !MonthLe(p0, p2) && MonthLe(p1, p2)
    ensures Insert([p1, p0], p2, MonthLe) == [p1, p2, p0]
  {
    var r := [p1, p0];
    assert r == [p1] + [p0];
    assert r[..1] == [p1];
    InsertAtEnd([p1], p2, MonthLe);
    assert Insert(r, p2, MonthLe) == Insert([p1], p2, MonthLe) + [p0];
  }

  lemma SortThree(p0: TrendPoint, p1: TrendPoint, p2: TrendPoint)
    requires !MonthLe(p0, p1) && !MonthLe(p0, p2) && MonthLe(p1, p2)
    ensures SortBy([p0, p1, p2], MonthLe) == [p1, p2, p0]
  {
    assert [p0, p1, p2][..2] == [p0, p1];
    SortTwo(p0, p1);
    InsertBetween(p0, p1, p2);
  }

  lemma MonthKeysOfExample(data: seq<(string, real)>)
    requires data == [("2024-03", 10.0), ("2024-01", 5.0), ("2024-02", 7.0)]
    ensures ObjectEntries(data) == data
  {
    forall i | 0 <= i < |data|
      ensures !IsArrayIndex(data[i].0)
    {
      assert data[i].0[4] == '-';
    }
    ObjectEntriesNoIndexKeys(data);
  }

  lemma ExampleMonthOrder(p0: TrendPoint, p1: TrendPoint, p2: TrendPoint)
    requires p0.month == "2024-03" && p1.month == "2024-01" && p2.month == "2024-02"
    ensures !MonthLe(p0, p1) && !MonthLe(p0, p2) && MonthLe(p1, p2)
  {
    var pre := "2024-0";
    assert p1.month == pre + ['1'] && p2.month == pre + ['2'] && p0.month == pre + ['3'];
    LexLeLastChar(pre, '3', '1');
    LexLeLastChar(pre, '3', '2');
    LexLeLastChar(pre, '1', '2');
  }

  /** Three entries whose keys are not array indices, the first sorting after
      the other two, come out with the first entry moved to the end. */
  lemma ChartDataOfThree(data: seq<(string, real)>, p0: TrendPoint, p1: TrendPoint, p2: TrendPoint)
    requires data == [(p0.month, p0.amount), (p1.month, p1.amount), (p2.month, p2.amount)]
    requires ObjectEntries(data) == data
    requires !MonthLe(p0, p1) && !MonthLe(p0, p2) && MonthLe(p1, p2)
    ensures ChartData(Some(data)) == [p1, p2, p0]
  {
    var points := MapSeq(ToPoint, data);
    assert ChartData(Some(data)) == SortBy(points, MonthLe);
    assert points == [p0, p1, p2] by {
      assert points[0] == p0 && points[1] == p1 && points[2] == p2;
    }
    SortThree(p0, p1, p2);
  }

  /** The example series: three months given out of order come out in
      calendar order. */
  lemma ThreeMonthExample()
    ensures ChartData(Some([("2024-03", 10.0), ("2024-01", 5.0), ("2024-02", 7.0)]))
         == [TrendPoint("2024-01", 5.0), TrendPoint("2024-02", 7.0), TrendPoint("2024-03", 10.0)]
  {
    var data := [("2024-03", 10.0), ("2024-01", 5.0), ("2024-02", 7.0)];
    var p0, p1, p2 := TrendPoint("2024-03", 10.0), TrendPoint("2024-01", 5.0), TrendPoint("2024-02", 7.0);
    MonthKeysOfExample(data);
    ExampleMonthOrder(p0, p1, p2);
    ChartDataOfThree(data, p0, p1, p2);
  }
}
