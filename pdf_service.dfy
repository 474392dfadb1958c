/** The PDF report: the document's elements in order, and in particular the
    rows of its metadata, trend, category and digit tables and the verdict
    colour.

    The document is the list of elements appended to it; the page layout,
    table styles and reportlab's rendering are not modelled, and amounts
    stay numbers instead of `,.2f`/`.1f` strings. A Python dict is its
    entries in insertion order. Where the report iterates sorted keys and
    looks each one up, the model sorts the entries by key, which is the
    same for a dict's distinct keys. */
module PdfService {
  import opened Common
  import opened Sorting
  import opened JsObjects
  import opened Report
  import AnalysisInsights

  /** The stored analysis document the report is generated from. */
  datatype StoredAnalysis = StoredAnalysis(
    filename: Option<string>,
    timestamp: Option<string>,
    status: Option<string>,
    rowCount: Option<int>,
    report: Option<AnalysisReport>)

  datatype Row =
    | Cells(cells: seq<string>)
    | AmountRow(metric: string, amount: real)
    | CountRow(metric: string, count: int)
    | TrendRow(month: string, amount: real)
    | CategoryRow(category: string, count: int, sum: real)
    | DigitRow(digit: string, actual: real, expected: real, difference: real)

  datatype Element =
    | Paragraph(text: string)
    | Spacer(height: nat)
    | Table(rows: seq<Row>)
    | VerdictLine(colour: string, verdict: string)
    | ScoreLine(score: real)

  const ReportTitle: string := "Financial Analysis Report"
  const SpendingTitle: string := "Spending Overview"
  const TrendTitle: string := "Monthly Spending Trend"
  const CategoryTitle: string := "Top Spending Categories"
  const BenfordTitle: string := "Fraud Detection (Benford's Law)"
  const DigitTitle: string := "Digit Distribution (First 5)"

  const TrendHeader: Row := Cells(["Month", "Total Amount"])
  const CategoryHeader: Row := Cells(["Category", "Trans. Count", "Total Amount"])
  const DigitHeader: Row := Cells(["Digit", "Actual %", "Expected %", "Difference"])

  function OrElse<T>(v: Option<T>, default: T): T {
    if v.Some? then v.value else default
  }

  // ---------------------------------------------------------------------
  // Metadata and summary tables

  /** `meta_info`, each missing field replaced by its default. */
  function MetaRows(data: StoredAnalysis): (rows: seq<Row>)
    ensures |rows| == 4
  {
    [Cells(["Filename:", OrElse(data.filename, "Unknown File")]),
     Cells(["Analysis Date:", OrElse(data.timestamp, "Unknown Date")]),
     Cells(["Status:", OrElse(data.status, "N/A")]),
     Cells(["Rows Analyzed:", IntToDecimal(OrElse(data.rowCount, 0))])]
  }

  /** A missing filename, date, status or row count is shown as "Unknown
      File", "Unknown Date", "N/A" and "0"; a present one as stored. */
  lemma MetadataDefaults(data: StoredAnalysis)
    ensures MetaRows(data)[0] == Cells(["Filename:", if data.filename.None? then "Unknown File" else data.filename.value])
    ensures MetaRows(data)[1] == Cells(["Analysis Date:", if data.timestamp.None? then "Unknown Date" else data.timestamp.value])
    ensures MetaRows(data)[2] == Cells(["Status:", if data.status.None? then "N/A" else data.status.value])
    ensures data.rowCount.None? ==> MetaRows(data)[3] == Cells(["Rows Analyzed:", "0"])
    ensures data.rowCount.Some? ==> MetaRows(data)[3] == Cells(["Rows Analyzed:", IntToDecimal(data.rowCount.value)])
  {
    assert IntToDecimal(0) == "0";
  }

  /** `summary_data`, each missing figure read as 0. */
  function SummaryRows(s: SpendingSummary): seq<Row> {
    [Cells(["Metric", "Value"]),
     AmountRow("Total Volume", OrElse(s.totalVolume, 0.0)),
     CountRow("Transaction Count", OrElse(s.transactionCount, 0)),
     AmountRow("Avg Transaction", OrElse(s.avgTransaction, 0.0)),
     AmountRow("Net Flow", OrElse(s.netFlow, 0.0))]
  }

  // ---------------------------------------------------------------------
  // Trend table

  /** `sorted(monthly_trend.keys())`: Python's code-point string order. */
  predicate MonthKeyLe(a: (string, real), b: (string, real)) {
    LexLe(a.0, b.0)
  }

  lemma MonthKeyLeTotalPreorder()
    ensures TotalPreorder(MonthKeyLe)
  {
    forall a: (string, real), b: (string, real)
      ensures MonthKeyLe(a, b) || MonthKeyLe(b, a)
    {
      LexLeTotal(a.0, b.0);
    }
    forall a: (string, real), b: (string, real), c: (string, real) | MonthKeyLe(a, b) && MonthKeyLe(b, c)
      ensures MonthKeyLe(a, c)
    {
      LexLeTransitive(a.0, b.0, c.0);
    }
  }

  function ToTrendRow(e: (string, real)): Row {
    TrendRow(e.0, e.1)
  }

  function TrendRows(trend: seq<(string, real)>): seq<Row> {
    [TrendHeader] + MapSeq(ToTrendRow, SortBy(trend, MonthKeyLe))
  }

  /** Builds `trend_data` one month at a time. */
  method TrendTable(trend: seq<(string, real)>) returns (trendData: seq<Row>)
    ensures trendData == TrendRows(trend)
  {
    trendData := [TrendHeader];
    var sortedMonths := SortBy(trend, MonthKeyLe);
    for i := 0 to |sortedMonths|
      invariant trendData == [TrendHeader] + MapSeq(ToTrendRow, sortedMonths[..i])
    {
      MapSeqPrefix(ToTrendRow, sortedMonths, i);
      trendData := trendData + [ToTrendRow(sortedMonths[i])];
      assert trendData == [TrendHeader] + (MapSeq(ToTrendRow, sortedMonths[..i]) + [ToTrendRow(sortedMonths[i])]);
    }
    assert sortedMonths[..|sortedMonths|] == sortedMonths;
  }

  /** The trend table is a header and then one row per month, carrying the
      month's amount, in ascending key order: n + 1 rows. */
  lemma TrendTableShape(trend: seq<(string, real)>)
    ensures var rows := TrendRows(trend);
            |rows| == |trend| + 1 && rows[0] == TrendHeader
            && multiset(rows[1..]) == multiset(MapSeq(ToTrendRow, trend))
            && forall i, j :: 1 <= i < j < |rows| ==> LexLe(rows[i].month, rows[j].month)
  {
    var sorted := SortBy(trend, MonthKeyLe);
    MonthKeyLeTotalPreorder();
    SortBySorted(trend, MonthKeyLe);
    MapPermutation(ToTrendRow, sorted, trend);
    assert TrendRows(trend)[1..] == MapSeq(ToTrendRow, sorted);
  }

  // ---------------------------------------------------------------------
  // Category table

  function ToCategoryRow(e: (string, CategoryStats)): Row {
    CategoryRow(e.0, OrElse(e.1.count, 0), OrElse(e.1.sum, 0.0))
  }

  /** `sorted(items, key=abs(sum or 0), reverse=True)`: a stable sort by
      descending magnitude, the same order the dashboard uses. */
  function SortedCategories(cats: seq<(string, CategoryStats)>): seq<(string, CategoryStats)> {
    SortBy(cats, AnalysisInsights.AbsSumDesc)
  }

  function CategoryRows(cats: seq<(string, CategoryStats)>): seq<Row> {
    [CategoryHeader] + MapSeq(ToCategoryRow, SortedCategories(cats))
  }

  /** Builds `cat_data` one category at a time. */
  method CategoryTable(cats: seq<(string, CategoryStats)>) returns (catData: seq<Row>)
    ensures catData == CategoryRows(cats)
  {
    catData := [CategoryHeader];
    var sortedCats := SortedCategories(cats);
    for i := 0 to |sortedCats|
      invariant catData == [CategoryHeader] + MapSeq(ToCategoryRow, sortedCats[..i])
    {
      MapSeqPrefix(ToCategoryRow, sortedCats, i);
      catData := catData + [ToCategoryRow(sortedCats[i])];
      assert catData == [CategoryHeader] + (MapSeq(ToCategoryRow, sortedCats[..i]) + [ToCategoryRow(sortedCats[i])]);
    }
    assert sortedCats[..|sortedCats|] == sortedCats;
  }

  /** The category table lists every category once after its header, by
      descending |sum| (a missing sum counting as 0), and categories of equal
      magnitude keep their stored order. */
  lemma CategoryTableShape(cats: seq<(string, CategoryStats)>, c: (string, CategoryStats))
    ensures var sorted := SortedCategories(cats);
            var rows := CategoryRows(cats);
            |rows| == |cats| + 1 && rows[0] == CategoryHeader
            && rows[1..] == MapSeq(ToCategoryRow, sorted)
            && multiset(sorted) == multiset(cats)
            && (forall i, j :: 0 <= i < j < |sorted| ==>
                  AnalysisInsights.SumMagnitude(sorted[i]) >= AnalysisInsights.SumMagnitude(sorted[j]))
            && Filter(sorted, EquivTo(AnalysisInsights.AbsSumDesc, c))
               == Filter(cats, EquivTo(AnalysisInsights.AbsSumDesc, c))
  {
    var le := AnalysisInsights.AbsSumDesc;
    AnalysisInsights.AbsSumDescTotalPreorder();
    SortBySorted(cats, le);
    SortByStable(cats, le, c);
    assert CategoryRows(cats)[1..] == MapSeq(ToCategoryRow, SortedCategories(cats));
  }

  // ---------------------------------------------------------------------
  // Digit table

  /** `k.isdigit()`, for ASCII digits. */
  predicate IsDigitKey(e: (string, DigitFreq)) {
    |e.0| > 0 && AllDigits(e.0)
  }

  function Take<T>(s: seq<T>, n: nat): (r: seq<T>)
    ensures |r| == if |s| <= n then |s| else n
    ensures r == s[..|r|]
  {
    if |s| <= n then s else s[..n]
  }

  /** The digit entries shown: the all-digit keys, sorted by `int(k)`,
      first five. */
  function ShownDigits(dist: seq<(string, DigitFreq)>): seq<(string, DigitFreq)> {
    Take(SortBy(Filter(dist, IsDigitKey), (a: (string, DigitFreq), b: (string, DigitFreq)) => IndexLe(a, b)), 5)
  }

  function ToDigitRow(e: (string, DigitFreq)): Row {
    var actual := OrElse(e.1.actual, 0.0) * 100.0;
    var expected := OrElse(e.1.expected, 0.0) * 100.0;
    DigitRow(e.0, actual, expected, Abs(actual - expected))
  }

  function DigitRows(dist: seq<(string, DigitFreq)>): seq<Row> {
    [DigitHeader] + MapSeq(ToDigitRow, ShownDigits(dist))
  }

  /** Builds `dist_data` one digit at a time. */
  method DigitTable(dist: seq<(string, DigitFreq)>) returns (distData: seq<Row>)
    ensures distData == DigitRows(dist)
  {
    distData := [DigitHeader];
    var sortedKeys := ShownDigits(dist);
    for i := 0 to |sortedKeys|
      invariant distData == [DigitHeader] + MapSeq(ToDigitRow, sortedKeys[..i])
    {
      MapSeqPrefix(ToDigitRow, sortedKeys, i);
      distData := distData + [ToDigitRow(sortedKeys[i])];
      assert distData == [DigitHeader] + (MapSeq(ToDigitRow, sortedKeys[..i]) + [ToDigitRow(sortedKeys[i])]);
    }
    assert sortedKeys[..|sortedKeys|] == sortedKeys;
  }

  function SortedDigits(dist: seq<(string, DigitFreq)>): seq<(string, DigitFreq)> {
    SortBy(Filter(dist, IsDigitKey), (a: (string, DigitFreq), b: (string, DigitFreq)) => IndexLe(a, b))
  }

  lemma SortedDigitsFacts(dist: seq<(string, DigitFreq)>)
    ensures ShownDigits(dist) == Take(SortedDigits(dist), 5)
    ensures |SortedDigits(dist)| == |Filter(dist, IsDigitKey)|
    ensures SortedBy(SortedDigits(dist), (a: (string, DigitFreq), b: (string, DigitFreq)) => IndexLe(a, b))
  {
    IndexLeTotalPreorder<DigitFreq>();
    SortBySorted(Filter(dist, IsDigitKey), (a: (string, DigitFreq), b: (string, DigitFreq)) => IndexLe(a, b));
  }

  /** A header and at most five digit rows, one per all-digit key up to
      five. */
  lemma DigitTableSize(dist: seq<(string, DigitFreq)>)
    ensures var n := |Filter(dist, IsDigitKey)|;
            |DigitRows(dist)| == 1 + (if n <= 5 then n else 5)
  {
    SortedDigitsFacts(dist);
  }

  /** Every shown entry is an entry of the distribution with an all-digit
      key. */
  lemma ShownDigitsAreDigitKeys(dist: seq<(string, DigitFreq)>)
    ensures forall e :: e in ShownDigits(dist) ==> IsDigitKey(e) && e in dist
  {
    SortedDigitsFacts(dist);
    var digits := Filter(dist, IsDigitKey);
    var sorted := SortedDigits(dist);
    forall e | e in ShownDigits(dist)
      ensures IsDigitKey(e) && e in dist
    {
      assert e in sorted;
      assert e in multiset(digits);
    }
  }

  /** The shown keys ascend numerically, and every all-digit key left out
      is at least as large as each shown one. */
  lemma ShownDigitsSmallest(dist: seq<(string, DigitFreq)>)
    ensures var shown := ShownDigits(dist);
            var sorted := SortedDigits(dist);
            (forall i, j :: 0 <= i < j < |shown| ==> DecimalValue(shown[i].0) <= DecimalValue(shown[j].0))
            && (forall i, j :: 0 <= i < |shown| <= j < |sorted| ==> DecimalValue(shown[i].0) <= DecimalValue(sorted[j].0))
  {
    SortedDigitsFacts(dist);
  }

  /** Each digit row shows the fractions in percent, a missing fraction as
      0, and their absolute difference, which is never negative. */
  lemma DigitDifferences(e: (string, DigitFreq))
    ensures var r := ToDigitRow(e);
            r.digit == e.0
            && r.actual == (if e.1.actual.None? then 0.0 else e.1.actual.value * 100.0)
            && r.expected == (if e.1.expected.None? then 0.0 else e.1.expected.value * 100.0)
            && r.difference >= 0.0
            && (r.difference == r.actual - r.expected || r.difference == r.expected - r.actual)
  {
  }

  /** The backend's distribution, keys "1" to "9", is shown as its first
      five entries, the digits 1 to 5. */
  lemma EngineDistributionShowsFirstFive(dist: seq<(string, DigitFreq)>)
    requires Keys(dist) == DigitKeys
    ensures ShownDigits(dist) == dist[..5]
    ensures Keys(ShownDigits(dist)) == ["1", "2", "3", "4", "5"]
  {
    EngineDigitsAlreadySorted(dist);
    assert Keys(dist[..5]) == DigitKeys[..5];
  }

  lemma EngineDigitsAlreadySorted(dist: seq<(string, DigitFreq)>)
    requires Keys(dist) == DigitKeys
    ensures SortedDigits(dist) == dist
  {
    var le := (a: (string, DigitFreq), b: (string, DigitFreq)) => IndexLe(a, b);
    EngineKeysAreDigits(dist);
    FilterAll(dist, IsDigitKey);
    assert SortedBy(dist, le);
    SortByOfSorted(dist, le);
  }

  lemma EngineKeysAreDigits(dist: seq<(string, DigitFreq)>)
    requires Keys(dist) == DigitKeys
    ensures forall i :: 0 <= i < |dist| ==> IsDigitKey(dist[i]) && DecimalValue(dist[i].0) == i + 1
  {
    forall i | 0 <= i < |dist|
      ensures IsDigitKey(dist[i]) && DecimalValue(dist[i].0) == i + 1
    {
      DigitKeyValue(i);
    }
  }

  lemma DigitKeyValue(i: nat)
    requires i < 9
    ensures |DigitKeys[i]| == 1 && AllDigits(DigitKeys[i]) && DecimalValue(DigitKeys[i]) == i + 1
  {
    var k := DigitKeys[i];
    assert k[..0] == [];
  }

  // ---------------------------------------------------------------------
  // Verdict colour

  function VerdictColour(verdict: string): string {
    if verdict == "Pass" then "green" else if verdict == "Fail" then "red" else "orange"
  }

  /** Green exactly for "Pass", red exactly for "Fail", orange for anything
      else, "Suspicious" and a missing verdict ("Unknown") included. */
  lemma VerdictColours(verdict: string)
    ensures VerdictColour(verdict) == "green" <==> verdict == "Pass"
    ensures VerdictColour(verdict) == "red" <==> verdict == "Fail"
    ensures VerdictColour(verdict) == "orange" <==> verdict != "Pass" && verdict != "Fail"
    ensures VerdictColour("Suspicious") == "orange" && VerdictColour("Unknown") == "orange"
  {
  }

  // ---------------------------------------------------------------------
  // The document

  function SpendingOf(data: StoredAnalysis): Option<SpendingSummary> {
    if data.report.None? then None else data.report.value.spendingSummary
  }

  function BenfordOf(data: StoredAnalysis): Option<BenfordAnalysis> {
    if data.report.None? then None else data.report.value.benfordAnalysis
  }

  function TrendSection(trend: Option<seq<(string, real)>>): seq<Element> {
    if trend.None? || trend.value == [] then []
    else [Paragraph(TrendTitle), Spacer(5), Table(TrendRows(trend.value)), Spacer(20)]
  }

  function CategorySection(cats: Option<seq<(string, CategoryStats)>>): seq<Element> {
    if cats.None? || cats.value == [] then []
    else [Paragraph(CategoryTitle), Spacer(5), Table(CategoryRows(cats.value)), Spacer(20)]
  }

  function SpendingSection(spending: Option<SpendingSummary>): seq<Element> {
    if spending.None? then []
    else
      [Paragraph(SpendingTitle), Spacer(10), Table(SummaryRows(spending.value)), Spacer(20)]
      + TrendSection(spending.value.monthlyTrend)
      + CategorySection(spending.value.topCategories)
  }

  function BenfordSection(benford: Option<BenfordAnalysis>): seq<Element> {
    if benford.None? then []
    else
      var verdict := OrElse(benford.value.verdict, "Unknown");
      [Paragraph(BenfordTitle), Spacer(10),
       VerdictLine(VerdictColour(verdict), verdict), ScoreLine(OrElse(benford.value.madScore, 0.0)), Spacer(20),
       Paragraph(DigitTitle), Table(DigitRows(OrElse(benford.value.distribution, [])))]
  }

  /** The elements of the report, in order. */
  function ReportElements(data: StoredAnalysis): seq<Element> {
    [Paragraph(ReportTitle), Spacer(20), Table(MetaRows(data)), Spacer(20)]
    + SpendingSection(SpendingOf(data))
    + BenfordSection(BenfordOf(data))
  }

  /** The spending section: the summary table, then the trend and category
      tables when their maps are non-empty. */
  method SpendingElements(spending: SpendingSummary) returns (elements: seq<Element>)
    ensures elements == SpendingSection(Some(spending))
  {
    elements := [Paragraph(SpendingTitle), Spacer(10)];
    elements := elements + [Table(SummaryRows(spending)), Spacer(20)];
    assert elements == [Paragraph(SpendingTitle), Spacer(10), Table(SummaryRows(spending)), Spacer(20)];
    var monthlyTrend := spending.monthlyTrend;
    var trendElements: seq<Element> := [];
    if monthlyTrend.Some? && monthlyTrend.value != [] {
      var trendData := TrendTable(monthlyTrend.value);
      trendElements := [Paragraph(TrendTitle), Spacer(5), Table(trendData), Spacer(20)];
    }
    assert trendElements == TrendSection(monthlyTrend);
    var topCategories := spending.topCategories;
    var categoryElements: seq<Element> := [];
    if topCategories.Some? && topCategories.value != [] {
      var catData := CategoryTable(topCategories.value);
      categoryElements := [Paragraph(CategoryTitle), Spacer(5), Table(catData), Spacer(20)];
    }
    assert categoryElements == CategorySection(topCategories);
    elements := elements + trendElements + categoryElements;
  }

  /** The Benford section: verdict, score and the digit table. */
  method BenfordElements(benford: BenfordAnalysis) returns (elements: seq<Element>)
    ensures elements == BenfordSection(Some(benford))
  {
    elements := [Paragraph(BenfordTitle), Spacer(10)];
    var verdict := OrElse(benford.verdict, "Unknown");
    var score := OrElse(benford.madScore, 0.0);
    elements := elements + [VerdictLine(VerdictColour(verdict), verdict), ScoreLine(score), Spacer(20)];
    elements := elements + [Paragraph(DigitTitle)];
    var distData := DigitTable(OrElse(benford.distribution, []));
    elements := elements + [Table(distData)];
  }

  /** `generate_report`, up to `doc.build`: appends the title, the
      metadata table, the spending section and the Benford section. */
  method GenerateReport(data: StoredAnalysis) returns (elements: seq<Element>)
    ensures elements == ReportElements(data)
  {
    elements := [Paragraph(ReportTitle), Spacer(20)];
    elements := elements + [Table(MetaRows(data)), Spacer(20)];
    assert elements == [Paragraph(ReportTitle), Spacer(20), Table(MetaRows(data)), Spacer(20)];
    var spending := SpendingOf(data);
    var spendingElements: seq<Element> := [];
    if spending.Some? {
      spendingElements := SpendingElements(spending.value);
    }
    assert spendingElements == SpendingSection(spending);
    var benford := BenfordOf(data);
    var benfordElements: seq<Element> := [];
    if benford.Some? {
      benfordElements := BenfordElements(benford.value);
    }
    assert benfordElements == BenfordSection(benford);
    elements := elements + spendingElements + benfordElements;
  }

  /** No two section titles are the same. */
  lemma TitlesDistinct()
    ensures |ReportTitle| == 25 && |SpendingTitle| == 17 && |TrendTitle| == 22
    ensures |CategoryTitle| == 23 && |BenfordTitle| == 31 && |DigitTitle| == 28
  {
  }

  /** Every paragraph of `es` carries one of `titles`. */
  predicate TitledBy(es: seq<Element>, titles: set<string>) {
    forall e :: e in es && e.Paragraph? ==> e.text in titles
  }

  lemma SpendingTitles(spending: Option<SpendingSummary>)
    ensures TitledBy(SpendingSection(spending), {SpendingTitle, TrendTitle, CategoryTitle})
  {
    if spending.Some? {
      var trend := TrendSection(spending.value.monthlyTrend);
      var cats := CategorySection(spending.value.topCategories);
      assert TitledBy(trend, {TrendTitle});
      assert TitledBy(cats, {CategoryTitle});
    }
  }

  lemma BenfordTitles(benford: Option<BenfordAnalysis>)
    ensures TitledBy(BenfordSection(benford), {BenfordTitle, DigitTitle})
  {
  }

  /** A paragraph of the report whose title is neither the report's title
      nor a Benford title needs a spending summary. */
  lemma InSpendingSection(data: StoredAnalysis, t: string)
    requires Paragraph(t) in ReportElements(data)
    requires |t| != |ReportTitle| && |t| != |BenfordTitle| && |t| != |DigitTitle|
    ensures SpendingOf(data).Some?
  {
    var head := [Paragraph(ReportTitle), Spacer(20), Table(MetaRows(data)), Spacer(20)];
    var spending := SpendingSection(SpendingOf(data));
    var benford := BenfordSection(BenfordOf(data));
    assert ReportElements(data) == head + spending + benford;
    assert TitledBy(head, {ReportTitle});
    BenfordTitles(BenfordOf(data));
    assert Paragraph(t) !in head && Paragraph(t) !in benford;
    assert Paragraph(t) in spending;
  }

  /** With a spending summary the overview's title follows the metadata. */
  lemma SpendingTitleShown(data: StoredAnalysis)
    requires SpendingOf(data).Some?
    ensures Paragraph(SpendingTitle) in ReportElements(data)
  {
    var head := [Paragraph(ReportTitle), Spacer(20), Table(MetaRows(data)), Spacer(20)];
    var spending := SpendingSection(SpendingOf(data));
    var benford := BenfordSection(BenfordOf(data));
    assert ReportElements(data) == head + spending + benford;
    assert spending[0] == Paragraph(SpendingTitle);
    assert (head + spending + benford)[|head|] == spending[0];
  }

  /** The spending overview, and with it the trend and category tables,
      appears exactly when the report has a spending summary. */
  lemma SpendingSectionOnlyWithSummary(data: StoredAnalysis)
    ensures Paragraph(SpendingTitle) in ReportElements(data) <==> SpendingOf(data).Some?
    ensures Paragraph(TrendTitle) in ReportElements(data) ==> SpendingOf(data).Some?
    ensures Paragraph(CategoryTitle) in ReportElements(data) ==> SpendingOf(data).Some?
  {
    TitlesDistinct();
    if Paragraph(SpendingTitle) in ReportElements(data) {
      InSpendingSection(data, SpendingTitle);
    }
    if Paragraph(TrendTitle) in ReportElements(data) {
      InSpendingSection(data, TrendTitle);
    }
    if Paragraph(CategoryTitle) in ReportElements(data) {
      InSpendingSection(data, CategoryTitle);
    }
    if SpendingOf(data).Some? {
      SpendingTitleShown(data);
    }
  }
}
