/** The dashboard's insight card: picks the peak month, the top category and
    the average transaction size from a spending summary, and chooses between
    the AI narrative and the rule-based view. */
module AnalysisInsights {
  import opened Common
  import opened Sorting
  import opened JsObjects
  import opened Report

  /** The month with the highest net amount. The card shows the key as a
      localised "Month Year" label; the label itself is not modelled. */
  datatype PeakMonth = PeakMonth(month: string, amount: real)

  datatype TopCategory = TopCategory(name: string, amount: real)

  /** Which card is rendered. */
  datatype View =
    | AIView(summary: string, findings: seq<string>, recommendations: seq<string>)
    | RuleBasedView

  datatype Insight = Insight(
    view: View,
    topMonth: Option<PeakMonth>,
    topCategory: Option<TopCategory>,
    avgTransaction: real)

  /** Comparator `(a, b) => b - a` on month amounts: larger amounts first. */
  predicate AmountDesc(a: (string, real), b: (string, real)) {
    a.1 >= b.1
  }

  /** `Math.abs(entry.sum)`; every entry carries a sum (`HasSums`), so the
      fallback 0 is never used. */
  function SumMagnitude(e: (string, CategoryStats)): real {
    if e.1.sum.Some? then Abs(e.1.sum.value) else 0.0
  }

  /** Comparator on `Math.abs(sum)`: larger magnitudes first. */
  predicate AbsSumDesc(a: (string, CategoryStats), b: (string, CategoryStats)) {
    SumMagnitude(a) >= SumMagnitude(b)
  }

  /** Every category carries a numeric `sum`, as the analysis engine writes it. */
  predicate HasSums(cats: seq<(string, CategoryStats)>) {
    forall i :: 0 <= i < |cats| ==> cats[i].1.sum.Some?
  }

  /** `getHighestMonth`: index 0 of the entries sorted by amount, descending. */
  function HighestMonth(trend: Option<seq<(string, real)>>): (r: Option<PeakMonth>)
    ensures r.None? <==> trend.None? || trend.value == []
  {
    if trend.None? || |trend.value| == 0 then None
    else
      var sorted := SortBy(ObjectEntries(trend.value), (a, b) => AmountDesc(a, b));
      Some(PeakMonth(sorted[0].0, sorted[0].1))
  }

  /** `getTopCategory`: index 0 of the entries sorted by |sum|, descending; the
      amount reported is the signed sum. */
  function TopCategoryOf(cats: Option<seq<(string, CategoryStats)>>): (r: Option<TopCategory>)
    requires cats.Some? ==> HasSums(cats.value)
    ensures r.None? <==> cats.None? || cats.value == []
  {
    if cats.None? || |cats.value| == 0 then None
    else
      var entries := ObjectEntries(cats.value);
      EntriesHaveSums(cats.value);
      var sorted := SortBy(entries, AbsSumDesc);
      assert sorted[0] in multiset(entries);
      Some(TopCategory(sorted[0].0, sorted[0].1.sum.value))
  }

  /** `Math.abs(summary.avg_transaction || 0)`: an absent or zero average shows 0. */
  function AvgTransactionMagnitude(avg: Option<real>): (r: real)
    ensures r >= 0.0
    ensures avg.None? ==> r == 0.0
    ensures avg.Some? ==> r == avg.value || r == -avg.value
  {
    if avg.None? then 0.0 else Abs(avg.value)
  }

  /** The AI card is used when an AI block is present, its summary is
      non-empty and does not contain the sentinel "unavailable". */
  predicate UsesAIView(ai: Option<AIInsights>) {
    ai.Some? && ai.value.summary != "" && !Contains(ai.value.summary, "unavailable")
  }

  function ChooseView(ai: Option<AIInsights>): (v: View)
    ensures v.AIView? <==> UsesAIView(ai)
    ensures v.AIView? ==> v == AIView(ai.value.summary, ai.value.keyFindings, ai.value.recommendations)
  {
    if UsesAIView(ai) then AIView(ai.value.summary, ai.value.keyFindings, ai.value.recommendations)
    else RuleBasedView
  }

  predicate SummaryWellFormed(summary: Option<SpendingSummary>) {
    summary.Some? && summary.value.topCategories.Some? ==> HasSums(summary.value.topCategories.value)
  }

  /** `AnalysisInsights({summary, aiInsights})`: no summary, no card. */
  function DeriveInsight(summary: Option<SpendingSummary>, ai: Option<AIInsights>): (r: Option<Insight>)
    requires SummaryWellFormed(summary)
    ensures r.None? <==> summary.None?
    ensures r.Some? ==> r.value.avgTransaction >= 0.0
    ensures r.Some? ==> (r.value.view.AIView? <==> UsesAIView(ai))
    ensures r.Some? ==> r.value.view == ChooseView(ai)
    ensures r.Some? ==> r.value.topMonth == HighestMonth(summary.value.monthlyTrend)
    ensures r.Some? ==> r.value.topCategory == TopCategoryOf(summary.value.topCategories)
    ensures r.Some? ==> r.value.avgTransaction == AvgTransactionMagnitude(summary.value.avgTransaction)
  {
    if summary.None? then None
    else
      var s := summary.value;
      Some(Insight(
        ChooseView(ai),
        HighestMonth(s.monthlyTrend),
        TopCategoryOf(s.topCategories),
        AvgTransactionMagnitude(s.avgTransaction)))
  }

  // ---------------------------------------------------------------------
  // What the selections mean

  lemma AmountDescTotalPreorder()
    ensures TotalPreorder((a: (string, real), b: (string, real)) => AmountDesc(a, b))
  {
  }

  /** The peak month is the entry (in `Object.entries` order) with the largest
      signed amount; among equal maxima the earliest wins. */
  lemma HighestMonthIsFirstMaximum(trend: seq<(string, real)>) returns (i: nat)
    requires trend != []
    ensures var entries := ObjectEntries(trend);
      && i < |entries|
      && HighestMonth(Some(trend)) == Some(PeakMonth(entries[i].0, entries[i].1))
      && (forall j :: 0 <= j < |entries| ==> entries[j].1 <= entries[i].1)
      && (forall j :: 0 <= j < i ==> entries[j].1 < entries[i].1)
  {
    var entries := ObjectEntries(trend);
    var le := (a: (string, real), b: (string, real)) => AmountDesc(a, b);
    AmountDescTotalPreorder();
    i := SortByHead(entries, le);
  }

  /** The peak month is one of the trend's own entries and no entry exceeds it. */
  lemma HighestMonthIsMaximalEntry(trend: seq<(string, real)>)
    requires trend != []
    ensures var r := HighestMonth(Some(trend)).value;
      && (r.month, r.amount) in trend
      && forall j :: 0 <= j < |trend| ==> trend[j].1 <= r.amount
  {
    var i := HighestMonthIsFirstMaximum(trend);
    var entries := ObjectEntries(trend);
    ObjectEntriesPermutation(trend);
    assert entries[i] in multiset(trend);
    forall j | 0 <= j < |trend|
      ensures trend[j].1 <= entries[i].1
    {
      assert trend[j] in multiset(entries);
    }
  }

  /** A month with a large negative net flow never beats a positive month. */
  lemma NegativeMonthNeverPeaks(trend: seq<(string, real)>, j: nat, k: nat)
    requires j < |trend| && k < |trend|
    requires trend[j].1 < 0.0 <= trend[k].1
    ensures HighestMonth(Some(trend)).value.amount >= 0.0
    ensures HighestMonth(Some(trend)).value.amount != trend[j].1
  {
    HighestMonthIsMaximalEntry(trend);
  }

  lemma AbsSumDescTotalPreorder()
    ensures TotalPreorder(AbsSumDesc)
  {
  }

  /** The top category maximises |sum| over the entries; ties go to the
      earliest entry; its amount is the signed sum. */
  lemma TopCategoryIsFirstLargestMagnitude(cats: seq<(string, CategoryStats)>) returns (i: nat)
    requires cats != [] && HasSums(cats)
    ensures var entries := ObjectEntries(cats);
      && i < |entries|
      && entries[i].1.sum.Some?
      && TopCategoryOf(Some(cats)) == Some(TopCategory(entries[i].0, entries[i].1.sum.value))
      && (forall j :: 0 <= j < |entries| ==>
            entries[j].1.sum.Some? && Abs(entries[j].1.sum.value) <= Abs(entries[i].1.sum.value))
      && (forall j :: 0 <= j < i ==> Abs(entries[j].1.sum.value) < Abs(entries[i].1.sum.value))
  {
    var entries := ObjectEntries(cats);
    EntriesHaveSums(cats);
    AbsSumDescTotalPreorder();
    i := SortByHead(entries, AbsSumDesc);
  }

  /** The top category is one of the stored categories, with its own signed
      sum, and no category has a larger |sum|. */
  lemma TopCategoryIsLargestEntry(cats: seq<(string, CategoryStats)>)
    requires cats != [] && HasSums(cats)
    ensures var t := TopCategoryOf(Some(cats)).value;
      && (exists k :: 0 <= k < |cats| && cats[k].0 == t.name && cats[k].1.sum == Some(t.amount))
      && forall j :: 0 <= j < |cats| ==> Abs(cats[j].1.sum.value) <= Abs(t.amount)
  {
    var i := TopCategoryIsFirstLargestMagnitude(cats);
    var entries := ObjectEntries(cats);
    ObjectEntriesPermutation(cats);
    assert entries[i] in multiset(cats);
    var k :| 0 <= k < |cats| && cats[k] == entries[i];
    forall j | 0 <= j < |cats|
      ensures Abs(cats[j].1.sum.value) <= Abs(entries[i].1.sum.value)
    {
      assert cats[j] in multiset(entries);
      var m :| 0 <= m < |entries| && entries[m] == cats[j];
    }
  }

  /** The card built from a summary: the peak month is a trend entry no month
      exceeds, the top category a stored category no other outranks in |sum|,
      and the AI narrative is shown exactly when the AI test passes. */
  lemma InsightCard(summary: SpendingSummary, ai: Option<AIInsights>)
    requires SummaryWellFormed(Some(summary))
    ensures var card := DeriveInsight(Some(summary), ai).value;
      && (summary.monthlyTrend.Some? && summary.monthlyTrend.value != [] ==>
            var trend := summary.monthlyTrend.value;
            && card.topMonth.Some?
            && (card.topMonth.value.month, card.topMonth.value.amount) in trend
            && forall j :: 0 <= j < |trend| ==> trend[j].1 <= card.topMonth.value.amount)
      && (summary.topCategories.Some? && summary.topCategories.value != [] ==>
            var cats := summary.topCategories.value;
            && card.topCategory.Some?
            && forall j :: 0 <= j < |cats| ==> Abs(cats[j].1.sum.value) <= Abs(card.topCategory.value.amount))
      && (card.view.AIView? <==> UsesAIView(ai))
      && (card.view.AIView? ==> card.view.summary == ai.value.summary)
  {
    var card := DeriveInsight(Some(summary), ai).value;
    if summary.monthlyTrend.Some? && summary.monthlyTrend.value != [] {
      assert card.topMonth == HighestMonth(Some(summary.monthlyTrend.value));
      HighestMonthIsMaximalEntry(summary.monthlyTrend.value);
    }
    if summary.topCategories.Some? && summary.topCategories.value != [] {
      assert card.topCategory == TopCategoryOf(Some(summary.topCategories.value));
      TopCategoryIsLargestEntry(summary.topCategories.value);
    }
  }

  /** Object key ordering only reorders the entries, so each still carries a sum. */
  lemma EntriesHaveSums(cats: seq<(string, CategoryStats)>)
    requires HasSums(cats)
    ensures HasSums(ObjectEntries(cats))
  {
    var entries := ObjectEntries(cats);
    ObjectEntriesPermutation(cats);
    forall j | 0 <= j < |entries|
      ensures entries[j].1.sum.Some?
    {
      assert entries[j] in multiset(cats);
    }
  }

  /** Magnitude, not sign, decides: a rent of -1200 outranks food at 800 and
      is reported with its sign. */
  lemma RentOutranksFood()
    ensures TopCategoryOf(Some([("Food", CategoryStats(Some(800.0), None)),
                                ("Rent", CategoryStats(Some(-1200.0), None))]))
         == Some(TopCategory("Rent", -1200.0))
  {
    var cats := [("Food", CategoryStats(Some(800.0), None)),
                 ("Rent", CategoryStats(Some(-1200.0), None))];
    assert !IsArrayIndex("Food") && !IsArrayIndex("Rent") by {
      assert !IsDigit('F') && !IsDigit('R');
    }
    ObjectEntriesNoIndexKeys(cats);
    var i := TopCategoryIsFirstLargestMagnitude(cats);
    assert Abs(cats[1].1.sum.value) <= Abs(cats[i].1.sum.value);
    assert i == 1;
  }
}
