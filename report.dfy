/** The analysis report exchanged between the backend and the dashboard.
    Every field of the JSON report may be missing, which `None` stands for;
    an object is kept as its entries in insertion order. */
module Report {
  import opened Common

  /** One entry of `top_categories`: `{sum, count}`. */
  datatype CategoryStats = CategoryStats(sum: Option<real>, count: Option<int>)

  /** One entry of a Benford `distribution`: `{actual, expected}` fractions. */
  datatype DigitFreq = DigitFreq(actual: Option<real>, expected: Option<real>)

  datatype SpendingSummary = SpendingSummary(
    totalVolume: Option<real>,
    netFlow: Option<real>,
    transactionCount: Option<int>,
    avgTransaction: Option<real>,
    monthlyTrend: Option<seq<(string, real)>>,
    topCategories: Option<seq<(string, CategoryStats)>>)

  datatype BenfordAnalysis = BenfordAnalysis(
    distribution: Option<seq<(string, DigitFreq)>>,
    verdict: Option<string>,
    madScore: Option<real>)

  /** The AI narrative block: `{summary, key_findings, recommendations}`. */
  datatype AIInsights = AIInsights(summary: string, keyFindings: seq<string>, recommendations: seq<string>)

  datatype AnalysisReport = AnalysisReport(
    spendingSummary: Option<SpendingSummary>,
    benfordAnalysis: Option<BenfordAnalysis>)

  /** The keys of a Benford distribution, `str(d)` for the digits 1 to 9. */
  const DigitKeys: seq<string> := ["1", "2", "3", "4", "5", "6", "7", "8", "9"]
}
