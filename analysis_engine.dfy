/** Benford's-law statistics over one numeric column: cleaning, leading-digit
    counting, the nine-key distribution, the mean absolute deviation (MAD)
    from the expected frequencies and the verdict bands.

    A missing value or NaN is `None`. The leading digit of a cleaned value
    (Python's `str(x)[0]` read back as an integer) is a parameter, and
    `math.log10(1 + 1/d)` is the double that Python prints for it, taken as
    an exact real. */
module AnalysisEngine {
  import opened Common
  import opened JsObjects
  import opened Report
  import BenfordChart

  const NoNumericData: string := "No valid numeric data found for analysis"
  const NoLeadingDigits: string := "No valid leading digits (1-9) found"

  datatype DigitStats = DigitStats(actual: real, expected: real)

  /** The returned dictionary: either `{"error": ...}` or the statistics. */
  datatype BenfordResult =
    | Failure(error: string)
    | Stats(distribution: seq<(int, DigitStats)>, madScore: real, verdict: string, totalRowsAnalyzed: nat)

  // ---------------------------------------------------------------------
  // Cleaning and leading digits

  /** `series.dropna().abs()` followed by keeping the values above zero. */
  function Clean(series: seq<Option<real>>): (r: seq<real>)
    ensures |r| <= |series|
    ensures forall x :: x in r ==> x > 0.0
    decreases |series|
  {
    if series == [] then []
    else
      var rest := Clean(series[1..]);
      match series[0]
      case None => rest
      case Some(x) => if Abs(x) > 0.0 then [Abs(x)] + rest else rest
  }

  /** A cleaned value is the magnitude of a present, non-zero input, and
      every such magnitude is kept. */
  lemma {:induction false} CleanKeepsMagnitudes(series: seq<Option<real>>, y: real)
    ensures y in Clean(series) <==> y > 0.0 && (Some(y) in series || Some(-y) in series)
    decreases |series|
  {
    if series != [] {
      CleanKeepsMagnitudes(series[1..], y);
      assert series == [series[0]] + series[1..];
    }
  }

  /** Cleaning keeps the order of the values it keeps. */
  lemma {:induction false} CleanAppend(a: seq<Option<real>>, b: seq<Option<real>>)
    ensures Clean(a + b) == Clean(a) + Clean(b)
    decreases |a|
  {
    if a == [] {
      assert a + b == b;
    } else {
      assert (a + b)[0] == a[0];
      assert (a + b)[1..] == a[1..] + b;
      CleanAppend(a[1..], b);
    }
  }

  /** An entry that cleaning drops: missing, NaN or zero. */
  predicate Dropped(v: Option<real>) {
    v.None? || v.value == 0.0
  }

  /** Nothing survives cleaning exactly when every entry is missing or zero. */
  lemma {:induction false} CleanEmpty(series: seq<Option<real>>)
    ensures Clean(series) == [] <==> forall i :: 0 <= i < |series| ==> Dropped(series[i])
    decreases |series|
  {
    if series != [] {
      var rest := series[1..];
      CleanEmpty(rest);
      assert Clean(series) == [] <==> Dropped(series[0]) && Clean(rest) == [];
      assert (forall i :: 0 <= i < |series| ==> Dropped(series[i])) <==>
             Dropped(series[0]) && (forall i :: 0 <= i < |rest| ==> Dropped(rest[i])) by {
        assert forall i :: 1 <= i < |series| ==> series[i] == rest[i - 1];
      }
    }
  }

  predicate IsBenfordDigit(d: int) {
    1 <= d <= 9
  }

  /** The leading digits of the cleaned values, keeping only 1 to 9. */
  function LeadingDigits(clean: seq<real>, leading: real -> int): (ds: seq<int>)
    ensures |ds| <= |clean|
    ensures forall d :: d in ds ==> 1 <= d <= 9
  {
    Filter(MapSeq(leading, clean), IsBenfordDigit)
  }

  /** A digit is retained exactly when it lies in 1..9 and leads some
      cleaned value. */
  lemma LeadingDigitsRetained(clean: seq<real>, leading: real -> int, d: int)
    ensures d in LeadingDigits(clean, leading) <==>
              1 <= d <= 9 && exists i :: 0 <= i < |clean| && leading(clean[i]) == d
  {
    var all := MapSeq(leading, clean);
    FilterContains(all, IsBenfordDigit, d);
    if d in all {
      var i :| 0 <= i < |all| && all[i] == d;
      assert leading(clean[i]) == d;
    }
  }

  // ---------------------------------------------------------------------
  // Counting and the distribution

  /** `value_counts()` for one digit. */
  function Count(digits: seq<int>, d: int): (n: nat)
    ensures n <= |digits|
    decreases |digits|
  {
    if digits == [] then 0
    else (if digits[0] == d then 1 else 0) + Count(digits[1..], d)
  }

  lemma {:induction false} CountZero(digits: seq<int>, d: int)
    ensures Count(digits, d) == 0 <==> d !in digits
    decreases |digits|
  {
    if digits != [] {
      CountZero(digits[1..], d);
      assert digits == [digits[0]] + digits[1..];
    }
  }

  /** `actual_freq.get(digit, 0.0)`: the digit's share of the retained
      digits, and 0.0 for a digit that never occurs. */
  function Actual(digits: seq<int>, d: int): real {
    if Count(digits, d) == 0 then 0.0 else (Count(digits, d) as real) / (|digits| as real)
  }

  /** `math.log10(1 + 1/d)` for d in 1..9. */
  function Expected(d: int): real
    requires 1 <= d <= 9
  {
    match d
    case 1 => 0.3010299956639812
    case 2 => 0.17609125905568124
    case 3 => 0.12493873660829992
    case 4 => 0.09691001300805642
    case 5 => 0.07918124604762482
    case 6 => 0.06694678963061322
    case 7 => 0.05799194697768673
    case 8 => 0.05115252244738129
    case _ => 0.04575749056067514
  }

  /** The expected frequencies of the first `n` digits, summed. */
  function ExpectedSum(n: nat): real
    requires n <= 9
  {
    if n == 0 then 0.0 else ExpectedSum(n - 1) + Expected(n)
  }

  /** Benford's law: the expected frequency falls from digit to digit, and
      the nine frequencies add up to one up to the rounding of the doubles. */
  lemma ExpectedIsBenford()
    ensures Expected(1) > Expected(2) > Expected(3) > Expected(4) > Expected(5)
              > Expected(6) > Expected(7) > Expected(8) > Expected(9) > 0.0
    ensures 0.9999999999999999 < ExpectedSum(9) <= 1.0
  {
    assert ExpectedSum(9) == 0.99999999999999998;
  }

  /** The `distribution` dictionary: keys 1 to 9 in order, each with its
      actual and expected frequency. */
  function Distribution(digits: seq<int>): (dist: seq<(int, DigitStats)>)
    ensures |dist| == 9
  {
    seq(9, i requires 0 <= i < 9 => (i + 1, DigitStats(Actual(digits, i + 1), Expected(i + 1))))
  }

  /** `total_deviation` after the digits 1 to `n`. */
  function Deviation(digits: seq<int>, n: nat): real
    requires n <= 9
  {
    if n == 0 then 0.0 else Deviation(digits, n - 1) + Abs(Actual(digits, n) - Expected(n))
  }

  /** The verdict band of a MAD score. */
  function Verdict(mad: real): string {
    if mad < 0.02 then "Pass" else if mad < 0.05 then "Suspicious" else "Fail"
  }

  /** The whole computation, as a value. */
  function BenfordStats(series: seq<Option<real>>, leading: real -> int): BenfordResult {
    var clean := Clean(series);
    if clean == [] then Failure(NoNumericData)
    else
      var digits := LeadingDigits(clean, leading);
      if digits == [] then Failure(NoLeadingDigits)
      else
        var mad := Deviation(digits, 9) / 9.0;
        Stats(Distribution(digits), mad, Verdict(mad), |digits|)
  }

  /** `calculate_benford_stats`: the two error returns, then one pass over
      the digits 1 to 9 filling the distribution and summing the deviation. */
  method CalculateBenfordStats(series: seq<Option<real>>, leading: real -> int) returns (result: BenfordResult)
    ensures result == BenfordStats(series, leading)
  {
    var clean := Clean(series);
    if clean == [] {
      return Failure(NoNumericData);
    }
    var digits := LeadingDigits(clean, leading);
    if digits == [] {
      return Failure(NoLeadingDigits);
    }
    var distribution: seq<(int, DigitStats)> := [];
    var totalDeviation := 0.0;
    for digit := 1 to 10
      invariant distribution == Distribution(digits)[..digit - 1]
      invariant totalDeviation == Deviation(digits, digit - 1)
    {
      var expectedProb := Expected(digit);
      var actualProb := Actual(digits, digit);
      totalDeviation := totalDeviation + Abs(actualProb - expectedProb);
      distribution := distribution + [(digit, DigitStats(actualProb, expectedProb))];
    }
    var mad := totalDeviation / 9.0;
    result := Stats(distribution, mad, Verdict(mad), |digits|);
  }

  // ---------------------------------------------------------------------
  // Properties

  /** The two error returns, each exactly when its stage leaves nothing. */
  lemma ErrorCases(series: seq<Option<real>>, leading: real -> int)
    ensures BenfordStats(series, leading) == Failure(NoNumericData) <==> Clean(series) == []
    ensures BenfordStats(series, leading) == Failure(NoLeadingDigits) <==>
              Clean(series) != [] && LeadingDigits(Clean(series), leading) == []
    ensures BenfordStats(series, leading).Stats? <==> LeadingDigits(Clean(series), leading) != []
  {
  }

  /** The digit counts over 1..n, summed. */
  function CountSum(digits: seq<int>, n: nat): nat
    requires n <= 9
  {
    if n == 0 then 0 else CountSum(digits, n - 1) + Count(digits, n)
  }

  lemma {:induction false} CountSumCons(x: int, rest: seq<int>, n: nat)
    requires n <= 9
    ensures CountSum([x] + rest, n) == CountSum(rest, n) + (if 1 <= x <= n then 1 else 0)
    decreases n
  {
    if n > 0 {
      CountSumCons(x, rest, n - 1);
      assert ([x] + rest)[1..] == rest;
    }
  }

  /** When every digit lies in 1..9, the nine counts add up to the number
      of digits. */
  lemma {:induction false} CountsAddUp(digits: seq<int>)
    requires forall d :: d in digits ==> 1 <= d <= 9
    ensures CountSum(digits, 9) == |digits|
    decreases |digits|
  {
    if digits == [] {
      CountSumEmpty(9);
    } else {
      assert digits == [digits[0]] + digits[1..];
      forall d | d in digits[1..]
        ensures d in digits
      {
      }
      assert digits[0] in digits;
      CountSumCons(digits[0], digits[1..], 9);
      CountsAddUp(digits[1..]);
    }
  }

  lemma {:induction false} CountSumEmpty(n: nat)
    requires n <= 9
    ensures CountSum([], n) == 0
    decreases n
  {
    if n > 0 {
      CountSumEmpty(n - 1);
    }
  }

  /** The actual frequencies over 1..n, summed. */
  function ActualSum(digits: seq<int>, n: nat): real
    requires n <= 9
  {
    if n == 0 then 0.0 else ActualSum(digits, n - 1) + Actual(digits, n)
  }

  lemma SumOfShares(a: real, b: real, t: real)
    requires t > 0.0
    ensures a / t + b / t == (a + b) / t
  {
  }

  lemma ActualIsShare(digits: seq<int>, d: int)
    requires digits != []
    ensures Actual(digits, d) == (Count(digits, d) as real) / (|digits| as real)
  {
  }

  lemma {:induction false} ActualSumIsShare(digits: seq<int>, n: nat)
    requires n <= 9 && digits != []
    ensures ActualSum(digits, n) == (CountSum(digits, n) as real) / (|digits| as real)
    decreases n
  {
    if n > 0 {
      ActualSumIsShare(digits, n - 1);
      ActualIsShare(digits, n);
      SumOfShares(CountSum(digits, n - 1) as real, Count(digits, n) as real, |digits| as real);
    }
  }

  /** Over retained digits, the counts add up to their number and the
      actual frequencies to one. */
  lemma SharesAddUp(digits: seq<int>)
    requires digits != []
    requires forall d :: d in digits ==> 1 <= d <= 9
    ensures CountSum(digits, 9) == |digits|
    ensures ActualSum(digits, 9) == 1.0
  {
    CountsAddUp(digits);
    ActualSumIsShare(digits, 9);
    WholeShare(|digits| as real);
  }

  lemma WholeShare(t: real)
    requires t > 0.0
    ensures t / t == 1.0
  {
  }

  /** `total_rows_analyzed` is the number of retained leading digits, the
      per-digit counts add up to it, and the actual frequencies add up to 1. */
  lemma TotalRowsAnalyzed(series: seq<Option<real>>, leading: real -> int)
    requires BenfordStats(series, leading).Stats?
    ensures var digits := LeadingDigits(Clean(series), leading);
            BenfordStats(series, leading).totalRowsAnalyzed == |digits| == CountSum(digits, 9)
            && ActualSum(digits, 9) == 1.0
  {
    SharesAddUp(LeadingDigits(Clean(series), leading));
  }

  /** The distribution has exactly the keys 1 to 9 in that order; each
      expected value is Benford's, each actual value the digit's share, 0.0
      exactly for a digit that never occurs. */
  lemma DistributionEntries(digits: seq<int>)
    requires digits != []
    ensures forall i :: 0 <= i < 9 ==>
              Distribution(digits)[i].0 == i + 1
              && Distribution(digits)[i].1.expected == Expected(i + 1)
              && Distribution(digits)[i].1.actual == (Count(digits, i + 1) as real) / (|digits| as real)
              && (Distribution(digits)[i].1.actual == 0.0 <==> i + 1 !in digits)
  {
    forall d | 1 <= d <= 9
      ensures Actual(digits, d) == (Count(digits, d) as real) / (|digits| as real)
      ensures Actual(digits, d) == 0.0 <==> d !in digits
    {
      ActualIsShare(digits, d);
      CountZero(digits, d);
    }
  }

  /** The reported distribution: nine entries keyed 1 to 9, each with
      Benford's expectation and the digit's share of the retained leading
      digits, the share 0.0 exactly for a digit that never occurs. */
  lemma DistributionShape(series: seq<Option<real>>, leading: real -> int)
    requires BenfordStats(series, leading).Stats?
    ensures var dist := BenfordStats(series, leading).distribution;
            var digits := LeadingDigits(Clean(series), leading);
            |dist| == 9
            && forall i :: 0 <= i < 9 ==>
                 dist[i].0 == i + 1
                 && dist[i].1.expected == Expected(i + 1)
                 && dist[i].1.actual == (Count(digits, i + 1) as real) / (|digits| as real)
                 && (dist[i].1.actual == 0.0 <==> i + 1 !in digits)
  {
    DistributionEntries(LeadingDigits(Clean(series), leading));
  }

  lemma {:induction false} DeviationNonNegative(digits: seq<int>, n: nat)
    requires n <= 9
    ensures Deviation(digits, n) >= 0.0
    decreases n
  {
    if n > 0 {
      DeviationNonNegative(digits, n - 1);
    }
  }

  /** MAD is the summed absolute deviation over the nine digits divided by
      nine, and is never negative. */
  lemma MadScore(series: seq<Option<real>>, leading: real -> int)
    requires BenfordStats(series, leading).Stats?
    ensures var r := BenfordStats(series, leading);
            var digits := LeadingDigits(Clean(series), leading);
            r.madScore == Deviation(digits, 9) / 9.0 && r.madScore >= 0.0
            && r.verdict == Verdict(r.madScore)
  {
    DeviationNonNegative(LeadingDigits(Clean(series), leading), 9);
  }

  /** The three verdict bands, each as an if-and-only-if. */
  lemma VerdictBands(mad: real)
    ensures Verdict(mad) == "Pass" <==> mad < 0.02
    ensures Verdict(mad) == "Suspicious" <==> 0.02 <= mad < 0.05
    ensures Verdict(mad) == "Fail" <==> 0.05 <= mad
  {
  }

  function Severity(verdict: string): nat {
    if verdict == "Pass" then 0 else if verdict == "Suspicious" then 1 else 2
  }

  /** A larger MAD never gives a milder verdict. */
  lemma VerdictMonotone(m1: real, m2: real)
    requires m1 <= m2
    ensures Severity(Verdict(m1)) <= Severity(Verdict(m2))
  {
  }

  // ---------------------------------------------------------------------
  // From the backend to the chart

  /** One distribution entry as the report carries it: the key as `str(d)`
      and both fractions present. */
  function ReportEntry(e: (int, DigitStats)): (string, DigitFreq) {
    (IntToDecimal(e.0), DigitFreq(Some(e.1.actual), Some(e.1.expected)))
  }

  lemma DigitKeyNames()
    ensures forall d :: 1 <= d <= 9 ==> IntToDecimal(d) == DigitKeys[d - 1]
  {
    assert IntToDecimal(1) == "1" && IntToDecimal(2) == "2" && IntToDecimal(3) == "3";
    assert IntToDecimal(4) == "4" && IntToDecimal(5) == "5" && IntToDecimal(6) == "6";
    assert IntToDecimal(7) == "7" && IntToDecimal(8) == "8" && IntToDecimal(9) == "9";
  }

  /** The distribution the engine reports reaches the Benford chart as the
      digits 1 to 9, in ascending order. */
  lemma ChartShowsDigitsInOrder(series: seq<Option<real>>, leading: real -> int)
    requires BenfordStats(series, leading).Stats?
    ensures var dist := MapSeq(ReportEntry, BenfordStats(series, leading).distribution);
            MapSeq(BenfordChart.RowDigit, BenfordChart.ChartRows(Some(dist)).value) == DigitKeys
  {
    var dist := MapSeq(ReportEntry, BenfordStats(series, leading).distribution);
    DigitKeyNames();
    assert Keys(dist) == DigitKeys;
    BenfordChart.DigitRowsInOrder(dist);
  }
}
