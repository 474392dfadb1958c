# Fin-Analysis core, modelled in Dafny

Fin-Analysis takes an uploaded CSV or Excel file of bank transactions and
finds its Date, Description, Amount and Category columns. It then applies
Benford's first-digit test and asks a language model for a narrative. The
results are shown on a dashboard and exported as a PDF report. This project
models the deterministic logic around that pipeline and proves what it
promises:

- **Column standardisation** (`standardizer.dfy`): normalising column names,
  greedily assigning the four standard columns, and listing the required
  columns that are missing.
- **Benford bookkeeping** (`analysis_engine.dfy`): cleaning the series,
  keeping leading digits 1 to 9, the nine-entry distribution, the mean
  absolute deviation (MAD) and the Pass/Suspicious/Fail verdict. The
  computation is a loop over the digits, proved against a specification
  function.
- **AI response handling** (`ai_service.dfy`): the fallbacks when no API key
  is configured or the call fails, stripping whitespace and code fences, and
  the fallback for an unparsable reply. The service object keeps its `model`
  field.
- **PDF report** (`pdf_service.dfy`): the document's elements in order, the
  metadata defaults, the trend, category and digit tables (each built by a
  loop), and the verdict colour.
- **Serialisation** (`serialization.dfy`): the recursive conversion of NumPy
  and pandas values into plain JSON/Firestore values.
- **Upload endpoint guards** (`analysis_router.dfy`): the missing-uid check
  (401) and the path-ownership check (403).
- **Upload page** (`upload_page.dfy`): the state cells updated by dropping,
  removing and starting an upload, and the storage path.
- **Auth schemas** (`auth_service.dfy`): the login and signup form rules.
- **Dashboard** (`analysis_insights.dfy`, `trend_chart.dfy`,
  `benford_chart.dfy`): the peak month, the top category, the average, the
  choice between the AI card and the rule-based card, the sorted trend series
  and the Benford bar rows.

Shared modules:

- `common.dfy`: options, string predicates, code-point order, decimal digits,
  filters, and dictionaries as entry sequences.
- `sorting.dfy`: a stable sort and its properties.
- `js_objects.dfy`: the property order of `Object.entries`, as section
  10.1.11.1 of ECMA-262 (2022 edition) defines it.
- `report.dfy`: the report's JSON shape.

Modelling conventions:

- A JavaScript object or Python dict is the sequence of its entries in
  insertion order.
- A missing JSON field is `None`.
- Money and fractions are `real`.
- External services are function parameters: `json.loads`, the e-mail
  check, the file download and preview, leading-digit extraction, and the
  model's reply.

## Model

| member | source | states |
|---|---|---|
| Standardizer.NormalizeColumnName | backend/services/standardizer.py:17-21 | the normalised name holds only `a-z` and `0-9` and is no longer than the original |
| Standardizer.NormalizeIsLowerThenFilter | backend/services/standardizer.py:21 | normalising is lower-casing first, then dropping every character outside `[a-z0-9]` |
| Standardizer.NormalizeIdempotent | backend/services/standardizer.py:21 | normalising a normalised name changes nothing |
| Standardizer.NormalizeKept | backend/services/standardizer.py:21 | a name already made of `a-z0-9` is its own normal form |
| Standardizer.NormalizeAppend | backend/services/standardizer.py:21 | normalisation works character by character: it distributes over concatenation |
| Standardizer.NormalizeExample | backend/services/standardizer.py:21 | "Txn-Date" normalises to "txndate" |
| Standardizer.AnyMatchIsSomeMatch | backend/services/standardizer.py:49-54 | the pattern loop succeeds iff some pattern of the list matches |
| Standardizer.DatePatternsAreLiteral | backend/services/standardizer.py:33 | the Date patterns, `txn.*date` included, match exactly the names containing "date", "timestamp", "day" or "time" |
| Standardizer.ChooseStandard | backend/services/standardizer.py:45-56 | the chosen standard column is unclaimed and has a matching pattern; no earlier column in the order Date, Description, Amount, Category is eligible; nothing is chosen iff no column is eligible |
| Standardizer.Rename | backend/services/standardizer.py:60 | renaming keeps the column count; mapped columns take their standard name, all others keep theirs |
| Standardizer.SearchPatterns | backend/services/standardizer.py:49-54 | the scan with `break` reports a match iff some pattern matches |
| Standardizer.ClaimColumn | backend/services/standardizer.py:42-56 | one column's pass over the pattern table updates the mapping as the greedy step prescribes |
| Standardizer.StandardizeColumns | backend/services/standardizer.py:23-65 | the loop over the columns yields the greedy mapping and the renamed column list |
| Standardizer.MappingWellFormed | backend/services/standardizer.py:41-56 | each column maps to at most one standard name, each standard name is claimed at most once, only original columns are mapped, and every mapping is justified by a matching pattern |
| Standardizer.GreedyAssignment | backend/services/standardizer.py:41-56 | every column gets the first standard name in the fixed order that was still unclaimed and has a matching pattern, or none |
| Standardizer.SingleClaimant | backend/services/standardizer.py:46-52 | no two distinct columns claim the same standard name |
| Standardizer.EarliestClaimant | backend/services/standardizer.py:41-47 | the claimant of a standard name matches it, and every earlier column that also matched was claimed by a standard name ranked before it |
| Standardizer.TransactionAmountIsDescription | backend/services/standardizer.py:34-45 | "Transaction Amount" maps to Description, not Amount |
| Standardizer.RepeatedNameLosesDate | backend/services/standardizer.py:41-52 | a column name that occurs twice is mapped by its second occurrence too: two "datetype" columns both become Category and no column becomes Date |
| Standardizer.ValidateStandardizedData | backend/services/standardizer.py:67-75 | the loop returns the required names that are missing, in the required order |
| Standardizer.MissingRequiredCases | backend/services/standardizer.py:67-75 | the missing list is "Date" then "Amount", each present only if absent; it is empty iff both are present |
| Standardizer.StandardNamePresent | backend/services/standardizer.py:60-75 | after standardising, a standard name is present iff some column claimed it or an unmapped column already had that name |
| AnalysisEngine.Clean | backend/services/analysis_engine.py:18-19 | the cleaned series is no longer than the input and holds only positive values |
| AnalysisEngine.CleanKeepsMagnitudes | backend/services/analysis_engine.py:18-19 | a value survives cleaning iff it is positive and it or its negation is a non-missing entry |
| AnalysisEngine.CleanEmpty | backend/services/analysis_engine.py:18-22 | nothing survives cleaning iff every entry is missing or zero |
| AnalysisEngine.LeadingDigits | backend/services/analysis_engine.py:26-30 | only digits 1 to 9 are kept, and there are no more of them than cleaned values |
| AnalysisEngine.LeadingDigitsRetained | backend/services/analysis_engine.py:26-30 | a digit is retained iff it is in 1..9 and is the leading digit of some cleaned value |
| AnalysisEngine.Count | backend/services/analysis_engine.py:38 | a digit's count never exceeds the number of digits |
| AnalysisEngine.CountZero | backend/services/analysis_engine.py:38-47 | a digit's count is zero iff it does not occur |
| AnalysisEngine.ExpectedIsBenford | backend/services/analysis_engine.py:46 | the expected frequencies strictly decrease from digit 1 to digit 9, are positive, and sum to 1 within the precision of the constants |
| AnalysisEngine.Distribution | backend/services/analysis_engine.py:42-55 | the distribution always has nine entries |
| AnalysisEngine.CalculateBenfordStats | backend/services/analysis_engine.py:6-79 | the two early error returns and the loop over digits 1..9, which fills the distribution and accumulates the deviation, compute the specified result |
| AnalysisEngine.ErrorCases | backend/services/analysis_engine.py:21-33 | "No valid numeric data" iff cleaning leaves nothing; "No valid leading digits" iff values remain but no digit 1..9; statistics otherwise |
| AnalysisEngine.CountsAddUp | backend/services/analysis_engine.py:35-38 | the nine per-digit counts sum to the number of retained digits |
| AnalysisEngine.SharesAddUp | backend/services/analysis_engine.py:39-47 | the counts sum to the total and the actual frequencies sum to exactly 1 |
| AnalysisEngine.TotalRowsAnalyzed | backend/services/analysis_engine.py:78 | `total_rows_analyzed` is the number of retained digits, which is the sum of the counts |
| AnalysisEngine.DistributionEntries | backend/services/analysis_engine.py:45-55 | entry i has digit i+1, its Benford expectation and its share of the digits; the share is 0 iff the digit never occurs |
| AnalysisEngine.DistributionShape | backend/services/analysis_engine.py:42-75 | the report's distribution has nine entries keyed 1 to 9, each with its Benford expectation and the digit's share of the retained leading digits, the share 0 iff the digit never occurs |
| AnalysisEngine.DeviationNonNegative | backend/services/analysis_engine.py:49-50 | the accumulated deviation is never negative |
| AnalysisEngine.MadScore | backend/services/analysis_engine.py:65-76 | MAD is the total deviation over 9, it is non-negative, and the verdict is the one for that MAD |
| AnalysisEngine.VerdictBands | backend/services/analysis_engine.py:67-72 | "Pass" iff mad < 0.02, "Suspicious" iff 0.02 <= mad < 0.05, "Fail" iff mad >= 0.05 |
| AnalysisEngine.VerdictMonotone | backend/services/analysis_engine.py:67-72 | a larger MAD never gives a milder verdict |
| AnalysisEngine.DigitKeyNames | backend/services/analysis_engine.py:52 | the distribution's integer keys serialise to the strings "1" to "9" |
| AnalysisEngine.ChartShowsDigitsInOrder | frontend/src/components/dashboard/benford-chart.tsx:13-17 | the dashboard chart of an engine distribution shows the digits 1 to 9 in ascending order |
| AiService.StripStart | backend/services/ai_service.py:85 | removes exactly a whitespace prefix and leaves no leading whitespace |
| AiService.StripEnd | backend/services/ai_service.py:85 | removes exactly a whitespace suffix and leaves no trailing whitespace |
| AiService.Strip | backend/services/ai_service.py:85 | the stripped text is no longer and neither starts nor ends with whitespace |
| AiService.StripRemovesPadding | backend/services/ai_service.py:85 | the text is its stripped form between a whitespace prefix and a whitespace suffix |
| AiService.StripPadded | backend/services/ai_service.py:85 | stripping text padded with whitespace recovers the text |
| AiService.StripIdempotent | backend/services/ai_service.py:85 | stripping twice is stripping once |
| AiService.DropPrefix | backend/services/ai_service.py:86-89 | a present prefix is removed exactly once; otherwise the text is unchanged |
| AiService.DropSuffix | backend/services/ai_service.py:90-91 | a present suffix is removed exactly once; otherwise the text is unchanged |
| AiService.UnfencedOnlyStripped | backend/services/ai_service.py:85-93 | the parser sees only the stripped text iff that text neither starts nor ends with a fence |
| AiService.JsonFenceRemoved | backend/services/ai_service.py:85-91 | a whitespace-padded "```json … ```" block reaches the parser as its body |
| AiService.PlainFenceRemoved | backend/services/ai_service.py:85-91 | a whitespace-padded "``` … ```" block reaches the parser as its body |
| AiService.Prefix | backend/services/ai_service.py:97 | `text[:n]` is a prefix of length n, or the whole text when shorter |
| AiService.ParseResponse | backend/services/ai_service.py:79-100 | the result is decoded iff the parser accepts the cleaned text, and then it is the parser's document; otherwise it is the fallback, whose summary is the original text followed by "..." when the text is shorter than 250 characters and its first 250 characters followed by "..." otherwise, with the fixed one-element findings and recommendations |
| AiService.AIService.constructor | backend/services/ai_service.py:10-19 | no model iff the API key is missing or empty; otherwise "gemini-flash-latest" |
| AiService.AIService.GenerateInsights | backend/services/ai_service.py:21-45 | no model gives the "unavailable" summary with empty lists; a failed call gives the error summary, the exception text as its one finding and the fixed advice; a reply goes to `_parse_response` |
| AiService.MissingKeyShowsRuleBased | backend/services/ai_service.py:26-31 | without an API key the dashboard shows the rule-based card |
| AiService.ErrorSummaryAvailable | backend/services/ai_service.py:42 | the error summary does not contain "unavailable" |
| AiService.FailedCallShowsAI | backend/services/ai_service.py:39-45 | a failed call yields one finding and one recommendation, which the dashboard shows as an AI card |
| AiService.UnparsableReplyView | backend/services/ai_service.py:94-100 | a reply the parser rejects gives the fallback, shown as an AI card iff the reply's first 250 characters do not contain "unavailable" |
| PdfService.MetaRows | backend/services/pdf_service.py:29-34 | the metadata table has four rows |
| PdfService.MetadataDefaults | backend/services/pdf_service.py:27-34 | missing fields show "Unknown File", "Unknown Date", "N/A" and row count "0"; present ones are shown as given |
| PdfService.TrendTable | backend/services/pdf_service.py:80-84 | the loop builds the specified trend rows |
| PdfService.TrendTableShape | backend/services/pdf_service.py:80-84 | a header and then one row per month: n+1 rows, a permutation of the entries, in ascending key order |
| PdfService.CategoryTable | backend/services/pdf_service.py:101-117 | the loop builds the specified category rows |
| PdfService.CategoryTableShape | backend/services/pdf_service.py:101-117 | a header and then every category, sorted by \|sum\| descending (missing sum as 0), ties kept in insertion order |
| PdfService.DigitTable | backend/services/pdf_service.py:148-164 | the loop builds the specified digit rows |
| PdfService.DigitTableSize | backend/services/pdf_service.py:152 | the digit table has a header and at most five rows, fewer only when fewer keys are all-digit |
| PdfService.ShownDigitsAreDigitKeys | backend/services/pdf_service.py:152 | every shown digit entry has an all-digit key and comes from the distribution |
| PdfService.ShownDigitsSmallest | backend/services/pdf_service.py:152 | the shown keys are in ascending numeric order and none exceeds a key left out |
| PdfService.DigitDifferences | backend/services/pdf_service.py:155-158 | each digit row shows the fractions ×100, missing as 0, and a difference that is their non-negative distance |
| PdfService.EngineDistributionShowsFirstFive | backend/services/pdf_service.py:150-164 | for the engine's nine keys the report shows exactly digits 1 to 5, in order |
| PdfService.VerdictColours | backend/services/pdf_service.py:134-137 | green iff "Pass", red iff "Fail", orange otherwise, "Suspicious" and a missing verdict included |
| PdfService.SpendingElements | backend/services/pdf_service.py:49-126 | the appends build the spending section: summary table, then trend and category tables for non-empty maps |
| PdfService.BenfordElements | backend/services/pdf_service.py:129-171 | the appends build the Benford section: title, verdict, score and digit table |
| PdfService.GenerateReport | backend/services/pdf_service.py:11-175 | the appended elements are the title, the metadata table and then the spending and Benford sections |
| PdfService.SpendingSectionOnlyWithSummary | backend/services/pdf_service.py:49-97 | the spending title appears iff there is a spending summary; the trend and category tables appear only with it |
| Serialization.MakeSerializable | backend/utils/serialization.py:4-28 | the output holds no recognised NumPy scalar, ndarray or Timestamp and no NaN anywhere, and every dict has distinct string keys; unrecognised objects, other NumPy and pandas types among them, pass through unchanged as `Opaque` leaves |
| Serialization.NumpyScalars | backend/utils/serialization.py:12-20 | NumPy int, float and bool become Python ones, and a NumPy NaN becomes None |
| Serialization.PandasScalars | backend/utils/serialization.py:23-26 | a Timestamp becomes its ISO text and the pandas missing values become None |
| Serialization.NativeScalars | backend/utils/serialization.py:25-28 | a Python NaN becomes None; other scalars and unrecognised objects are returned unchanged |
| Serialization.ListsConvertElementwise | backend/utils/serialization.py:10-22 | a list keeps its length and is converted element by element; an ndarray is converted as its `tolist()` |
| Serialization.DictKeysStringified | backend/utils/serialization.py:8-9 | a dict whose keys stringify distinctly keeps its entries in order, with keys `str(k)` and converted values |
| Serialization.DictFromPairsLookup | backend/utils/serialization.py:9 | in the comprehension, the last pair with a key decides its value |
| Serialization.KeyCollision | backend/utils/serialization.py:9 | keys 1 and "1" collide: one entry remains, in the first position, holding the later value |
| Serialization.NativeUnchanged | backend/utils/serialization.py:4-28 | a native value is returned unchanged |
| Serialization.MakeSerializableIdempotent | backend/utils/serialization.py:4-28 | converting the output again changes nothing |
| AnalysisRouter.AnalyzeUpload | backend/routers/analysis.py:17-44 | 401 iff the uid is missing or empty; 403 iff a uid is present and the path is outside `uploads/{uid}/`; otherwise the preview of the downloaded file |
| AnalysisRouter.GuardsBeforeDownload | backend/routers/analysis.py:23-42 | a refused request's answer does not depend on the download or the preview |
| AnalysisRouter.OwnUploadAccepted | backend/routers/analysis.py:31-32 | a path built by the upload page for a uid passes that uid's check |
| AnalysisRouter.FoldersDisjoint | backend/routers/analysis.py:32 | for distinct uids without '/', no path in one user's folder starts with the other's folder |
| AnalysisRouter.OtherUserRefused | backend/routers/analysis.py:31-36 | for uids without '/', another user's upload path is refused with 403 |
| AnalysisRouter.SlashInUidCrossesFolders | backend/routers/analysis.py:32 | the check relies on uids without '/': uid "a" passes for files of uid "a/b" |
| UploadPage.RejectionMessage | frontend/src/pages/upload.tsx:26-33 | "file-invalid-type" and "file-too-large" give their fixed messages; any other code shows the error's own message |
| UploadPage.MessageFromFirstError | frontend/src/pages/upload.tsx:26-33 | only the first error of the rejection decides the message |
| UploadPage.StoragePath | frontend/src/pages/upload.tsx:71 | the storage path lies in `uploads/{uid}/` and ends with "_" and the file name |
| UploadPage.UploadState.constructor | frontend/src/pages/upload.tsx:15-19 | no file, not uploading, progress 0, no error, no success |
| UploadPage.UploadState.OnDrop | frontend/src/pages/upload.tsx:21-40 | success is cleared; a rejection sets its message and keeps the file; otherwise the error is cleared and the first accepted file, if any, is chosen |
| UploadPage.UploadState.RemoveFile | frontend/src/pages/upload.tsx:54-59 | file, error, success and progress return to empty, false and 0 |
| UploadPage.UploadState.StartUpload | frontend/src/pages/upload.tsx:61-71 | without a file or a user nothing changes; otherwise uploading starts, error and progress are reset and the storage path is returned |
| AuthService.Utf16Length | frontend/src/lib/auth-service.ts:14-21 | the JavaScript length lies between the character count and twice it |
| AuthService.FieldIssues | frontend/src/lib/auth-service.ts:12-21 | an e-mail issue iff the address fails the check; a password issue iff it is shorter than 6 |
| AuthService.LoginIssues | frontend/src/lib/auth-service.ts:12-15 | login input is valid iff the e-mail passes and the password has length at least 6 |
| AuthService.SignupIssues | frontend/src/lib/auth-service.ts:19-26 | signup input is valid iff the login rules hold and the passwords match; "Passwords don't match" on `confirmPassword` iff they differ |
| AuthService.ConfirmationOnlyMatched | frontend/src/lib/auth-service.ts:22-26 | the only issue on `confirmPassword` is the mismatch; with equal passwords there is none, whatever its length |
| AuthService.SignupImpliesLogin | frontend/src/lib/auth-service.ts:12-22 | valid signup input is valid login input |
| AuthService.SignupExtendsLogin | frontend/src/lib/auth-service.ts:12-26 | signup reports the login issues plus the mismatch when the passwords differ |
| AuthService.ThreeAstralCharactersSuffice | frontend/src/lib/auth-service.ts:14 | the length rule counts UTF-16 units: three emoji make a long enough password |
| AuthService.BmpLength | frontend/src/lib/auth-service.ts:14 | for characters of the Basic Multilingual Plane the length rule counts characters |
| AnalysisInsights.HighestMonth | frontend/src/components/dashboard/analysis-insights.tsx:20-33 | no peak month iff the trend is absent or empty |
| AnalysisInsights.HighestMonthIsFirstMaximum | frontend/src/components/dashboard/analysis-insights.tsx:25-26 | the peak month has the largest signed amount; among equal maxima the earliest entry wins |
| AnalysisInsights.HighestMonthIsMaximalEntry | frontend/src/components/dashboard/analysis-insights.tsx:25-26 | the peak month is one of the trend's entries and no entry exceeds it |
| AnalysisInsights.NegativeMonthNeverPeaks | frontend/src/components/dashboard/analysis-insights.tsx:25 | signed, not absolute, order: a negative month never beats a non-negative one |
| AnalysisInsights.TopCategoryOf | frontend/src/components/dashboard/analysis-insights.tsx:36-48 | no top category iff the categories are absent or empty |
| AnalysisInsights.TopCategoryIsFirstLargestMagnitude | frontend/src/components/dashboard/analysis-insights.tsx:44-47 | the top category maximises \|sum\|, ties go to the earliest entry, and its amount is the signed sum |
| AnalysisInsights.RentOutranksFood | frontend/src/components/dashboard/analysis-insights.tsx:44-47 | Rent at -1200 beats Food at 800 and is reported as -1200 |
| AnalysisInsights.AvgTransactionMagnitude | frontend/src/components/dashboard/analysis-insights.tsx:142 | the shown average is non-negative: 0 when absent, else the value or its negation |
| AnalysisInsights.ChooseView | frontend/src/components/dashboard/analysis-insights.tsx:55-95 | the AI card iff a non-empty summary without "unavailable" is present, showing summary, findings and recommendations verbatim and in order |
| AnalysisInsights.DeriveInsight | frontend/src/components/dashboard/analysis-insights.tsx:16-55 | no card iff no summary; otherwise the card's view, peak month, top category and average are the ones `ChooseView`, `HighestMonth`, `TopCategoryOf` and `AvgTransactionMagnitude` give for the summary and the AI block, the average non-negative and the AI card iff the AI test passes |
| AnalysisInsights.InsightCard | frontend/src/components/dashboard/analysis-insights.tsx:16-55 | on the card, the peak month is a trend entry no month exceeds, the top category has a |sum| no stored category exceeds, and the AI narrative with its summary is shown iff the AI test passes |
| TrendChart.ChartData | frontend/src/components/dashboard/trend-chart.tsx:11-19 | an absent input gives an empty series; otherwise one point per entry |
| TrendChart.ChartDataIsPermutation | frontend/src/components/dashboard/trend-chart.tsx:13-17 | the points are the entries, month and amount copied, in some order |
| TrendChart.ChartDataSorted | frontend/src/components/dashboard/trend-chart.tsx:18 | the series is in ascending month order |
| TrendChart.ChartDataResortUnchanged | frontend/src/components/dashboard/trend-chart.tsx:18 | sorting the series again leaves it unchanged |
| TrendChart.MonthOrderIsChronological | frontend/src/components/dashboard/trend-chart.tsx:18 | for `YYYY-MM` keys, string order is chronological order |
| TrendChart.ThreeMonthExample | frontend/src/components/dashboard/trend-chart.tsx:13-18 | months inserted as March, January, February are shown January, February, March |
| BenfordChart.ChartRows | frontend/src/components/dashboard/benford-chart.tsx:10-17 | no rows iff no distribution; otherwise one row per entry |
| BenfordChart.ChartRowsPermutation | frontend/src/components/dashboard/benford-chart.tsx:13-17 | nothing is dropped or duplicated |
| BenfordChart.ChartRowValues | frontend/src/components/dashboard/benford-chart.tsx:14-16 | each entry has a row with its key as digit and its fractions ×100 |
| BenfordChart.ChartRowsOrder | frontend/src/components/dashboard/benford-chart.tsx:13 | rows with array-index keys come first in ascending numeric order, the rest follow in insertion order |
| BenfordChart.DigitRowsInOrder | frontend/src/components/dashboard/benford-chart.tsx:13 | whatever the insertion order of the keys "1" to "9", the rows show them in ascending order |
| JsObjects.ObjectEntriesOrder | frontend/src/components/dashboard/benford-chart.tsx:13 | `Object.entries` lists array-index keys first, in ascending numeric order, then the other keys in creation order |
| JsObjects.ObjectEntriesPermutation | frontend/src/components/dashboard/trend-chart.tsx:13 | `Object.entries` lists every property exactly once |
| JsObjects.ObjectEntriesNoIndexKeys | frontend/src/components/dashboard/trend-chart.tsx:13 | an object without array-index keys is listed in creation order |
| Sorting.SortBySorted | frontend/src/components/dashboard/trend-chart.tsx:18 | the stable sort's output is ordered by a consistent comparator |
| Sorting.SortByStable | backend/services/pdf_service.py:106-110 | the sort keeps the relative order of elements that compare equal |
| Sorting.SortByHead | frontend/src/components/dashboard/analysis-insights.tsx:25-26 | the first element after sorting is the earliest least element of the input |

## Left out

- BenfordChart.ChartRows: the percentages are kept as exact numbers rather than the one-decimal strings `toFixed(1)` produces, and a fraction missing from an entry stays `None` where the page would show "NaN" (absent field) or "0.0" (null); the engine always writes both fractions as finite numbers, so only a hand-made report reaches these cases.
- Rounding and number formatting are not modelled: `round(x, 4)`, `round(mad, 5)`, `toFixed(1)` and the `,.2f`/`.1f` format strings. Values stay exact reals, and binary floating point is not modelled.
- `math.log10(1 + 1/d)` is the Python value of each constant, written as an exact decimal. The verdict's `.upper()` and the `<font>` markup in the PDF are not modelled; a verdict line holds the colour and the verdict.
- AnalysisEngine.LeadingDigits: leading-digit extraction through `str(float)` is a parameter. `0.5` giving '0' is covered, because only 1 to 9 are kept. `inf`, where `astype(int)` would raise, is not modelled.
- The cleaned series keeps its values, not its pandas index.
- Standardizer.NormalizeColumnName: lower-casing covers ASCII, U+0130 and U+212A (the characters whose lower case yields `a-z`). Python's full Unicode lower-case table is not modelled; any character it maps outside `a-z0-9` is dropped either way.
- `str(col)` of non-string column labels is not modelled: columns are strings.
- `reverse_mapping` always holds the same entries as `column_mapping`, so it is the mapping's values.
- The DataFrame itself is not modelled: `rename` acts on the list of column names.
- AnalysisInsights.TopCategoryOf requires every category to carry a `sum`, as the analysis engine writes it. Without one the JavaScript comparator compares NaN, which is not modelled.
- The month label (`toLocaleDateString`) depends on locale and time zone and is not modelled; the peak month carries its key.
- `localeCompare` is modelled as code-point order. This agrees with it on `YYYY-MM` keys.
- The page layout, table styles and rendering (reportlab) are not modelled. The PDF is modelled as its list of elements.
- PdfService.SpendingElements: a spending summary that is present but an empty dict is treated as present; Python treats it as absent. The same holds for an empty Benford block.
- PdfService.DigitTable: `str.isdigit` is modelled for ASCII digits. Unicode digits such as '²' would pass `isdigit` and then make `int` raise; that is not modelled.
- PdfService: distribution and trend dicts are assumed to have distinct keys, as Python dicts do. The trend rows sort entries by key instead of sorting keys and looking each one up, which is the same for distinct keys.
- The prompt text built by `_construct_prompt` and the Gemini call are not modelled. The reply is a parameter: a text, or an exception message.
- `json.loads` is a parameter: it returns a document or fails with `JSONDecodeError`. Other exceptions raised during parsing reach the generic error fallback, which `Raised` covers.
- `_parse_response` strips the characters Python's `str.isspace` accepts, listed explicitly.
- Serialization: dict keys are strings, integers (Python or NumPy), booleans or None. Float and tuple keys are not modelled.
- Serialization.MakeSerializable: tuples and sets, on which `pd.isna` returns an array and the `elif` raises, are not modelled. Any other unrecognised object is `Opaque` and is returned unchanged.
- `verify_token` (Firebase token verification), `download_file_from_storage` and `preview_file` are not modelled. The uid and the download and preview functions are parameters; a uid is a string or missing.
- The asynchronous part of `handleUpload` is not modelled: the Firebase upload, its progress callbacks, the call to the analysis endpoint, `success`, and the "Upload failed" and "Analysis failed" messages. react-dropzone's type and size enforcement is not modelled either.
- UploadPage.UploadState.OnDrop requires the first rejection to carry at least one error, as react-dropzone's rejections do. The handler reads `errors[0]` unguarded.
- AuthService: zod's e-mail regex is the parameter `isEmail`. Non-string inputs, which zod rejects with type errors, are not modelled. An issue's path is a single field name.
- AuthService.SignupIssues: the refinement runs even when a field check has failed (zod marks such a result dirty, not aborted), so the mismatch is reported alongside field issues.
- Network, storage, Firestore and authentication calls are not modelled, nor are the history and export routes. The page components, routing and currency formatting are not modelled either.
