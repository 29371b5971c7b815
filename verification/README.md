# Survey dashboard core, modelled in Dafny

The dashboard reads a store-visit satisfaction survey from a Google
spreadsheet and draws charts from it. This project models the logic behind
that, which is all pure decision and counting code:

- **Row normalisation** (`DataTransform`).
  - A spreadsheet row becomes a `SurveyRow` by fixed column position.
  - Satisfaction labels map to 4..1, with 0 for anything else.
  - The visit-purpose cell is split on commas, each piece is trimmed and empty pieces are dropped.
  - The rating is `parseInt` of column 12, which is NaN for text that is not a number.
- **Chart preparation** (`Charts`, built on `Tally` and `StableSort`).
  - Category counts in first-seen order.
  - Age and visit-frequency counts re-ordered by a fixed list with a stable sort.
  - Visit-purpose counts sorted by descending count.
  - The 1..5 rating histogram.
  - The five satisfaction dimensions.
  - The integer sums behind the averages on the summary cards.
- **The data endpoint** (`SheetsRoute`).
  - The header row is split off.
  - The remaining rows are parsed; those that parse are kept, in order.
  - `total` is reported.
  - A thrown error is classified into `API_NOT_ENABLED` (403), `PERMISSION_DENIED` (403) or `UNKNOWN_ERROR` (500).
  - The project id is extracted from an `accessNotConfigured` message.
- **The spreadsheet read** (`GoogleSheets`).
  - Which sheet title to read: the sheet whose id is the configured gid, else the first sheet, else "Sheet1".
  - The `!A:Z` range.
  - The rule that an empty read is an error.
  - The two API calls are inputs.
- **The request gate** (`Middleware`).
  - The routing decision from path and session presence.
  - The path matcher.
  - Proved: the matcher never changes the gate's outcome, and the gate never redirects in a loop.

JavaScript behaviour the code relies on is written out in `JsBuiltins`:

- `String.prototype.trim` with the ECMAScript white-space and line-terminator set.
- `split` on one character, and `join`.
- `startsWith`.
- `parseInt(s, 10)` with its NaN result.

Dictionary accumulators (`acc[key] = (acc[key] || 0) + 1`) are methods that update a `map` and an insertion-order list in a loop. They are proved against `Tally.Counts`, the specification of counting in first-seen order. `Array.prototype.sort` with a `key(a) - key(b)` comparator is `StableSort.Sort`. It is proved ordered, a permutation and stable, and shown to be the only sequence with those three properties.

Behaviour of the code worth noting:

- A rating cell that is not a number gives NaN, not 0. The endpoint sends the records as JSON (app/api/sheets/route.ts:29, app/page.tsx:31-34), where NaN becomes `null`, so on the dashboard such a rating adds 0 to the rating total (`Charts.ClientRating`) while the record still counts towards `total`, and it is no star of the histogram.
- Ages and visit frequencies missing from the fixed order list have `indexOf` -1, so they sort before the listed ones, not after.
- An empty spreadsheet makes the read throw a plain `Error` without a code. The endpoint therefore answers 500 `UNKNOWN_ERROR`, and its own 404 branch is reached only if the read returns an empty list, which it never does (`SheetsRoute.EmptySheetIsNotNotFound`).

## Model

| member | source | states |
|---|---|---|
| DataTransform.SatisfactionToNumber | lib/dataTransform.ts:4-12 | the score is 4, 3, 2, 1 exactly for the four labels and 0 for every other text, so it lies in 0..4 |
| DataTransform.ParseVisitPurposes | lib/dataTransform.ts:17-20 | empty or blank input gives []; every purpose is non-empty, comma-free and trimmed; at most one more purpose than commas; the purposes are the trimmed comma-separated pieces that are not blank, every such piece once, in their order in the cell |
| DataTransform.KeepsNonBlankPieces | lib/dataTransform.ts:19 | trimming every piece and dropping the empty ones keeps exactly the non-blank pieces, trimmed, at increasing positions |
| DataTransform.DropEmptyPicks | lib/dataTransform.ts:19 | `filter(p => p.length > 0)` keeps exactly the non-empty pieces, in order |
| DataTransform.Cell | lib/dataTransform.ts:48-61 | `row[i] \|\| ''`: the cell at column i, or '' past the end of the row; empty iff absent or empty |
| DataTransform.PurposesRoundTrip | lib/dataTransform.ts:17-20 | parsing the comma-join of clean purposes gives them back in order |
| DataTransform.ParseVisitPurposesIdempotent | lib/dataTransform.ts:17-20 | re-parsing the comma-joined result of a parse gives the same list |
| DataTransform.ParseSurveyRow | lib/dataTransform.ts:43-68 | null iff the row is shorter than the header row; otherwise each text field is its column or '' past the end, purposes are parsed from column 4, the five scores come from columns 5-9 and lie in 0..4, and the rating is parseInt of column 12, or 0 when that cell is absent or empty |
| JsBuiltins.Trim | lib/dataTransform.ts:18-19 | the result has no leading or trailing white space, is empty iff the input is all white space, and is a contiguous part of the input with only white space cut on either side |
| JsBuiltins.TrimOfTrimmed | lib/dataTransform.ts:19 | trimming already trimmed text changes nothing |
| JsBuiltins.Split | lib/dataTransform.ts:19 | one piece more than separators, none of them containing the separator |
| JsBuiltins.SplitJoin | lib/dataTransform.ts:19 | splitting the join of separator-free pieces gives the pieces back |
| JsBuiltins.JoinSplit | lib/dataTransform.ts:19 | joining the pieces of a split gives the original text |
| JsBuiltins.SplitChars | lib/dataTransform.ts:19 | every character of every piece comes from the split text |
| JsBuiltins.ParseInt | lib/dataTransform.ts:62 | NaN iff, after leading white space and an optional sign, no digit follows; a negative result only after a minus sign, and never negative without one |
| JsBuiltins.ParseIntOfPrefix | lib/dataTransform.ts:62 | leading white space, a digit run and any text that does not go on with a digit read as the run's value (`" 4"`, `"4점"` give 4) |
| JsBuiltins.ParseIntOfMinusPrefix | lib/dataTransform.ts:62 | the same with a minus sign before the digits gives the negated value |
| JsBuiltins.ParseIntOfIntText | lib/dataTransform.ts:62 | parseInt reads back the decimal text of every integer |
| JsBuiltins.ParseIntOfZeroText | lib/dataTransform.ts:62 | the default text '0' parses to 0 |
| JsBuiltins.ParseIntOfNonNumeric | lib/dataTransform.ts:62 | text that does not start (after blanks) with a sign or digit parses to NaN |
| Tally.FirstSeen | components/Charts.tsx:62-70 | the distinct keys, each exactly once |
| Tally.FirstSeenOrder | components/Charts.tsx:62-70 | the distinct keys appear in order of their first occurrence |
| Tally.CountsFacts | components/Charts.tsx:62-70 | count entries name each distinct key once, in first-seen order, each value is its number of occurrences and at least 1, and the values sum to the number of keys |
| Tally.SumValuesPermutation | components/Charts.tsx:246-248 | reordering entries does not change their total |
| Tally.NamesPermutation | components/Charts.tsx:246-248 | reordering entries does not change which names they carry |
| Tally.Add | components/Charts.tsx:63-64 | one accumulator step keeps the insertion order and the counts exact for the keys seen so far plus the new key |
| Tally.Entries | components/Charts.tsx:67-70 | `Object.entries` of the accumulator: the names are the insertion order, and each value is the key's accumulated count |
| Tally.CountBy | components/Charts.tsx:62-65 | the reduce loop yields the first-seen key order and the exact multiplicity of every key, i.e. the entries of `Counts` |
| StableSort.Sort | components/Charts.tsx:107-112 | the sorted result is ordered by key and a permutation of the input |
| StableSort.SortIsStable | components/Charts.tsx:107-112 | elements with equal keys keep their input order |
| StableSort.SortIsTheStableSort | components/Charts.tsx:107-112 | any key-ordered rearrangement keeping ties in input order equals `Sort` |
| Charts.ClientRating | app/page.tsx:31-34 | the rating as the dashboard receives it: a parsed integer unchanged, NaN (sent as JSON `null`) as 0 in a sum |
| Charts.RatingSum | components/Charts.tsx:29 | the rating total is 0 when no rating parsed |
| Charts.RatingSumBounds | components/Charts.tsx:29 | when every rating is a star, unparsed (NaN) or the parser's 0 for an empty cell, the total lies between the number of stars and 5 times it |
| Charts.RatingSumIsWeighted | components/Charts.tsx:29 | when every rating is a star, unparsed (NaN) or the parser's 0 for an empty cell, the total is the number of 1-star ratings plus twice the 2-star ones and so on |
| Charts.BarsWeight | components/Charts.tsx:212-215 | the histogram's bars, weighted 1..5, give that same star total |
| Charts.RatingSumFromBars | components/Charts.tsx:29 | when every rating is a star, unparsed (NaN) or the parser's 0 for an empty cell, the total the rating card averages is 1·bar 1 + 2·bar 2 + … + 5·bar 5 of the rating histogram |
| Charts.AllSatisfactionScores | components/Charts.tsx:31-37 | five scores per record, score 5i+d is dimension d of record i, all in 0..4 when every record is scored in range |
| Charts.SumIntsBounds | components/Charts.tsx:38 | a sum of scores in 0..4 lies between 0 and 4 times their number |
| Charts.SummaryCards | components/Charts.tsx:27-38 | total is the record count; the pooled list holds 5·total scores whose sum lies in [0, 4·5·total] when every record is scored; the rating total is `RatingSum` and the score sum is the sum of the pooled scores; the rating total lies between the number of stars and 5 times it, at most 5·total, when every rating is a star, unparsed (NaN) or the parser's 0 for an empty cell |
| Charts.ParsedRowsAreScored | components/Charts.tsx:31-37 | every record the endpoint returns has its five scores in 0..4 |
| Charts.DimensionSum | components/Charts.tsx:176-179 | one dimension's sum lies in [0, 4n] |
| Charts.SatisfactionChart | components/Charts.tsx:167-184 | five entries carrying the five labels in the fixed order, entry d's value the sum of dimension d over the records, in [0, 4n] |
| Charts.PooledSumIsDimensionSums | components/Charts.tsx:31-38 | the pooled score sum of the summary card equals the sum of the five dimension sums |
| Charts.GenderChart | components/Charts.tsx:61-70 | the entries equal `Counts` of the genders: each distinct gender once, in first-seen order, each count its multiplicity and at least 1, counts summing to the record count |
| Charts.IndexOf | components/Charts.tsx:111 | -1 iff the name is not listed, otherwise the position of its first occurrence |
| Charts.CountInDisplayOrder | components/Charts.tsx:107-112 | the stable sort of the counts by list position: a permutation of the counts, non-decreasing in `indexOf`, unlisted names before listed ones, ties in first-seen order |
| Charts.AgeChart | components/Charts.tsx:101-112 | the age counts sorted stably by position in the age list, unlisted ages first |
| Charts.VisitFrequencyChart | components/Charts.tsx:134-145 | the frequency counts sorted stably by position in the frequency list, unlisted frequencies first |
| Charts.StarCount | components/Charts.tsx:212-215 | at most the number of ratings, and equal iff every rating is in 1..5 |
| Charts.StarBuckets | components/Charts.tsx:212-215 | the counts of ratings 1..5 add up to the number of ratings in 1..5 |
| Charts.RatingBarsSum | components/Charts.tsx:212-215 | the five bars add up to the number of ratings in 1..5 |
| Charts.RatingBars | components/Charts.tsx:212-215 | five bars, bar k named k점 and counting the ratings equal to k |
| Charts.RatingChart | components/Charts.tsx:206-215 | five entries named 1점..5점 in order, entry k counting the records rated k; the total is at most n, and exactly n iff every rating is in 1..5 |
| Charts.RatingBarsFacts | components/Charts.tsx:212-215 | the rating bars count each star exactly and sum to at most n, with equality iff all ratings are stars |
| Charts.CountPurposes | components/Charts.tsx:239-243 | the inner loop extends the counts exactly by one record's purposes |
| Charts.VisitPurposeChart | components/Charts.tsx:237-248 | the stable sort of the purpose counts by descending count: each distinct purpose exactly once, counts non-increasing, summing to the number of purposes across all records, ties in first-seen order |
| Charts.RankedFacts | components/Charts.tsx:246-248 | sorting the counts by descending value keeps each key once, the total, and the order of ties |
| GoogleSheets.FindSheet | lib/googleSheets.ts:54-56 | the index of the first sheet whose id equals the target, or none iff no sheet matches |
| GoogleSheets.ResolveSheetName | lib/googleSheets.ts:52-62 | the titled first match wins, else the first sheet's title, else "Sheet1"; never empty |
| GoogleSheets.SheetNameOrigin | lib/googleSheets.ts:52-62 | the name is "Sheet1" or the title of one of the sheets |
| GoogleSheets.NonNumericGidFallsBack | lib/googleSheets.ts:53-62 | a gid that parses to NaN matches no sheet, so only the fallback decides |
| GoogleSheets.SheetRange | lib/googleSheets.ts:67 | the range is the sheet name followed by '!A:Z' |
| GoogleSheets.SheetRangeSplits | lib/googleSheets.ts:67 | a name without '!' is recovered from the range |
| GoogleSheets.CheckValues | lib/googleSheets.ts:70-75 | success iff the values are present and non-empty, and then they are returned unchanged; otherwise the no-data error |
| GoogleSheets.GetSpreadsheetData | lib/googleSheets.ts:52-79 | API errors are rethrown unchanged; a success is non-empty and is exactly what was read for the resolved range; a completed read is judged by the no-data rule |
| SheetsRoute.ProjectId | app/api/sheets/route.ts:39 | 'unknown' iff there is no message or no 'project ' followed by a digit; otherwise the full digit run after the leftmost such match |
| SheetsRoute.ClassifyError | app/api/sheets/route.ts:34-71 | API_NOT_ENABLED iff code 403 with first reason accessNotConfigured; PERMISSION_DENIED iff another 403; UNKNOWN_ERROR iff not 403; status 403 iff code 403, else 500; project id only for API_NOT_ENABLED; the error text of each kind, the enable-API message with the project id, the grant-access message, and the message of an Error or the default text |
| SheetsRoute.NoDataIsServerError | app/api/sheets/route.ts:63-70 | the empty-spreadsheet error is answered with 500 UNKNOWN_ERROR and its message |
| SheetsRoute.ParsedRows | app/api/sheets/route.ts:21-27 | never more records than data rows |
| SheetsRoute.ParsedRowsFromRows | app/api/sheets/route.ts:21-27 | every record returned is the parse of some data row |
| SheetsRoute.CollectKeeps | app/api/sheets/route.ts:21-27 | a property of every parse result holds of every record collected |
| SheetsRoute.ParsedRowsLength | app/api/sheets/route.ts:21-27 | every data row survives iff every row is at least as long as the header row |
| SheetsRoute.ParsedRowsAppend | app/api/sheets/route.ts:21-27 | collecting distributes over concatenation of rows |
| SheetsRoute.ParsedRowsAreLongRows | app/api/sheets/route.ts:21-27 | the result is the parse of exactly the rows at least as long as the headers, one record each |
| SheetsRoute.HeaderTextIrrelevant | app/api/sheets/route.ts:17-27 | only the number of header cells matters, not their text |
| SheetsRoute.CollectSurveyData | app/api/sheets/route.ts:21-27 | the loop keeps the non-null parses of the data rows in order |
| SheetsRoute.Get | app/api/sheets/route.ts:5-72 | errors are classified; an empty list gives 404 'No data found'; otherwise the header row is split off, the rest parsed, and total equals the number of records |
| SheetsRoute.EmptySheetIsNotNotFound | app/api/sheets/route.ts:9-14 | the read never returns an empty list, and its no-data error gets status 500 |
| Middleware.Gate | middleware.ts:5-30 | /api/auth paths pass; /login with a session goes to /; / without a session goes to /login; nothing else redirects |
| Middleware.NoRedirectLoop | middleware.ts:15-27 | following a redirect with the same session never redirects again |
| Middleware.Handle | middleware.ts:32-43 | unmatched paths pass, matched paths get the gate's decision |
| Middleware.MatcherSkipsAuthApi | middleware.ts:10-12 | every /api/auth path is excluded by the matcher |
| Middleware.MatcherReachesRedirects | middleware.ts:41 | / and /login are matched |
| Middleware.MatcherExclusions | middleware.ts:41 | paths under /api, /_next/static, /_next/image and /favicon?ico (any character for the dot) are not matched, nor paths without a leading slash |
| Middleware.MatcherAdmits | middleware.ts:41 | a slash followed by anything that starts with none of the excluded words' first letters is matched |
| Middleware.MatcherIsTransparent | middleware.ts:5-43 | with the matcher in front, every path gets exactly the gate's decision |

## Left out

- The JSX of every chart and card, the colours, the percentage label and `toFixed` formatting: presentation only.
- Floating-point averages (`avgRating`, `avgSatisfaction`, `calculateAverage`): only the integer sums and counts behind them are modelled; with no records the code divides 0 by 0 and shows NaN.
- Charts.SatisfactionChart: each entry's value is the dimension's sum, not the sum divided by the record count, because the division is floating point.
- Charts.SummaryCards: reports the rating total, the score count and the score sum rather than the two averages, for the same reason.
- The JSON encoding between the endpoint and the page (app/page.tsx:31-34) is not modelled as such: its one effect on the charts, NaN ratings arriving as `null`, is `Charts.ClientRating`; `null` is no star, so the histogram counts the same records.
- The Google API calls, the service-account credentials, environment defaults and file-path resolution: the spreadsheet metadata and the value read are inputs of `GoogleSheets.GetSpreadsheetData`.
- The asynchronous session lookup: the session is a boolean input of `Middleware.Gate`.
- The NextAuth configuration (auth.ts, lib/auth.ts), the page component (app/page.tsx) apart from the JSON read above, and the layout (app/layout.tsx): they are not part of this model.
- Prototype keys of plain JavaScript objects (`mapping['constructor']`, an accumulator key `__proto__`) and the rule that `Object.entries` lists integer-like keys first: keys are treated as ordinary and kept in insertion order.
- Rating keys: the accumulator at components/Charts.tsx:207-210 keys by `String(rating)`; the model counts the parsed values themselves, which groups the same records.
- Regex engines: `match(/project (\d+)/)` and the matcher pattern are written as prefix and digit-run scans with the same outcome.
- `parseInt` precision: the model returns the exact integer, whereas JavaScript rounds numbers beyond 2^53.
- The `catch` in `parseSurveyRow`: its body cannot throw on rows of text, so the branch is unreachable and not modelled.
- A missing value range, error list or sheet list is represented by an absent `Option` or an empty list; a missing `sheets` list in the metadata is the empty list for `GoogleSheets.ResolveSheetName`.
- Console logging throughout.
