# TrackWise core in Dafny

TrackWise is a receipt-based expense tracker with three stages:

1. An OCR stage (`extract_data.py`) turns receipt images into expense records.
2. A three-agent run (`run.py` and `agents.py`) categorises the receipts, analyses the spending and writes budget advice.
3. A dashboard (`app.py`) draws totals, rankings, a budget tracker and the per-category breakdown.

This project models the deterministic bookkeeping of those three stages.

- **The OCR scanner** (`ExtractData`) is a class that holds the stored expense list. `ProcessAll` walks the listed image files in a loop and skips any file that is already recorded. For each new file it asks the OCR service for a reply. When the reply holds a receipt, it appends the record that `ExtractFields` builds from the first receipt. `SummaryTotal` is the total that `show_summary` prints.
- **The agent bookkeeping** (`Agents`, `Tally`):
  - the category list;
  - the one-line-per-receipt text of the categorising prompt;
  - `analyze_task`'s loop, which files each amount under its category and adds it to the grand total. A null total counts as 0, and an uncategorised receipt counts as "Other".

  The per-key running sum `d[k] = d.get(k, 0) + amount` is an association list in insertion order, because a Python dict keeps insertion order.
- **The run** (`Run`):
  - `clean_json_response`: fence stripping, the brace span, then the parser.
  - The filter for receipts that are not yet categorised.
  - The `{**old, **new}` merge of categorisations.
  - The fallback analysis and advice records.
  - The outcome of one run. It is skipped, or it completes. Or it raises one of the Python errors the code raises on the values modelled here, either before writing its output or after writing it, while printing the summary.
- **The dashboard** (`Dashboard`, `Ranking`):
  - totals, the average and the highest receipt;
  - merchant sums and the top ten merchants;
  - the fifteen most recent receipts;
  - budget progress and its alert band;
  - the colour of the advice status;
  - the rows of the category table.

Money is an exact `real`. The agents' replies, the OCR service, the image-folder listing and the clock are parameters. The JSON parser is also a parameter, `string -> Option<...>`. Its None stands for a decode error. The text handed to the parser always starts with `{`, so a successful parse is always an object.

The fence stripping is `re.sub(marker + r'\s*', '', text)`, once for "```json" and once for "```". It is modelled exactly: matches are found left to right without overlap, and the whitespace class is Python's `str.isspace`. The model proves that stripping deletes only backticks, the letters of `json` and whitespace. In particular, the braces survive in order.

## Model

| member | source | states |
|---|---|---|
| Agents.AnalyzeTotals | agents.py:88-102 | The loop leaves by_category equal to the per-category fold of the expenses, with distinct keys. The value under each category is the sum of the amounts filed there, where a null total counts 0 and a missing entry or category counts as "Other". total_spent is the sum of all amounts and equals the sum of by_category's values. An empty list gives {} and 0. |
| Agents.AnalyzeIgnoresUnlistedImages | agents.py:92-94 | Two categorisations that agree on every listed image give the same by_category, whatever other images they hold. |
| Agents.CategoryOfEntry | agents.py:94 | An expense is filed under a category other than "Other" only when its own entry names that category. Without an entry, or with an entry that has no category, it is filed under "Other". |
| Agents.UncategorisedGoToOther | agents.py:10-20 | A receipt with no categorisation entry, or with no category in its entry, is filed under "Other". "Other" is one of CATEGORIES and then appears among the by_category keys. |
| Agents.ReceiptLines | agents.py:63-66 | The receipts block of the categorising prompt exists exactly when every expense has a merchant key; otherwise the comprehension raises KeyError. |
| Agents.OneLinePerExpense | agents.py:63-66 | For a non-empty list in which no field holds a line break, the block has exactly one line per expense, in input order. Line i is "- image_file: merchant, ₹total". |
| Tally.Bump | agents.py:101 | `d[k] = d.get(k, 0) + amount` adds amount under k and leaves every other key's value unchanged. The sum of the values grows by amount. |
| Tally.BumpKeys | agents.py:101 | A key already present keeps its position. A new key is appended at the end, which is dict insertion order. |
| Tally.TallyGet | agents.py:92-101 | After the loop, the value under k is the sum of the amounts of the expenses whose key is k. |
| Tally.TallySum | agents.py:101-102 | After the loop, the values add up to the total of all amounts, so by_category sums to total_spent. |
| Tally.TallyKeys | agents.py:89-101 | After the loop, the keys are distinct and are exactly the keys of the expenses. There are never more keys than expenses. |
| Run.DropSpaces | run.py:12-13 | `\s*` removes the whole run of leading whitespace and nothing else. |
| Run.DeleteMatches | run.py:12-13 | One `re.sub(marker + r'\s*', '', text)`: the result is no longer than the text and holds only characters of the text. A text without the marker is returned unchanged. |
| Run.StripFences | run.py:12-13 | The two substitutions never lengthen the text, add no character, and leave a reply without a "```" fence unchanged. |
| Run.TrailingMarkerGoes | run.py:12-13 | After a backtick-free text, a marker that opens with a backtick is deleted, and the text is kept whole. |
| Run.FencedReply | run.py:12-13 | A reply of the form "```json", a line break, a JSON text, then "```" comes out as the JSON text alone, when that text holds no backtick and does not start with whitespace. |
| Run.StripFencesKeeps | run.py:12-13 | The two substitutions delete only backticks, the letters of "json" and whitespace. Every other character survives, in order. |
| Run.StripFencesKeepsBraces | run.py:12-15 | Stripping keeps the sequence of braces. The stripped text holds a `{` (or a `}`) exactly when the reply does. |
| Text.Find | run.py:14 | `str.find`: -1 exactly when the character is absent. Otherwise it is the index of its first occurrence. |
| Text.RFind | run.py:15 | `str.rfind`: -1 exactly when the character is absent. Otherwise it is the index of its last occurrence. |
| Run.BraceSpan | run.py:14-17 | When the span exists, it runs from the first `{` to the last `}` inclusive. It starts with `{` and ends with `}`, no `{` comes before it and no `}` comes after it. |
| Run.BraceSpanExists | run.py:14-16 | `start != -1 and end > start` holds exactly when some `{` is followed later by a `}`. |
| Run.CleanJsonResponseSpec | run.py:10-22 | A reply without `{` or without `}` yields None. Otherwise the parser sees exactly the candidate span, and a parse failure yields None rather than an error. |
| Run.NewExpenses | run.py:36 | The new receipts are the expenses, in order, whose image has no stored categorisation, and only those. |
| Run.NewExpensesCounts | run.py:36 | Each receipt with an uncategorised image appears as often as in the expense list, repeats included, and every other receipt appears 0 times. |
| Run.NothingNew | run.py:36-38 | Nothing is new exactly when every expense's image already has a categorisation. |
| Run.Merge | run.py:68 | `{**old, **new}` has the union of the keys. A new entry wins a conflict, and an old entry not replaced is kept. |
| Run.OrFallback | run.py:85-105 | `if not parsed: parsed = fallback`: the parsed object is kept when it is present and non-empty. Otherwise the fallback is used, so a non-empty fallback never yields {}. |
| Run.RunExpenseCrew | run.py:25-40 | The run is skipped exactly when nothing is new, and then it returns the stored output. The corrected run never raises the unbound-variable error. |
| Run.Pipeline | run.py:54-131 | Once something is new, the run is never skipped. If it writes an output, then every new receipt has a merchant and the categorising reply yielded an object. |
| Run.PipelineWrites | run.py:56-131 | Once something is new, the output is written exactly when the new receipts all have merchants, the categorising reply yields an object, and the kept analysis has an "insights" with a length. The written output is the merged categorisation with the kept analysis and advice. The run then completes exactly when the summary can list by_category and slice the tips. |
| Run.SkipWhenNothingNew | run.py:38-40 | With nothing new, the corrected run returns the stored output unchanged, and no agent reply affects the outcome. |
| Run.RunFailsBeforeWriting | run.py:36-89 | The run raises before writing anything exactly when something is new and one of three things holds. A new receipt lacks its merchant key, so agents.py:64 raises KeyError. Or the categorising reply yields no object, so `{**old, **None}` raises TypeError. Or the kept analysis has a null, boolean or numeric "insights", so `len` raises TypeError. The first that applies, in that order, is the error reported. |
| Run.WrittenOutput | run.py:67-131 | The output is written exactly when something is new, the new receipts all have merchants, the categorising reply yields an object and the kept analysis's "insights" has a length. It holds the merged categorisation, plus the analysis and advice, each replaced by its fallback when its reply yields nothing or {}. The run completes exactly when, in addition, by_category is missing or an object and tips is missing, a string or an array. |
| Run.WrittenMerges | run.py:67-68 | A written output keeps every stored categorisation the new reply does not replace, and takes the new reply's entry on a conflict. |
| Run.WrittenFallbackAnalysis | run.py:85-89 | When the analysing reply yields nothing or {}, the insights count cannot raise. The output is written exactly when something is new, the new receipts have merchants and the categorising reply yields an object. It records total_spent as the sum of the totals (null counting 0), empty insights and anomalies, and no by_category. Only the tips can then make the summary raise. |
| Run.FallbackAnalysisFields | run.py:86-87 | The fallback analysis has exactly those field values. |
| Run.WrittenFallbackAdvice | run.py:104-105 | When the advising reply yields nothing or {}, a written output records no tips and the quick win "Track your spending daily". Only by_category can then make the summary raise. |
| Run.FallbackAdviceFields | run.py:105 | The fallback advice has exactly those field values. |
| Run.AsWrittenFailsOnEmptyFirstRun | run.py:29-40 | As written, a first run over an empty expense list reaches `return old_data` with old_data unbound. The corrected run returns nothing stored. |
| Run.AsWrittenDiffersOnlyThere | run.py:29-40 | The as-written and corrected runs differ exactly when nothing is stored and the expense list is empty. |
| ExtractData.ExtractFields | extract_data.py:38-52 | The record comes from the first receipt and is filed under the bare file name. A missing merchant_name becomes "Unknown" and missing items become []. date, time, total, subtotal and tax are copied, or null when missing. id and scanned_at come from the clock. |
| ExtractData.ExtractReadsFirstOnly | extract_data.py:39 | Receipts after the first in a reply have no effect. |
| ExtractData.Step | extract_data.py:63-77 | An already recorded file is skipped. A reply that is missing, has no receipts key or has no receipts changes nothing. A new file whose reply holds a receipt gets exactly one record appended: the record that ExtractFields builds for it. |
| ExtractData.IngestGrows | extract_data.py:62-77 | The earlier records stay as a prefix, and at most one record is added per listed file. |
| ExtractData.IngestAddsListedFiles | extract_data.py:62-77 | The image names of the appended records form a subsequence of the listed files: listing order, at most once each. |
| ExtractData.IngestRecordsScanned | extract_data.py:62-77 | After the loop, every listed file whose scan holds a receipt is recorded, and every file recorded before still is. |
| ExtractData.IngestKeepsUnique | extract_data.py:63-65 | When the stored image names are distinct, they stay distinct, because a recorded file is never scanned again. |
| ExtractData.OcrScanner.constructor | extract_data.py:13-17 | The scanner starts with the stored list, or an empty list when nothing is stored. |
| ExtractData.OcrScanner.ProcessAll | extract_data.py:55-77 | After the loop, the list is the fold of the per-file step over the listing. The old list is a prefix, at most one record is added per file, the added names follow the listing, and distinct names stay distinct. Every listed file whose scan holds a receipt ends up recorded, and no earlier record is lost. |
| ExtractData.OcrScanner.SummaryTotal | extract_data.py:92 | The summary total equals the sum of all totals with null counting 0. |
| Records.TotalSpentBounds | app.py:127 | `sum(e.get('total', 0) or 0 ...)` with no negative total is not negative, and it is at least each single amount. |
| Records.TruthyTotalAgrees | extract_data.py:92 | Summing only the truthy totals gives the same sum as counting null as 0, as app.py:127 does. |
| Dashboard.Average | app.py:132 | For a non-empty list, the average times the number of receipts is the total spent. |
| Dashboard.Highest | app.py:134-136 | The highest is absent exactly when no total is truthy. Otherwise it is one of the truthy totals, and every truthy total is at most it. |
| Dashboard.MerchantTotals | app.py:145-149 | The loop's dict has distinct keys, which are exactly the expenses' merchants, with a missing one counting as "Unknown", so there are at most as many keys as expenses. Each value is the sum of that merchant's amounts, and all values add up to the total spent. |
| Dashboard.TopMerchants | app.py:151-154 | The chart shows min(10, n) merchants, largest first, taken from merchant_totals. No merchant left out has a larger amount than one shown. |
| Dashboard.DateFirstIsTotalPreorder | app.py:199 | Latest date first with missing dates last is a total preorder, so the ranking below is well defined. |
| Dashboard.RecentTransactions | app.py:195-199 | The table shows min(15, n) receipts, latest date first, taken from the expenses. No receipt left out is dated later than one shown. |
| Ranking.TopSpec | app.py:153 | The first n of a descending sort: min(n, len) elements, ranked, taken from the input. Nothing left out ranks ahead of anything taken. |
| Dashboard.Remaining | app.py:417 | The remaining budget is positive exactly when less than the budget was spent, and 0 exactly when the budget was spent exactly. Spent plus remaining is the budget. |
| Dashboard.Progress | app.py:418 | With a positive budget, progress times budget equals spent times 100. Otherwise progress is 0. |
| Dashboard.ProgressBar | app.py:423 | The bar is at most 1. It is progress/100 up to 100%, and full beyond. |
| Dashboard.AlertFor | app.py:430-437 | Exceeded exactly at progress >= 100, the 80% warning exactly on [80, 100), halfway exactly on [50, 80), and within budget exactly below 50. |
| Dashboard.AlertMonotone | app.py:416-437 | Under a fixed positive budget, spending more never gives a milder alert. |
| Dashboard.ExceededIffNothingRemains | app.py:417-431 | Under a positive budget, the exceeded alert shows exactly when the remaining amount is at most 0. |
| Dashboard.ZeroBudgetReadsWithin | app.py:418-437 | With a budget of 0, progress and the bar are 0 and the page reports "within budget", whatever was spent. |
| Dashboard.StatusKindOf | app.py:361-368 | The status shows in red exactly when its lower-cased text contains "over", in green when it contains "under" but not "over", and neutral otherwise. A missing status ("N/A") is neutral. |
| Dashboard.StatusIgnoresCase | app.py:363-365 | The colour does not depend on letter case. |
| Dashboard.CategoryBreakdown | app.py:228-242 | There is one row per by_category entry, in descending amount order. Each row has its share of total_spent (0 when total_spent is not positive) and the number of categorisation entries naming it. The shares add up to 100 when total_spent is positive and is the sum of the amounts. |
| Dashboard.RowsOrdered | app.py:229 | Rows come largest amount first. |
| Dashboard.SharesAddUp | app.py:229-230 | The percentages add up to 100 when the total is positive and is the sum of the amounts. |
| Dashboard.SortedSum | app.py:229 | Sorting the entries keeps the sum of their amounts. |
| Dashboard.ReceiptCount | app.py:232-235 | A category's receipt count is 0 exactly when no categorisation entry names it. |
| Dashboard.ReceiptCountBound | app.py:232-235 | A category's receipt count never exceeds the number of categorisation entries. |

## Left out

- The language-model calls (crewai agents and their prompts' prose) are not modelled. Each reply is an arbitrary string parameter.
- The analysing and advising prompt texts are not modelled, beyond the by_category and total_spent figures that `analyze_task` computes. In particular, the `json.dumps` rendering of by_category is left out.
- JSON decoding is an abstract parser parameter. A categorisation entry that is not an object, or a category that is not a string, is outside the model, because the parser's result type cannot express it.
- The OCR HTTP request (`scan_image`) is a function parameter from path to reply. A non-200 status and a missing reply both appear as None.
- OcrScanner.ProcessAll: an exception inside `scan_image` is not modelled. The exception can come from `open` (extract_data.py:20), `requests.post` (extract_data.py:21) or `response.json()` (extract_data.py:34). Any of them aborts `process_all` and leaves the later files unscanned. The scan parameter cannot raise, so the promise that every listed file whose scan holds a receipt is recorded assumes no such exception.
- File reads and writes are left out: the stored expense list and the stored crew output are parameters, and the per-record save inside `process_all` is not modelled. `os.listdir` is the `files` parameter.
- The timestamps from `datetime.now()` come from a clock parameter keyed by file name.
- `os.path.join` is modelled as `dir + "/" + file`, which matches the source only for the bare file names that `os.listdir` returns.
- A JSON null in a string field (merchant, category, date) is folded into "missing". The source would treat a null merchant as the key None in `merchant_totals` and print it as "None". It would also write "None" into the categorising prompt, where the model reports the KeyError of a missing merchant key.
- A null `budget_status` in the advice is folded into "missing". The source's `None.lower()` (app.py:363) raises AttributeError; the model shows the neutral "N/A" status.
- An OCR reply whose "receipts" is null is not representable. The source's `len(None)` (extract_data.py:72) raises TypeError and aborts `process_all`; the model has no such reply.
- An OCR receipt whose "items" is null is folded into missing items. The source stores null (extract_data.py:50); the model stores [].
- RunExpenseCrew: errors on values the modelled types cannot hold are not modelled as failures. These are a categorisation entry that is not an object, a category that is a list or an object, and a total that is not a number.
- Float rounding and formatting (`:.2f`, `:,.2f`, `:.1f`) are left out. The money formatting in the prompt line is a function parameter.
- All Streamlit and plotly drawing, `print` output, the Home and Insights page lists, and the `show_summary` listing of the last five receipts are left out.
- The per-receipt details table of the Detailed View (app.py 276-286) is not part of this model.
- Upload handling and budget persistence in app.py are not part of this model. The budget is a parameter.
- analysis.py is not part of this model.
- Dashboard.RecentTransactions: pandas `sort_values` is not stable, so the model fixes one tie order (input order). It states only the ranking properties, which hold for any tie order.
- Agents.ReceiptLines: the KeyError on a missing merchant key is modelled as a None result, not as an exception.
- Dashboard.StatusKindOf: lower-casing is ASCII only; Python's `str.lower` also folds non-ASCII letters.

## Findings

| source | as written | input that shows it | evidently intended | confidence | as-written member | corrected member |
|---|---|---|---|---|---|---|
| run.py:29-40 | When no crew output is stored and nothing is new, `return old_data` reads a variable that was never assigned and raises UnboundLocalError | no outputs/crew_analysis.json and an empty outputs/expenses.json list (`[]`) | skip the run and return nothing stored (None) | not executed | Run.RunExpenseCrewAsWritten (shown by Run.AsWrittenFailsOnEmptyFirstRun) | Run.RunExpenseCrew (Run.SkipWhenNothingNew, Run.AsWrittenDiffersOnlyThere) |
