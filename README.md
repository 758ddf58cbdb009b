# Supermarket sales dashboard — a Dafny model

This project models the two pieces of logic in a small supermarket-sales
dashboard:

* the offline cleaning script (`datatreatment.py`), which drops the columns
  `cogs`, `gross margin percentage` and `gross income` from the sales table and
  rewrites every `Invoice ID` whose last two digits are 47 to 57 so that they
  read `00`;
* the aggregations behind the dashboard's callbacks (`index.py`): the five
  dearest products of a product line, the ten best and worst rated sales,
  revenue per branch, sales per month, the customer-profile counts, the
  weekday/weekend split, the payment-method codes and the scatter plot fed by
  them, and the "nothing selected" guards.

Modules, one per concern:

| file | module | models |
|---|---|---|
| `wrappers.dfy` | `Wrappers` | `Option` (a missing value) and `Result` (an operation that may raise) |
| `preparation.dfy` | `Preparation` | `datatreatment.py`: the CSV table as text, the column drop, the identifier rewrite |
| `ordering.dfy` | `Ordering` | the key orders pandas' `groupby` sorts by: Python's string order, tuples of strings, ints, bools |
| `grouping.dfy` | `Grouping` | `groupby(key)[col].sum()` / `.count()` |
| `ranking.dfy` | `Ranking` | `nlargest` / `nsmallest` with `keep='first'`, and boolean-mask filtering |
| `sales.dfy` | `Sales` | the sales record, the payment mapping, and the global frame (`SalesFrame`) whose derived columns are assigned in place |
| `dashboard.dfy` | `Dashboard` | the callbacks as pure functions of the record set and the dropdown value |

Amounts (unit price, total) and ratings are fixed-point integers, so sums are
exact; dates are already decoded into year, month (1–12) and day of week
(Monday = 0). A callback's output is `Blank` (the empty figure or empty string
a guard returns) or `Shown(data)`, where `data` is what the figure or list is
fed.

Behaviour of the code worth knowing before reading the model:

* Running the cleaning a second time on already cleaned data fails:
  `df.drop(columns=...)` raises `KeyError` when a label is absent
  (`Preparation.DropTwiceFails`).
* For five weekday sales of 10 and two weekend sales of 20 the weekday/weekend
  pie is fed `[40, 50]`, weekend first, because `groupby` puts `False`
  (weekend) first, while its labels are fixed weekday first
  (`Dashboard.SalesPatternSampleWeek`). See Findings.
* Monthly sales merge the same month of different years into one bar
  (`Dashboard.SalesByMonthMergesYears`).

Two details of `re.sub(r'(\d{2})$', ...)` are modelled as Python behaves: `$`
also matches just before a newline that ends the string
(`Preparation.NormalizeBeforeFinalNewline`), and at most one replacement is
ever made (`Preparation.SuffixMatch`). `\d` also matches non-ASCII digits, but
such a pair is never one of the ASCII strings `'47'`…`'57'`, so the identifier
is returned unchanged either way; the model treats only `0`–`9` as digits, with
the same result.

## Model

| member | source | states |
|---|---|---|
| `Preparation.ReservedSuffixRange` | datatreatment.py:11 | the eleven reserved strings are exactly the two-digit numerals whose value lies in 47..57 |
| `Preparation.SuffixMatch` | datatreatment.py:16 | the position where `(\d{2})$` matches: at the end or before a final newline; it is the only matching position, and none is returned when nothing matches |
| `Preparation.NormalizeId` | datatreatment.py:10-16 | the rewrite keeps the identifier's length, and a character can differ only inside the matched pair |
| `Preparation.NormalizeReserved` | datatreatment.py:11-12 | an identifier ending in a reserved pair becomes its prefix followed by "00" |
| `Preparation.NormalizeUnreserved` | datatreatment.py:13 | an identifier ending in two digits outside 47..57 is returned unchanged |
| `Preparation.NormalizeNoMatch` | datatreatment.py:16 | an identifier that does not end in two digits (nor in two digits and a newline) is returned unchanged |
| `Preparation.NormalizeBeforeFinalNewline` | datatreatment.py:16 | a reserved pair just before a final newline is rewritten to "00" and the newline kept |
| `Preparation.NormalizeChangesIff` | datatreatment.py:10-16 | the identifier changes if and only if the pattern matches at a reserved pair |
| `Preparation.NormalizeIdempotent` | datatreatment.py:10-16 | normalising twice gives the same as normalising once |
| `Preparation.NormalizeExamples` | datatreatment.py:10-16 | 898-04-52 becomes 898-04-00 and 898-04-30 is unchanged |
| `Preparation.WithoutMembers` | datatreatment.py:6-7 | a column survives the drop if and only if it was present and is not one of the dropped labels |
| `Preparation.KeptPositions` | datatreatment.py:7 | the surviving column positions are exactly the undropped ones, strictly increasing |
| `Preparation.ProjectKeptIsWithout` | datatreatment.py:7 | taking the header cells at the surviving positions gives the surviving column names in order |
| `Preparation.DropColumns` | datatreatment.py:6-7 | fails with KeyError naming the absent labels if and only if one is absent; otherwise keeps every row, the surviving columns in order, and each cell under its own column |
| `Preparation.DropFixedColumns` | datatreatment.py:6-7 | exactly `cogs`, `gross margin percentage` and `gross income` disappear; every other column survives |
| `Preparation.DropTwiceFails` | datatreatment.py:7 | dropping the three columns from an already cleaned table raises KeyError |
| `Preparation.NormalizeColumn` | datatreatment.py:16 | element-wise rewrite: same header, same rows in the same order, each identifier replaced by its normalised form and every other cell unchanged |
| `Preparation.IdColumnKept` | datatreatment.py:7-16 | after the drop, `Invoice ID` still selects the cells that were under it before |
| `Preparation.Prepare` | datatreatment.py:6-16 | succeeds if and only if the three dropped columns and `Invoice ID` are present, failing with the `KeyError` of the step that lacks a label; on success the surviving columns in order, the same rows in the same order, each row's identifier normalised from the same row's identifier, and every other cell equal to the raw cell of its column |
| `Ordering.StrLessIsStrictTotalOrder` | index.py:229 | Python's string order, by which branches are sorted, is a strict total order |
| `Ordering.IntLessIsStrictTotalOrder` | index.py:212 | the order of month numbers is a strict total order |
| `Ordering.BoolLessIsStrictTotalOrder` | index.py:249 | False before True is a strict total order |
| `Ordering.TripleLessIsStrictTotalOrder` | index.py:192 | the tuple order on (City, Customer type, Gender) is a strict total order |
| `Grouping.Add` | index.py:212 | adding a row to a grouped table keeps it strictly ordered by key and adds the row's key to its keys |
| `Grouping.GroupSum` | index.py:229 | one group per distinct key, in strictly ascending key order |
| `Grouping.AddTotal` | index.py:212 | adding a row raises the table's total by the row's value |
| `Grouping.GroupSumConserves` | index.py:212 | the group sums add up to the sum over all rows |
| `Grouping.AddValueOf` | index.py:212 | adding a row changes only the value of the row's own key, by the row's value |
| `Grouping.GroupSumValueOf` | index.py:229 | the table's value for any key is the sum over the rows with that key |
| `Grouping.GroupSumGroups` | index.py:229 | every group holds the sum over exactly the rows with its key |
| `Grouping.ValueOfAt` | index.py:229 | in a table without repeated keys, a group's value is the table's value for its key |
| `Grouping.SumOfValues` | index.py:254 | the values fed to a chart add up to the table's total |
| `Ranking.Insert` | index.py:78 | placing a row into a ranked list keeps it ranked and adds exactly that row |
| `Ranking.Rank` | index.py:78 | the candidates ranked by larger key first, earlier row first among equal keys, none lost or added |
| `Ranking.Largest` | index.py:78 | nlargest(n, keep='first'): min(n, candidates) rows, ranked, all candidates, and every candidate left out ranks behind every one returned |
| `Ranking.LargestWhere` | index.py:75-78 | nlargest on a filtered frame: min(n, rows kept) kept rows, ranked, and every kept row left out ranks behind every one returned |
| `Ranking.RankedNonIncreasing` | index.py:78 | a ranked list has non-increasing keys and no repeated row |
| `Ranking.Where` | index.py:75 | a boolean filter keeps exactly the rows where it holds, in their order |
| `Ranking.WhereLength` | index.py:75 | the filter keeps as many rows as the mask has True entries |
| `Sales.PaymentCode` | index.py:138-144 | defined exactly for Ewallet, Cash and Credit card, with a code in 0..2 that maps back to the same method; any other method maps to missing |
| `Sales.PaymentCodeInverse` | index.py:138-144 | Ewallet→0, Cash→1, Credit card→2 is a bijection with its inverse, codes lie in 0..2, and any other method maps to missing |
| `Sales.PaymentColumn` | index.py:144 | one code per row, in row order, each the code of that row's own method |
| `Sales.MonthColumn` | index.py:211 | one month per row, taken from that row's date |
| `Sales.WeekdayColumn` | index.py:246 | a row is weekday exactly when its day of week (Monday = 0) is below 5 |
| `Sales.SalesFrame.constructor` | index.py:7 | the frame holds the records and none of the derived columns |
| `Sales.SalesFrame.AddPaymentNumeric` | index.py:144 | adds the payment-code column; the records and the other columns are unchanged |
| `Sales.SalesFrame.AddMonth` | index.py:210-211 | adds the month column; the records and the other columns are unchanged |
| `Sales.SalesFrame.AddWeekdayOrWeekend` | index.py:246 | adds the weekday flag column; the records and the other columns are unchanged |
| `Sales.SalesFrame.AddDerivedColumns` | index.py:144-246 | all three derived columns present, records unchanged, each column agreeing with its rows |
| `Sales.SalesFrame.ScatterPlot` | index.py:146-180 | one point per row with that row's price, invoice and payment code, whatever the dropdown value |
| `Dashboard.LineMask` | index.py:75 | one flag per row, true exactly at the rows of the selected product line; a cleared selection (None) marks no row |
| `Dashboard.PriciestRows` | index.py:75-78 | min(5, rows of the line) distinct rows, all of the selected line, ranked by price descending and earlier row first among equal prices, and no row of the line left out is dearer than one returned or as dear and earlier |
| `Dashboard.MostExpensive` | index.py:73-80 | the same length and price order, each entry the invoice and price of a returned row of the selected line |
| `Dashboard.MostExpensiveUnselected` | index.py:75 | a cleared product-line dropdown yields an empty list |
| `Dashboard.TopRatedRows` | index.py:92 | min(10, rows) distinct rows, ranked by rating descending and earlier row first among equal ratings, and no row left out is rated higher than one returned or as high and earlier |
| `Dashboard.BottomRatedRows` | index.py:105 | min(10, rows) distinct rows, ranked by rating ascending and earlier row first among equal ratings, and no row left out is rated lower than one returned or as low and earlier |
| `Dashboard.MostPopular` | index.py:87-94 | blank if and only if nothing is selected; otherwise min(10, rows) entries, best first, each the invoice, rating and product line of its own row |
| `Dashboard.LeastPopular` | index.py:100-107 | blank if and only if nothing is selected; otherwise min(10, rows) entries, worst first, each the invoice, rating and product line of its own row |
| `Dashboard.RevenueByBranch` | index.py:224-234 | blank if and only if nothing is selected; otherwise one bar per branch present, in ascending string order |
| `Dashboard.RevenueByBranchSums` | index.py:229 | each bar is its branch's revenue and the bars add up to the total revenue |
| `Dashboard.SalesByMonth` | index.py:205-217 | blank if and only if nothing is selected; otherwise one bar per month present, in ascending order |
| `Dashboard.SalesByMonthSums` | index.py:212 | each bar is its month's sales and the bars add up to the total sales |
| `Dashboard.SalesByMonthKeys` | index.py:211-212 | with valid dates every bar is a month from 1 to 12 |
| `Dashboard.SalesByMonthMergesYears` | index.py:210-212 | two sales of the same month in any years make a single bar holding both totals |
| `Dashboard.CustomerProfile` | index.py:187-198 | blank if and only if nothing is selected; otherwise one bar per (City, Customer type, Gender) present, in tuple order |
| `Dashboard.CustomerProfileCounts` | index.py:192-193 | each bar counts the rows of its combination and the counts add up to the number of rated rows |
| `Dashboard.PatternGroups` | index.py:246-249 | the weekday/weekend table is ordered False before True and has a group for each flag present |
| `Dashboard.SalesPattern` | index.py:241-258 | blank if and only if nothing is selected; otherwise the labels are the fixed weekday-first pair |
| `Dashboard.BoolGroupsShape` | index.py:249 | a table ordered False before True has at most two groups, weekend first |
| `Dashboard.PatternGroupsContents` | index.py:246-249 | the table's values are the weekend sum (if there are weekend sales) then the weekday sum (if there are weekday sales), adding up to all sales |
| `Dashboard.SalesPatternValues` | index.py:249-254 | the pie values add up to all sales and, with both kinds of day present, are [weekend, weekday] |
| `Dashboard.SalesPatternMislabels` | index.py:252-254 | with both kinds of day present, the slice labelled weekday holds the weekend sales and the one labelled weekend the weekday sales |
| `Dashboard.SampleWeekTotals` | index.py:246 | the sample week has weekend sales 40 and weekday sales 50 |
| `Dashboard.SalesPatternSampleWeek` | index.py:246-254 | on five weekday sales of 10 and two weekend sales of 20 the pie is labels [weekday, weekend] with values [40, 50] |
| `Dashboard.SalesPatternLabelled` | index.py:252-254 | corrected pie: blank if and only if nothing is selected, one label per value |
| `Dashboard.SalesPatternLabelledCorrect` | index.py:252-254 | corrected pie: the weekday slice holds the weekday sales, the weekend slice the weekend sales, and they add up to all sales |
| `Dashboard.SalesPatternLabelledSlices` | index.py:252-254 | corrected pie: a slice for each kind of day that has sales, and no other |

## Findings

| source | as written | input that shows it | evidently intended | confidence | as-written member | corrected member |
|---|---|---|---|---|---|---|
| index.py:249-254 | the pie values come in `groupby` order, False (weekend) first, while the labels are fixed as weekday, weekend | five weekday sales of 10 and two weekend sales of 20: the slice labelled "Dia da Semana" shows 40, the weekend total | each slice labelled with its own group: weekday 50, weekend 40 | high; not executed | `Dashboard.SalesPatternMislabels`, `Dashboard.SalesPatternSampleWeek` | `Dashboard.SalesPatternLabelledCorrect` |

When only one kind of day has sales, `groupby` yields a single value and the
pie gets two labels for one slice; the as-written pie then shows it as
"Dia da Semana" whichever kind of day it is (`Dashboard.PatternGroupsContents`).

## Left out

- CSV reading and writing (`pd.read_csv`, `to_csv`): file I/O. The cleaning script is modelled on the table as text; the dashboard on typed records.
- The Dash layout, callback registration, dropdown wiring and `app.run_server`: UI framework and HTTP server.
- Plotly figure construction and styling (`go.Pie`, `go.Scatter`, `px.bar`, titles, colours, facets) and the HTML list markup with its `:.2f` formatting: only the data fed to them is modelled.
- `update_pizza_graph` (mean rating per product line), `calcular_media_mensal_vendas` (mean of `Total`) and `calcular_correlacao_preco_vendas` (Pearson correlation), together with their `selected_column is None` guards: floating-point means and NaN behaviour.
- `pd.to_datetime` parsing: dates are given already decoded.
- Preparation.Prepare: `read_csv`'s type inference is not modelled; every cell of the cleaning script's table is text, so an `Invoice ID` column whose values all look like numbers, which `read_csv` would read as integers and on which `re.sub` at datatreatment.py:16 would raise `TypeError`, is rewritten instead of failing.
- Missing values (NaN): the record fields are never missing in the model, so `.count()` counts every row and `nlargest`/`nsmallest` never meet a NaN; a NaN `Invoice ID`, on which `re.sub` would raise, is not modelled either.
- Floating-point rounding in the sums: amounts are exact fixed-point integers.
- Which element pandas' internal selection path returns among equal keys: the model follows the documented `keep='first'` rule (the earlier row is preferred and listed first).
- The order in which callbacks run: `update_sales_pattern` reads `df['Date'].dt`, which only works after `update_sales_months` has converted the column in place. The model computes the derived columns once, up front (`Sales.SalesFrame.AddDerivedColumns`).
- The rating dropdown's value: it offers only the column `Rating`, so any value other than None is taken to name that column.
- Duplicate column names: `read_csv` renames them, so a header never repeats a name; `df['Invoice ID']` is modelled as the first column with that name.
