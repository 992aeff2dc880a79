# Cash-flow dashboard: sheet reader, dashboard figures and AI-prompt data

This project is a Dafny model of the data reshaping in a small cash-flow dashboard. It
has three parts:

- **The sheet reader** (`api/sheets.js`, module `Sheets`, imperative). It receives the
  spreadsheet grid as rows of string cells. Row 0 holds the months and row 1 the week
  labels; column 0 holds the row labels. The reader builds one record per week column.
  It then scans rows 2 onward with a state machine over the current section:
  - "Detalle Ingresos" opens income.
  - "Detalle Egresos" and "OPEX" open expenses.
  - "CAPEX" opens capex.
  - "Impuestos" opens taxes.
  - A label starting with "Total" or "SALDO" closes the section.
  - A blank label is skipped.
  - In every other row read while a section is open, each non-empty cell is stored as
    raw text in that section's map of the matching week, keyed by the row label.

  `ReadSheet` runs the scan on an array of week records and is proved to compute
  `Expected`, a reference definition stated week by week and section by section
  (`DetailUpTo`). `WriteRow`, the per-row cell loop, is proved to perform exactly the
  per-cell stores of one data row. The lemmas state what that definition
  means: which labels become keys, which value a repeated label keeps, which section is
  open at a row, and that rows 0 and 1 only give months and week labels. A grid without
  values or without its two header rows gives status 500 with
  "Error leyendo Google Sheets".
- **The dashboard figures** (`src/App.jsx`, module `Dashboard`, pure). The week selector
  filters the weeks: "ALL" keeps every week, any other value keeps the weeks with that
  label. The income, expense and balance KPIs are sums over the filtered weeks, with a
  missing field counted as 0. The forecast is the mean of the last four weeks of the
  unfiltered list, rounded half up, and the projected balance is income minus expense.
  A missing field or an empty window makes the mean `NaN`, modelled as `None`.
- **The AI-prompt data** (`src/AIRecommendations.jsx`, module `Recommendations`, pure).
  This part computes:
  - the number of weeks with a negative net balance;
  - the income and expense totals;
  - the burn rate;
  - the five-week trend window;
  - the last eight weeks listed in the prompt.

`Slices.Last` is JavaScript's `slice(-k)`, shared by the forecast and prompt windows.
`Wrappers.Option` stands for `undefined` and `NaN`. All amounts are whole currency units
and are modelled as unbounded integers.

The dashboard reads `ingresos`, `egresos` and `saldo` from each week. The sheet reader's
records carry a month, a week label and the four detail maps, but none of those three
fields. `Dashboard.SheetRecordsGiveNoFigures` states the consequence of the code as
written: fed those records, the dashboard computes zero KPIs and a `NaN` forecast
(src/App.jsx:28-54). Rendering then throws at src/App.jsx:83, which reads
`data.resumen.saldoAcumulado` from a body that has only `semanas`.

## Model

| member | source | states |
|---|---|---|
| `Sheets.ReadSheet` | api/sheets.js:21-61 | no values or fewer than two rows gives status 500 with the fixed message; otherwise status 200 with exactly the records `Expected` defines, built by the in-place row scan |
| `Sheets.Expected` | api/sheets.js:24-35 | one record per cell of row 1 after column 0, in column order, carrying that week label and the month in row 0 at the same column (no forward fill; absent when row 0 is shorter) |
| `Sheets.WriteRow` | api/sheets.js:49-53 | cell `idx` of a data row is stored in week `idx`, in the current section under the row label, only when it is non-empty and that week exists; every other week is unchanged |
| `Sheets.WeekRecord.Store` | api/sheets.js:51 | a write sets one key of one section map to the raw cell text; other keys, other sections, the month and the week label are unchanged, and an existing key is overwritten |
| `Sheets.Classify` | api/sheets.js:40-48 | a blank label is blank; the four exact, case-sensitive header labels pick their section ("OPEX" and "Detalle Egresos" both pick expenses); a "Total" or "SALDO" prefix closes the section; everything else is data |
| `Sheets.NextSection` | api/sheets.js:40-48 | blank and data rows keep the current section, a closer clears it, a header sets it |
| `Sheets.RecordStep` | api/sheets.js:37-55 | one scanned row changes a week record only if it is a data row of an open section with a non-empty cell for that week, and then only by that one store |
| `Sheets.SectionBeforeAnyHeader` | api/sheets.js:27-48 | before any header or closer no section is open, however many blank or data rows have passed, so such data rows are ignored |
| `Sheets.SectionAfterSwitch` | api/sheets.js:40-48 | the open section at a row is the one of the last header above it, or none if the last switch was a closer; blank rows in between do not end it |
| `Sheets.DetailKeys` | api/sheets.js:37-55 | a label is a key of a week's section map exactly when a scanned data row with that label was read while that section was open and has a non-empty cell for the week |
| `Sheets.DetailLastWins` | api/sheets.js:49-53 | a repeated label keeps the cell of its last writing row; values are overwritten, not summed |
| `Sheets.DetailValuesAreCells` | api/sheets.js:49-53 | every stored value is a non-empty raw cell of a row with that label, never a parsed amount |
| `Sheets.StoredLabelsAreCategories` | api/sheets.js:40-51 | header labels, closers and blank labels are never stored as categories |
| `Sheets.HeaderRowsIgnored` | api/sheets.js:37-55 | grids that agree from row 2 on have the same open sections and the same detail maps: rows 0 and 1 never contribute entries |
| `Dashboard.Matching` | src/App.jsx:31 | the filtered list is no longer than the input and holds only weeks with the selected label |
| `Dashboard.MatchingCounts` | src/App.jsx:31 | each week with the selected label is kept as often as it occurs, and no other week is kept |
| `Dashboard.MatchingAppend` | src/App.jsx:31 | the filter distributes over concatenation, so kept weeks stay in their original order |
| `Dashboard.MatchingNone` | src/App.jsx:31 | a label no week carries selects nothing |
| `Dashboard.FilteredWeeks` | src/App.jsx:28-31 | "ALL" gives the whole list; any other selection gives only weeks with that label, never more weeks than the input |
| `Dashboard.FilteredWeeksSpec` | src/App.jsx:28-31 | the filtered list adds no week that is not in the input, and for any selection other than "ALL" a week of the input is kept exactly when its label is the selected one |
| `Dashboard.Sum` | src/App.jsx:33-34 | a sum of fields that are all non-negative or missing (counted as 0) is non-negative |
| `Dashboard.SumAppend` | src/App.jsx:33-34 | the sum over two stretches of weeks is the sum of their sums |
| `Dashboard.SumCons` | src/App.jsx:33-34 | the sum adds each week's field from the first week on, with a missing field as 0 |
| `Dashboard.SumMatchingBounded` | src/App.jsx:28-38 | whenever no amount is negative, a KPI for one selected week label lies between 0 and the KPI over all weeks |
| `Dashboard.ComputeKpis` | src/App.jsx:28-38 | with "ALL" the three KPIs are the sums over every week; for any selection, with no negative amounts, income and expense lie between 0 and their all-weeks totals |
| `Dashboard.KpisOfSelection` | src/App.jsx:28-38 | selecting a label that occurs once gives that week's income, expense and balance as the KPIs, a missing field as 0 |
| `Dashboard.LastWeeks` | src/App.jsx:43 | the forecast window is the final min(4, n) weeks of the unfiltered list, in original order |
| `Dashboard.RoundedMean` | src/App.jsx:45-48 | the result is the integer nearest to total / count, with halves rounded up (`Math.round`) |
| `Dashboard.RoundedMeanBetween` | src/App.jsx:45-48 | the rounded mean of values between `lo` and `hi` lies between them |
| `Dashboard.Avg` | src/App.jsx:45-48 | the average is a number exactly when the window is non-empty and every week in it has the field; otherwise it is `NaN` |
| `Dashboard.SumBetween` | src/App.jsx:47 | the sum of `n` values between `lo` and `hi` lies between `n * lo` and `n * hi` |
| `Dashboard.AvgBetween` | src/App.jsx:43-48 | the average lies between the least and the greatest value in the window |
| `Dashboard.AvgConstant` | src/App.jsx:45-48 | a window holding one value throughout averages to that value |
| `Dashboard.ComputeForecast` | src/App.jsx:43-54 | income and expense are the averages over the last min(4, n) weeks; the projected balance is their exact difference, `NaN` when either is; no weeks gives `NaN` throughout |
| `Dashboard.ForecastWithinWindow` | src/App.jsx:43-54 | with income and expense present in each of the last min(4, n) weeks, all three projections are numbers, and income and expense each lie within the range of their own field over those weeks; earlier weeks play no part |
| `Dashboard.Dashboard` | src/App.jsx:28-54 | the forecast is computed from the whole list, not the filtered one |
| `Dashboard.ForecastIgnoresSelection` | src/App.jsx:43 | the forecast is the same for every selector value |
| `Dashboard.SumAllMissing` | src/App.jsx:33-34 | a field missing from every week sums to 0 |
| `Dashboard.SheetRecordsGiveNoFigures` | src/App.jsx:23-54 | fed the sheet reader's week records, every KPI is 0 and the forecast is `NaN` throughout |
| `Slices.Last` | src/App.jsx:43 | `slice(-k)` has min(k, n) elements and is a suffix of the list, in original order |
| `Slices.LastOfLast` | src/AIRecommendations.jsx:20 | the last `j` of the last `k` elements are the last `j` elements when `j <= k` |
| `Recommendations.WeeksNegative` | src/AIRecommendations.jsx:14 | the count of negative-balance weeks is at most the number of weeks; it is 0 exactly when no week is negative and equals the length exactly when every week is |
| `Recommendations.WeeksNegativeAppend` | src/AIRecommendations.jsx:14 | the count over two stretches of weeks is the sum of their counts |
| `Recommendations.Total` | src/AIRecommendations.jsx:15-16 | a total starts from 0: it is 0 when every amount is 0 and non-negative when no amount is negative |
| `Recommendations.TotalAppend` | src/AIRecommendations.jsx:15-16 | a total over two stretches of weeks is the sum of their totals |
| `Recommendations.TotalsBalance` | src/AIRecommendations.jsx:15-16 | a consistency property of the data, not of the code (which never sums `saldoNeto`): when each week's net balance is income minus expense, total income minus total expense is the sum of the net balances |
| `Recommendations.BurnRate` | src/AIRecommendations.jsx:17 | the burn rate is the average expense minus the average income, and it is positive exactly when average expense exceeds average income |
| `Recommendations.LastFiveWeeks` | src/AIRecommendations.jsx:20 | the trend window is the final min(5, n) weeks, in original order |
| `Recommendations.PromptWeeks` | src/AIRecommendations.jsx:39 | the weeks listed in the prompt are the final min(8, n) weeks, in original order |
| `Recommendations.TrendIngresos` | src/AIRecommendations.jsx:20-23 | there is no trend (shown as 0) exactly when there are no weeks; otherwise it compares the last week's income with that of the first week of the min(5, n) window |
| `Recommendations.PreparePrompt` | src/AIRecommendations.jsx:14-39 | the prompt counts all weeks; its negative-week count, income and expense totals, burn rate and trend are those the functions above define (the count at most the number of weeks); the averages and the current balance are passed through unchanged; its weekly lines are the final min(8, n) weeks, in original order |
| `Recommendations.TrendWindowInPrompt` | src/AIRecommendations.jsx:20-39 | the five-week trend window is the tail of the eight weeks listed in the prompt |

## Left out

- Google Sheets authentication, the spreadsheet fetch and the environment variables (api/sheets.js:5-19): `ReadSheet` takes the grid as a parameter, and `None` stands for a response without `values`.
- Logging of the caught error and the JSON encoding of the response: an absent month is `None` in the model, while the JSON encoding drops the key.
- Labels that collide with built-in JavaScript object properties (such as `__proto__`): detail maps are modelled as plain maps.
- api/claude.js is not part of this model. It is a pass-through proxy to a hosted language-model API.
- The request to `/api/claude` and its response handling (src/AIRecommendations.jsx:51-78), and the `useEffect` fetch of the dashboard data (src/App.jsx:14-19): network and UI state.
- `Recommendations.TrendIngresos`: returns the first and last income of the window, not the percentage. The percentage is a floating-point division that is infinite or `NaN` when the first income is 0.
- Currency formatting (`formatCurrency`, `formatCLP`) and the prompt's wording: these depend on locale formatting.
- The markdown-to-HTML rendering of the answer, all JSX, styles and the `KPI` and `Ranking` components.
- `resumen`, `topIngresos` and `topEgresos` are read by the dashboard, but the sheet reader does not produce them. No money parsing, ranking or server-side forecast exists in the modelled code, so none is modelled.
- `Dashboard.ComputeKpis` and `Dashboard.ComputeForecast`: the model assumes `data.semanas` is an array. When the sheet reader answers with its 500 body `{ error }`, the fetch still delivers it, `semanas` is undefined, and the dashboard throws in `sum` (src/App.jsx:34). That failure is not modelled.
- Floating point: amounts are JavaScript numbers. The model treats them as unbounded whole numbers. Sums are exact while their magnitude stays below 2^53; the rounded forecast mean is exact only while the window total stays below 2^52 in magnitude.
- `Dashboard.RoundedMean`: for a three-week window whose total is at least 3·2^51 in magnitude, the double `total / 3` can land on a half, which `Math.round` (src/App.jsx:46-47) then rounds up while the exact integer mean rounds down (total 6755399441055745 gives 2251799813685249 in JavaScript and 2251799813685248 here). Windows of 1, 2 or 4 weeks divide exactly, so only the three-week case differs, and only above that bound.
- `Recommendations.PreparePrompt`: takes every week's `ingresos`, `egresos` and `saldoNeto` to be present. A missing field would make the JavaScript totals `NaN`, and that case is not modelled.
