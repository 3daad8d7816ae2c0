# coroner, modelled in Dafny

coroner is a small COVID-19 dashboard for Norway. A Python collector fetches two feeds from an external API:
- the case feed, with cases, deaths, tests, the positive share and the hospital counts;
- the vaccination feed, with first and second doses.

The collector turns each feed into a dictionary of fields per ISO date and merges the two. From the merged dictionary it builds a daily time series. The series starts from default counts for every date, takes in the collected fields, and is then enriched in place with:
- running totals;
- daily hospital figures;
- 3- and 7-day moving averages;
- percent changes;
- population ratios.

The browser side shapes that series for its charts: windows of the last days, filters, date labels, logarithmic ticks and the date picker. A "lab" page normalises an SIR epidemic model for an ODE integrator and scales the integrator's samples back.

The project models these parts, one module per source file:

- `Utils` (`src/utils.py`): `pairwise` and `percent_change`.
- `PyRound`: Python's `round(x, n)` on exact reals, with halves rounded to even.
- `Models` (`src/models.py`): `calculate_moving_average` and the `TimeSeries` class.
  - `TimeSeries` is a class whose `data` is reassigned by its `compute_*` methods.
  - Each method is proved equal to a function of the old data. The source's properties are lemmas about those functions.
  - Field names are a `Key` datatype, not strings.
- `Collector` (`src/collector.py`):
  - The row loops of the two feed collectors, modelled as ordered lists of `setdefault(date, {})[key] = value` writes.
  - The merge of `_populate_timeseries`.
  - The `Collector` class with `_populate_timeseries` and `_set_error`.
- `Lab` (`src/public/static/lab.js`): the `sir` derivative and the arithmetic of `solve`.
- `Dashboard` (`src/public/static/app.js`): JavaScript's `slice`, `getLastNumDays`, `getLast`, `getPaddingFrom`, `logTickBuilder`, `logTickMapper`, `prepareData`, `getLabels` and the date picker's slice.
- `Common`: `Option`, `Max`, `Min`, and two facts about quotients shared by the ratio and normalisation proofs.

## Model

| member | source | states |
|---|---|---|
| Utils.Zip | src/collector.py:137-142 | `zip` of two series has as many pairs as the shorter one, and pair k is the k-th element of each |
| Utils.Pairwise | src/utils.py:11-16 | `pairwise(xs)` has `max(len(xs) - 1, 0)` elements, and element k is `(xs[k], xs[k + 1])` |
| Utils.PairwiseChains | src/utils.py:11-16 | consecutive pairs overlap: the second item of pair k is the first item of pair k + 1 |
| Utils.AtLeastOne | src/utils.py:22 | `max(old, 1)` is at least 1 and at least `old`, so the division in `percent_change` never divides by zero |
| Utils.PercentChangeExact | src/utils.py:19-22 | the unrounded percent change times `max(new - change, 1)` is `change * 100`; it is zero, positive or negative exactly when `change` is |
| Utils.PercentChange | src/utils.py:19-22 | `percent_change(new, change)` is 0 when `change` is 0, never has the sign opposite to `change` (rounding can give 0 for a small change), and is within half a hundredth of the exact value |
| PyRound.RoundHalfEven | src/models.py:21 | rounding to an integer is off by at most one half and leaves integers unchanged |
| PyRound.RoundError | src/models.py:21 | `round(x, n)` is within half a unit of the n-th decimal of `x` |
| PyRound.RoundKeepsSign | src/models.py:142-145 | rounding keeps a non-negative value non-negative, a non-positive one non-positive, and zero zero |
| PyRound.RoundMonotone | src/models.py:142-145 | rounding to n decimals never reverses the order of two values |
| Models.Column | src/models.py:19 | `[obj[field] for obj in data]` has one value per day, read from that day |
| Models.DifferencesUndoPrefixSums | src/models.py:77-102 | differencing the running sums of a series gives the series back |
| Models.PrefixSumsUndoDifferences | src/models.py:77-102 | the running sums of the differences of a series give the series back |
| Models.SumOfDifferences | src/models.py:95-102 | the first k + 1 differences add up to the k-th value |
| Models.Overlaid | src/models.py:45-56 | one record per generated date, in order; each holds every default field; a default the API did not deliver is 0, every delivered field keeps the delivered value, and no other field appears |
| Models.OverlayFields | src/models.py:45-56 | one day's fields are the defaults overlaid with what was collected for that date |
| Models.OverlayDays | src/models.py:45-56 | the defaults-then-update loop of `__init__` yields exactly `Overlaid` |
| Models.OverlayIgnoresOtherDates | src/models.py:53-56 | collected data for a date outside the generated range leaves the series unchanged |
| Models.TotalsForLookup | src/models.py:80-84 | after the inner loop has visited some series, exactly their totals are written, each the running total |
| Models.TotalsRecordLookup | src/models.py:77-84 | after `compute_totals` a day has every `.total`, each the running total, and every other field keeps its value |
| Models.TotalsDay | src/models.py:77-84 | a day after `compute_totals` keeps all its fields, has every series' running total, and keeps every non-total value |
| Models.WithTotals | src/models.py:77-84 | `compute_totals` keeps the dates and fields, writes each `.total` as the running total, and changes nothing else |
| Models.TotalsOfDay | src/models.py:78-84 | the inner loop on day i turns that day into the day `compute_totals` specifies, reading only yesterday's totals |
| Models.TotalOfSeries | src/models.py:81-84 | one turn writes the f-th series' total: today's count on day 0, yesterday's total plus today's count after that |
| Models.RunningTotalIsPrefixSum | src/models.py:77-84 | the in-place recurrence yields, on day i, the sum of the `.today` values of days 0..i |
| Models.TotalsArePrefixSums | src/models.py:77-84 | after `compute_totals`, each `.total` column is the prefix sums of its `.today` column |
| Models.TotalIsPrefixSum | src/models.py:77-84 | the same fact for one day |
| Models.SumPrefixStep | src/models.py:84 | the sum of the first i + 1 values adds the i-th value to the sum of the first i |
| Models.RunningTotalMonotone | src/models.py:82-84 | with non-negative daily counts, the running total of a later day is at least that of an earlier day |
| Models.TotalsNonDecreasing | src/models.py:82-84 | with non-negative daily counts, the `.total` column `compute_totals` writes never decreases |
| Models.DailiesForLookup | src/models.py:98-102 | after the inner loop has visited some wards, exactly their `.today` fields are written, each the ward's difference |
| Models.DailiesRecordLookup | src/models.py:95-102 | after `compute_dailies` a day has each ward's `.today` as its difference, and every other field keeps its value |
| Models.DailiesRecords | src/models.py:95-102 | `compute_dailies` removes no field |
| Models.WithDailies | src/models.py:95-102 | `compute_dailies` keeps the dates and fields, and each day is the one the inner loop specifies |
| Models.DailiesWritten | src/models.py:95-102 | after `compute_dailies` every ward's `.today` is its daily change, and every other value is kept |
| Models.DailiesOfDay | src/models.py:96-102 | the inner loop on day i turns that day into the day `compute_dailies` specifies |
| Models.DailyOfWard | src/models.py:99-102 | one turn writes the f-th ward's daily value: its total on day 0, the change of its total after that |
| Models.DailiesAreDifferences | src/models.py:95-102 | each ward's `.today` column is the differences of its `.total` column: `today[0] = total[0]`, `today[k] = total[k] - total[k-1]` |
| Models.DifferencingTotalsRecoversDailies | src/models.py:77-102 | differencing the totals `compute_totals` writes gives back the original daily counts |
| Models.Window | src/models.py:19 | the window at day i holds `min(i + 1, w)` values and ends at day i |
| Models.LeadingWindowsDivideByW | src/models.py:19-21 | the sum is always divided by `w`: on a constant series c, the mean at day i is `c * min(i + 1, w) / w` |
| Models.LeadingWindowsUnderstate | src/models.py:19-21 | on a positive constant series, the average over a leading window shorter than `w` is below the constant |
| Models.ConstantWindow | src/models.py:19 | a window of a constant series holds `min(i + 1, w)` copies of the constant |
| Models.SumOfConstant | src/models.py:21 | n copies of c add up to `n * c` |
| Models.WithAverage | src/models.py:15-24 | `calculate_moving_average(data, f, w)` adds `f_avg_w` to every day, valued at the rounded mean of the original window; every other field, and the dates, stay as they were |
| Models.CalculateMovingAverage | src/models.py:15-24 | the in-place loop over the days yields exactly `WithAverage`, although it reads the list it is writing |
| Models.AverageDay | src/models.py:18-24 | one turn of the loop adds day i's average and moves the updated prefix on by one day |
| Models.AverageOfDay | src/models.py:19-21 | the value written on day i is the rounded mean of the field's original window, whatever was written before |
| Models.PartlyAveragedKeepsField | src/models.py:18-24 | halfway through the loop, every day still holds the averaged field's original value |
| Models.WindowOfColumn | src/models.py:19 | the window read from the partly updated list equals the window of the original column |
| Models.SplicedAt | src/models.py:18-24 | after n turns, the first n days are updated and the rest are untouched |
| Models.WithWindows | src/models.py:119-120 | the averages of one field over several windows keep the dates, the fields and every value that is not an average |
| Models.WithFieldAverages | src/models.py:118-120 | the averages of several fields keep the dates, the fields and every value that is not an average |
| Models.WindowsStep | src/models.py:119-120 | one more window adds exactly one more `calculate_moving_average` call |
| Models.FieldsStep | src/models.py:118-120 | one more field adds exactly that field's averages over all windows |
| Models.AveragesOfField | src/models.py:119-120 | the inner loop of `compute_averages` applies `calculate_moving_average` once per window, in order |
| Models.AveragesOfFields | src/models.py:118-120 | the outer loop applies the inner loop once per field, in order |
| Models.AveragedFieldsSeeded | src/models.py:28-39 | every field `compute_averages` smooths is one of the defaults, so it is present on every day |
| Models.WindowsReadOriginalValues | src/models.py:118-120 | the average of a field over each window is taken over the field's original values |
| Models.WindowsKeepOthers | src/models.py:118-120 | averaging one field leaves every value that is not an average of that field unchanged |
| Models.SameColumn | src/models.py:19-21 | two lists with the same values of a field have the same moving averages of it |
| Models.AveragesReadOriginalValues | src/models.py:104-120 | after `compute_averages`, every `f_avg_w` for the 7 fields and windows 3 and 7 is present and equals the rounded mean over the field's original values: no write disturbs a value read later |
| Models.DeltaPercentFormula | src/models.py:133-135 | `delta_percent` is `percent_change(total, total - today)`, which works out to `(total - today) / max(today, 1) * 100`, rounded |
| Models.ChangesForLookup | src/models.py:132-135 | after the inner loop has visited some series, exactly their `.delta_percent` fields are written |
| Models.ChangesRecordLookup | src/models.py:131-135 | `compute_changes` on a day adds the delta percent of infected, tests and doses, and keeps the date and every other field |
| Models.WithChanges | src/models.py:131-135 | `compute_changes` keeps the dates and fields, and each day is the one the inner loop specifies |
| Models.ChangesOfDay | src/models.py:132-135 | the inner loop yields the day plus the delta percents of the listed series |
| Models.ChangeOfSeries | src/models.py:133-135 | one turn reads today's count and the total and writes the series' delta percent |
| Models.ChangeStep | src/models.py:133-135 | the count and total read on turn f are the ones collected, since earlier turns write only `.delta_percent` |
| Models.PercentageBounds | src/models.py:142-145 | a part of a positive whole, as a percentage rounded to 3 decimals, lies in [0, 100] |
| Models.MetricsKeepOtherFields | src/models.py:140-145 | `compute_additional_metrics` keeps the date and every field other than the five it writes |
| Models.MortalityRateIsPercentage | src/models.py:142 | with `0 <= dead.total <= infected.total`, the mortality rate lies in [0, 100]; the divisor `max(infected.total, 1)` is never zero |
| Models.PopulationTotalEveryDay | src/models.py:140-141 | after `compute_additional_metrics` every day holds `population.total` equal to `POPULATION`, whatever its counts |
| Models.PopulationRatiosArePercentages | src/models.py:141-145 | with totals within the population, the three ratios lie in [0, 100] (and `population.total` is `POPULATION`) |
| Models.MetricsOfDay | src/models.py:141-145 | the loop body writes the five fields the day specification gives |
| Models.AddMetrics | src/models.py:140-145 | the loop over the days yields `WithMetrics` |
| Models.WithMetrics | src/models.py:140-145 | `compute_additional_metrics` keeps the dates, and each day is the one the loop body specifies |
| Models.InputsOfLaterSteps | src/models.py:59-63 | once the totals exist, every day has what `compute_changes` and `compute_additional_metrics` read |
| Models.Enriched | src/models.py:59-63 | the five enrichment steps, in order, keep one record per date |
| Models.TimeSeries.constructor | src/models.py:41-63 | the series is the enriched overlay of the collected data on the defaults, with one record per generated date |
| Models.TimeSeries.ComputeTotals | src/models.py:65-84 | `data` becomes `WithTotals` of the old data |
| Models.TimeSeries.ComputeDailies | src/models.py:86-102 | `data` becomes `WithDailies` of the old data |
| Models.TimeSeries.ComputeAverages | src/models.py:104-120 | `data` becomes the old data with every listed field averaged over 3 and 7 days |
| Models.TimeSeries.ComputeChanges | src/models.py:122-135 | `data` becomes `WithChanges` of the old data |
| Models.TimeSeries.ComputeAdditionalMetrics | src/models.py:137-145 | `data` becomes `WithMetrics` of the old data |
| Collector.ApplyAppend | src/collector.py:127-150 | applying two runs of writes one after the other is applying their concatenation |
| Collector.ApplyTwo | src/collector.py:138-140 | two writes in a row are two `setdefault(...)[key] = value` updates |
| Collector.ApplyThree | src/collector.py:148-150 | three writes in a row are three `setdefault(...)[key] = value` updates |
| Collector.PutsOnOneDay | src/collector.py:138-140 | two writes to one date update that date's dictionary twice and leave every other date alone |
| Collector.PutsOnOneDay3 | src/collector.py:143-150 | three writes to one date update that date's dictionary three times |
| Collector.ApplyLookup | src/collector.py:127-150 | after the writes, a date is present iff it was present or written to, and each field holds its last write, or its old value when never written |
| Collector.MentionsSnoc | src/collector.py:129-150 | a date is written to iff the last write or an earlier one is to that date |
| Collector.PutLookup | src/collector.py:130-131 | one `setdefault(date, {})[key] = value` adds the date, sets that one field and leaves every other date and field as it was |
| Collector.LastWriteMentions | src/collector.py:129-150 | a field has a last write only if some write is to its date |
| Collector.LastWriteSkips | src/collector.py:129-150 | later writes that never touch a field do not change its last write |
| Collector.LastWriteIgnoresPrefix | src/collector.py:129-150 | earlier writes that never touch a field do not matter for it |
| Collector.WardTotals | src/collector.py:148-150 | the intensive-care total `max(i - v, 0)` is never negative and the ventilator total is `v`; the three wards add up to `t + max(v - i, 0)`, and to `t` exactly when `v <= i` |
| Collector.Writes | src/collector.py:129-135 | the loop over one series writes each row's value under the series' key, in row order |
| Collector.TestWrites | src/collector.py:137-140 | the tests loop makes two writes per zipped pair |
| Collector.HospitalWrites | src/collector.py:142-150 | the hospital loop makes three writes per zipped triple |
| Collector.ApplyOne | src/collector.py:130-131 | applying a single write is that write |
| Collector.WriteSeries | src/collector.py:129-135 | the row loop of `cases` or `deaths` yields the history of its writes |
| Collector.WriteTests | src/collector.py:137-140 | the zipped tests loop yields the history of its writes |
| Collector.HospitalRowApplied | src/collector.py:143-150 | one hospital row writes general `t - i`, intensive care `max(i - v, 0)` and ventilator `v` under the hospitalised row's date, a null reading counting as 0 |
| Collector.WriteHospital | src/collector.py:142-150 | the zipped hospital loop yields the history of its writes |
| Collector.CollectCaseHistory | src/collector.py:112-155 | the case collector returns the history of the four loops' writes when the status is 200, and `{}` otherwise |
| Collector.FailedCaseRequestIsEmpty | src/collector.py:153-155 | a case response other than 200 yields an empty history |
| Collector.UnpairedTestsIgnored | src/collector.py:137 | `zip` stops at the shorter series: a tests row without a positive row beside it writes nothing |
| Collector.InfectedFromCasesOnly | src/collector.py:129-150 | `infected.today` of every date is the last value the cases loop wrote; the other loops never touch it |
| Collector.WardTotalsFromHospitalOnly | src/collector.py:129-150 | every ward total of every date comes from the hospital loop alone |
| Collector.TestWritesKeys | src/collector.py:137-140 | the tests loop writes only `tests.today` and `tests.positive` |
| Collector.HospitalWritesKeys | src/collector.py:142-150 | the hospital loop writes only ward totals |
| Collector.VaccineWrites | src/collector.py:165-171 | the vaccine loop makes three writes per row |
| Collector.VaccineRowApplied | src/collector.py:166-171 | one vaccination row writes `d1 + d2`, `d1` and `d2` under its date |
| Collector.CollectVaccineHistory | src/collector.py:157-176 | the vaccine collector returns the history of the row loop's writes when the status is 200, and `{}` otherwise |
| Collector.RowKeepsDosesAddingUp | src/collector.py:165-171 | a vaccination row keeps "doses = dose 1 + dose 2" true on every date |
| Collector.VaccineDosesAddUp | src/collector.py:165-171 | in the vaccine history, every date has `vaccinated.doses.today == dose_1 + dose_2` |
| Collector.MissingDosesCountZero | src/collector.py:167-171 | a row whose dose counts are absent or null records zero for all three counts |
| Collector.CombinedFields | src/collector.py:182-187 | the merged dates are the union of both histories; on a date, a field comes from the vaccine history when it has it and from the case history otherwise |
| Collector.MergeInto | src/collector.py:184-187 | one `setdefault(k, {}).update(v)` loop yields `Merged` |
| Collector.MergedFromParts | src/collector.py:184-187 | a history with the union's dates and each date's fields updated in order is the merge |
| Collector.MergedTwice | src/collector.py:182-187 | merging the case history and then the vaccine history into `{}` gives `Combined` |
| Collector.Combine | src/collector.py:182-187 | the two merge loops yield `Combined` |
| Collector.Publish | src/collector.py:189 | the new time series is built from the merged histories |
| Collector.Collector.Current | src/collector.py:190-195 | `stats["current"]` is the last element of `stats["history"]`, the series' last day |
| Collector.Collector.constructor | src/collector.py:28-37 | the status is "ok", and the statistics cover a series with no collected data, with the snapshot equal to them |
| Collector.Collector.PopulateTimeseries | src/collector.py:178-196 | the series is rebuilt from the merged histories, and the statistics carry the unchanged status; the snapshot equals them |
| Collector.Collector.SetError | src/collector.py:202-204 | only the published status becomes "error"; the snapshot is refreshed and the history, series and `self.status` are unchanged |
| Lab.Sir | src/public/static/lab.js:1-9 | `ds = -beta * s * i / n`, `dr = gamma * i` and `di = beta * s * i / n - gamma * i`, so the three rates add up to zero; with `beta = 0` the susceptible stay put and `di = -dr`; with non-negative inputs the susceptible never grow and the removed never shrink |
| Lab.InfectionTermNonNegative | src/public/static/lab.js:3 | `beta * s * i / n` is non-negative for non-negative inputs and positive `n` |
| Lab.Normalize | src/public/static/lab.js:78-90 | the base is population plus the infectious; normalised susceptible and infectious add up to 1; `n` is the normalised susceptible share; `gamma * recoveryDays = 1`; it is defined exactly when neither the base nor the recovery time is zero |
| Lab.SharesAddUp | src/public/static/lab.js:84-87 | two parts of a whole, each divided by the whole, add up to 1 |
| Common.QuotientAtMostOne | src/public/static/lab.js:86 | a part of a positive whole, divided by it, is a share in [0, 1], positive when the part is |
| Lab.ScaleBack | src/public/static/lab.js:86-102 | dividing by the base and then multiplying by it gives the value back |
| Lab.NormalizeRoundTrip | src/public/static/lab.js:84-102 | normalising the initial state and then scaling it back gives `(5367579, infectious, removed)` |
| Lab.DenormalizedTotal | src/public/static/lab.js:100-102 | scaling back multiplies a state's total by the base |
| Lab.CurvesKeepTotal | src/public/static/lab.js:84-102 | if every sample keeps the initial total, every day of the curves adds up to the population plus the initial infectious and removed |
| Lab.Solve | src/public/static/lab.js:77-106 | `solve` hands the integrator `Normalize`'s setup and fills each curve, by index, with every sample scaled back by the base |
| Dashboard.Bound | src/public/static/app.js:60 | a slice bound lies in `[0, len]`, and a bound already in range is kept |
| Dashboard.JsSlice | src/public/static/app.js:60 | `slice(begin, end)` holds the elements from the clamped begin up to the clamped end |
| Dashboard.GetLastNumDays | src/public/static/app.js:57-61 | `getLastNumDays(data, d)` is the suffix of `data` of length `min(max(d, 0), len)` |
| Dashboard.GetLast | src/public/static/app.js:63-69 | `getLast` is null exactly on an empty array, and the last element otherwise |
| Dashboard.WindowKeepsLast | src/public/static/app.js:57-69 | a window of at least one day ends on the same last element as the data |
| Dashboard.GetPaddingFrom | src/public/static/app.js:71-73 | `getPaddingFrom(data)` has `max(len - 1, 0)` entries, all null |
| Dashboard.PaddingThenLast | src/public/static/app.js:63-73 | the padding followed by the last element is exactly as long as the data |
| Dashboard.Axis.BuildLogTicks | src/public/static/app.js:75-79 | `logTickBuilder` replaces the tick list in place with exactly the powers of ten from 1 to 10000 |
| Dashboard.MapperLabelsPowersOfTen | src/public/static/app.js:81-90 | `logTickMapper` labels a value exactly when it is 0 or a power of ten from 10 to a million |
| Dashboard.BuiltTicksLabels | src/public/static/app.js:75-90 | every tick `logTickBuilder` makes gets a label except the first, 1 |
| Dashboard.MapperRoundTrip | src/public/static/app.js:81-90 | every label `logTickMapper` produces reads back as the value it labels |
| Dashboard.Filter | src/public/static/app.js:200 | `filter` keeps every element that passes as often as it occurs, and nothing else |
| Dashboard.FilterAppend | src/public/static/app.js:200 | filtering keeps the order: the filter of a concatenation is the concatenation of the filters |
| Dashboard.FilterSingle | src/public/static/app.js:200 | a single element is kept exactly when it passes |
| Dashboard.PrepareData | src/public/static/app.js:193-203 | with a filter the result is the filter of the window (of the data when there is no window); without a filter it is the window; with neither it is the data; it is never longer than the window and holds only its records |
| Dashboard.WindowBeforeFilter | src/public/static/app.js:199-200 | the window is taken before the filter: a one-day window whose day fails the filter shows nothing, though an earlier day passes |
| Dashboard.DefaultLabelIsMonthDay | src/public/static/app.js:207 | for an ISO date the default label is `MM-DD` |
| Dashboard.ShortDateHasNoLabel | src/public/static/app.js:207 | a date of at most five characters has an empty label |
| Dashboard.GetLabels | src/public/static/app.js:205-208 | one label per record: the getter's label of that record when the chart has a getter, the record's default date label otherwise |
| Dashboard.DatePickerData | src/public/static/app.js:174 | the date picker passes the first `i + 1` records |
| Dashboard.PickedDayIsLast | src/public/static/app.js:174-203 | after picking day i, every chart without a filter ends on day i |

## Left out

- HTTP requests, `aiohttp` sessions, asyncio tasks, `start`/`stop`, `collect`, `backup` and the web application. These are I/O and concurrency. The responses are parameters (`Response`), and `collect`'s reset of the published status to "ok" is not modelled.
- The clock (`date.today()`, `get_now_local()`). The dates of the series and the `updated` timestamp are parameters.
- `create_date_range` is not part of this model: the generated dates are a parameter of `TimeSeries` and of the collector's methods.
- JSON encoding (`dumps`): `json` is modelled as the statistics value itself. That value refers to the time series object rather than copying it, so the model's snapshot shares the series instead of freezing a serialised copy.
- Floating point: values are exact reals, and `round` is exact half-to-even rounding of the real value. The IEEE-754 representation error of Python's `round` and JavaScript's arithmetic, NaN and Infinity are not modelled.
- `parseInt`/`parseFloat` in `solve`: the inputs of `Lab.Normalize` and `Lab.Solve` are already-parsed numbers.
- The `Solver` ODE integrator of `lab.js`: it is an unseen library. Its samples on the grid of days are a parameter of `Lab.Solve`, and the integration itself is not modelled.
- Lab.Sir: requires `n != 0`, because JavaScript would produce an infinity or NaN there.
- Lab.Normalize: returns `None` where JavaScript would divide by zero, i.e. a zero base or a zero recovery time.
- The `sir` closure assigns the globals `s`, `r` and `i`, and `getLastNumDays` assigns the global `size`. These leaks are not modelled.
- Chart.js and the DOM: `initChart`, `createAllCharts`, `createLabChart`, `updateChart`, `updateCounters`, `setStatus`, and the slider wiring around the date picker's slice.
- Case-feed values are numbers. A null in the `cases`, `deaths` or `tests` series is not modelled; only the hospital readings are `Option`.
- The two population constants differ: 5367580 in `src/models.py:11` and 5367579 in `src/public/static/lab.js`. Each module uses its own.
- Models.DeltaPercentFormula: states the value `compute_changes` computes as written. The argument order of `percent_change(t, t - d)` makes it the previous day's total relative to today's count, not a day-over-day change.
- Collector.Collector.constructor: requires a non-empty date range, since `stats["current"] = data[-1]` fails on an empty series.
- Collector.Collector.PopulateTimeseries: requires a non-empty date range, for the same reason.
- Labels are strings in the model. The one label getter in `src/public/static/app.js:395` returns a number (the infected total), which Chart.js shows as text; the model takes a getter that yields that text.
