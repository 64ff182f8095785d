# Electricity meter ledger — a Dafny model

This project models the accounting logic of a browser tool for tracking a
prepaid electricity meter (`script.js`). The tool keeps two ledgers, meter
readings and recharges, plus one record of tariff settings. It offers the
following:

- **Two-tier pricing with VAT.** `calculateCost` prices the first 150 kWh at
  `tariff1` and any excess at `tariff2`, then adds `tva` percent.
- **Adding a reading.** `addMeterReading` validates the date and the meter
  value. It measures the consumption against the last stored entry, prices it,
  pushes the entry and re-sorts the ledger by date.
- **Adding a recharge.** `addRecharge` validates the amount and the units,
  derives the price per unit, pushes the entry and sorts by date.
- **Changing the settings.** `saveTariffs` overwrites the three settings.
- **Confirmed deletion and reset.** `deleteReading` splices out one entry.
  `resetData` empties both ledgers.
- **Statistics.**
  - The dashboard shows the current month's totals and average.
  - The analysis page shows figures for the last 7 days, the last 30 days or
    all time. It answers "not enough data" when the ledger holds fewer than two
    readings, and "no data" when the period holds none.
  - The chart shows the consumption of the last thirty readings.
- **Export and import.** `exportData` writes out the state. `importData`
  replaces each key an imported file carries with a truthy value.

The Dafny modules are laid out as follows:

- `Wrappers` holds `Option`.
- `Calendar` holds dates as (year, month, day). It gives each date a day number.
  A date's UTC midnight timestamp is that day number times 86 400 000 ms, which
  is how JavaScript reads a `YYYY-MM-DD` string.
- `Tariff` holds the cost function.
- `Ordering` holds the stable sort and the splice. `SortBy`, a stable
  insertion sort keyed by day number, models `Array.prototype.sort`.
  `SpliceOne` models `splice(index, 1)`, including negative and out-of-range
  indexes.
- `Ledger` holds the entries and the rules by which a new entry is accepted and
  derived.
- `Aggregates` holds the functions behind the dashboard, the analysis and the
  chart.
- `Store` holds the class `DataStore`. Its fields are the two ledgers and the
  settings, and its methods are the handlers that change them.

The methods of `DataStore` state their new state in their `ensures`:

- `AddMeterReading` and `AddRecharge` are tied to the `Ledger` functions
  `NewReading` and `NewRecharge` and to the `Ordering` function `SortBy`.
- `DeleteReading` is tied to `Ordering.SpliceOne`.
- `ImportData` and `ExportData` are tied to `Store.Merge` and `Store.Export`.
- `SaveTariffs` and `ResetData` give the new values directly.

The properties are proved about those functions.

Some facts about `script.js` that the model follows:

- **No recomputation.** Nothing is recomputed after a deletion or a tariff
  change: stored consumptions and costs stay as they were computed.
- **Consumption against the last stored entry.** A new reading's consumption is
  measured against the entry at the end of the array. That entry is not
  necessarily the one the new reading follows by date.
- **Import replaces key by key.** `importData` tests each key for truthiness. A
  key the file carries with an array or object value, even an empty array,
  replaces the current value. A key the file lacks, or one that holds `null`,
  `false`, `0` or `""`, leaves its value as it was. In `Store.Snapshot` such a
  key is `None` and an array or object value is `Some`.

## Model

| member | source | states |
|---|---|---|
| Tariff.CalculateCost | script.js:74-88 | The cost of no consumption is zero. |
| Tariff.CostByTiers | script.js:79-87 | For every quantity, the cost is (the part up to 150 kWh at tariff1 plus the part above 150 at tariff2) times 1 + tva/100. |
| Tariff.CostAboveThreshold | script.js:81-87 | Above 150 kWh, the cost is the cost of 150 kWh plus the excess at tariff2 with VAT. At 150 kWh both branches give 150·tariff1·(1 + tva/100), so the tariff has no jump there. |
| Tariff.CostBelowThreshold | script.js:81-82 | Up to 150 kWh, the cost is kwh·tariff1·(1 + tva/100). |
| Tariff.CostMonotone | script.js:74-88 | With non-negative tariffs and a VAT rate of at least −100 %, more consumption never costs less. |
| Tariff.CostNonNegative | script.js:74-88 | Under the same settings, a non-negative consumption has a non-negative cost. |
| Tariff.DefaultTariffExamples | script.js:4-8 | The costs under the initial settings (91.17, 136.49, 18 %) for 30, 150 and 151 kWh. |
| Calendar.DayNumber | script.js:119 | The key by which `new Date(a.date) - new Date(b.date)` compares dates: day 0 is 1970-01-01 (`EpochIsDayZero`), and consecutive days have consecutive numbers (`DayNumberNextDay`). |
| Calendar.EpochIsDayZero | script.js:119 | 1 January 1970 has day number 0, so a date's midnight timestamp is its day number times the length of a day. |
| Calendar.DaysBefore | script.js:485-489 | The moment `now.setDate(now.getDate() - N)` yields. Cutoffs further back lie earlier by exactly the days between (`DaysBeforeFurther`), and the day-level reading of the cutoff is `AtOrAfterDaysBefore`. |
| Calendar.DaysBeforeFurther | script.js:485-489 | Going back m days instead of n moves the cutoff back by exactly (m − n) days. |
| Calendar.AtOrAfterDaysBefore | script.js:485-486 | A date's midnight is at or after "now minus N days at the same time of day" if and only if the date is later than the day N days back, or is that day and now is exactly midnight. |
| Calendar.DayNumberNextDay | script.js:119 | Consecutive calendar days have consecutive day numbers, so ordering by day number is ordering by date. |
| Ordering.InsertBy | script.js:111-119 | The insertion step behind push-then-sort: the result has one entry more. Its placement is `InsertByPlacement` and its contents are `InsertByPermutes`. |
| Ordering.InsertByPermutes | script.js:111-119 | Inserting keeps every entry and adds exactly the new one: the multiset gains that entry and nothing else. |
| Ordering.SortBy | script.js:119 | Sorting preserves the length. |
| Ordering.SortByPermutes | script.js:119 | Sorting is a permutation: the multiset of entries is unchanged. |
| Ordering.SortByKeeps | script.js:119 | A property of every entry before sorting holds of every entry after it. |
| Ordering.SortBySorted | script.js:119 | The result of sorting is ordered by date. |
| Ordering.SortByOfSorted | script.js:119 | Sorting an array that is already in date order leaves it unchanged. |
| Ordering.SortByAppend | script.js:111-119 | Pushing onto a date-ordered array and sorting is the same as inserting the new entry. |
| Ordering.InsertByPlacement | script.js:111-119 | On a date-ordered array, the new entry goes after every entry dated on or before its date and before every later one, and the old entries keep their relative order. |
| Ordering.InsertByFront | script.js:119 | An entry dated before every entry goes to the front. |
| Ordering.PushThenSort | script.js:111-119 | After a push and a sort the array has one more entry and is date-ordered. If it was date-ordered before, the new entry sits after every entry dated on or before it, and the others keep their order. |
| Ordering.SortThree | script.js:119 | Three entries with distinct dates come out of the sort in date order, whichever of the six orders they were in. |
| Ordering.SpliceStart | script.js:460 | The start index of `splice`: a negative index counts from the end and the result is clamped to the array. It always lies within the array bounds, and it equals the index when the index is in range. |
| Ordering.SpliceOne | script.js:460 | `splice(index, 1)` with JavaScript's index rules removes at most one entry. |
| Ordering.SpliceOneAt | script.js:460 | For a valid index, exactly the entry there is removed. The length drops by one, earlier entries stay put, later ones shift down one place. |
| Ordering.SpliceOneSorted | script.js:460 | Removing an entry from a date-ordered array leaves it date-ordered. |
| Ledger.NewReading | script.js:90-116 | An empty date, or a missing, zero or negative value, is refused as invalid, and only such input is. A value below the last stored entry's is refused as below-previous, and only such a value is. An accepted entry keeps the date and value. Its consumption is the rise over the last stored entry, or 0 on an empty ledger, and never negative. Its cost is the cost of that consumption under the current settings. |
| Ledger.NewRecharge | script.js:131-146 | A recharge is accepted if and only if date, amount and units are present and amount and units are positive. An accepted entry keeps its fields, and its rate is positive with rate·units = amount. |
| Ledger.NewReadingOk | script.js:94-116 | An accepted reading has a positive meter value and a non-negative consumption. |
| Ledger.NewRechargeOk | script.js:136-146 | An accepted recharge has positive amount, units and rate, with rate·units = amount. |
| Ledger.AddReadingWellFormed | script.js:111-119 | Pushing a valid reading onto a ledger of valid entries and sorting gives a date-ordered ledger of valid entries: positive meter values and non-negative consumptions. |
| Ledger.AddRechargeWellFormed | script.js:141-149 | Pushing a valid recharge onto a ledger of valid recharges and sorting gives a date-ordered ledger of valid recharges. |
| Ledger.DeleteReadingWellFormed | script.js:460 | Deleting keeps a well-formed reading ledger well-formed. |
| Ledger.ChronologicalAddChained | script.js:100-119 | A reading entered in date order lands at the end of the ledger. Each consumption then stays the rise over the entry before it. |
| Ledger.Sum | script.js:406-407 | The `reduce` that totals consumption or cost from front to back. Its total over a filter equals the reference `SumSelected` (`FilterSum`), it splits over concatenation (`SumAppend`), and along a chain of deltas it is last minus first (`ChainedTelescopes`). |
| Ledger.ChainedTelescopes | script.js:100-103 | Along such a chain, the consumptions add up to the last meter value minus the first. |
| Ledger.BackdatedReadingBreaksChain | script.js:102-119 | A back-dated reading is measured against the latest-dated entry. It is stored between two earlier entries and breaks the chain of deltas. |
| Ledger.BackdatedPlacement | script.js:119 | Entries of 1, 5 and 10 January 2024 are sorted in that order, whatever order they were pushed in (any sequence holding exactly those three). |
| Ledger.DeleteBreaksChain | script.js:458-460 | Deleting a reading does not recompute its successor's consumption. |
| Ledger.AddReadingCostsCurrent | script.js:111-116 | If every stored cost matches the current tariffs, it still does after adding a reading priced at those tariffs. |
| Ledger.TariffChangeLeavesCostsStale | script.js:160-163 | Changing a tariff leaves an already stored cost that no longer matches the new tariff. |
| Aggregates.Selects | script.js:400-404 | The filter predicates: the reading's month and year, or its midnight at or after a cutoff. Which readings pass is `FilterMembers`. |
| Aggregates.PeriodSelector | script.js:483-495 | The `switch` over the period: 7 or 30 days back from now, or every reading. The day-level reading of the cutoff is `WindowByDay`, and the all-time case is `FilterEverything`. |
| Aggregates.Filter | script.js:400-404 | A filtered ledger is never longer than the ledger. |
| Aggregates.FilterMembers | script.js:400-404 | An entry is in the filtered ledger if and only if it is in the ledger and selected. |
| Aggregates.FilterMultiset | script.js:400-404 | The filter keeps each selected reading as many times as the ledger holds it, and no other reading. Identical readings are counted one by one. |
| Aggregates.FilterSum | script.js:406-407 | The reduce over the filtered readings equals the sum over the ledger counting only the selected readings. |
| Aggregates.SumAppend | script.js:406-407 | The total of two consecutive parts is the sum of their totals. |
| Aggregates.SumPermutation | script.js:406-407 | Two ledgers holding the same readings, in any order, have the same totals. |
| Aggregates.FilterEverything | script.js:492-494 | The all-time period takes the whole ledger, in order. |
| Aggregates.SumSelectedAtMostSum | script.js:406 | With no negative consumption, a selection's total lies between 0 and the ledger's total. |
| Aggregates.MaxConsumption | script.js:509 | The peak is at least every consumption of the window and is attained by one of them. |
| Aggregates.MinConsumption | script.js:510 | The least consumption is at most every consumption of the window and is attained by one of them. |
| Aggregates.Dashboard | script.js:395-409 | The count is the length of the filtered month, which `FilterMultiset` ties to the readings dated in today's month and year, duplicates included. With none, every figure is 0. Otherwise the average times the count is the total. |
| Aggregates.DashboardPermutation | script.js:395-409 | The dashboard depends only on which readings the ledger holds and how often, not on their order. |
| Aggregates.DashboardTotals | script.js:400-407 | The month's consumption and cost are the sums over exactly the readings dated in today's month and year. |
| Aggregates.DashboardBounds | script.js:406-409 | With no negative consumption, the month's consumption lies between 0 and the ledger's whole consumption, and the average is non-negative. |
| Aggregates.DashboardIgnoresOtherMonths | script.js:400-404 | A reading dated in another month leaves the dashboard unchanged, whether appended at the end or pushed and sorted in as an add does. |
| Aggregates.WindowStats | script.js:506-510 | The totals are the window's sums. The least consumption is at most the peak. Every consumption lies between them, and the peak is attained. |
| Aggregates.WindowAverage | script.js:508 | The average times the number of readings in the window is the window's total. |
| Aggregates.WindowAverageInRange | script.js:508-510 | The average lies between the least and the peak consumption. |
| Aggregates.Analyze | script.js:467-510 | "Not enough data" if and only if the ledger has fewer than two readings. "No data" if and only if it has at least two and none falls in the period. Otherwise the figures are those of the period's readings. |
| Aggregates.AnalysisAllTime | script.js:492-507 | With two or more readings, the all-time figures are the totals of the whole ledger. |
| Aggregates.WindowByDay | script.js:484-491 | A reading is in the 7-day (30-day) window if and only if it is dated after the day 7 (30) days back, or on that day when the analysis runs at midnight. |
| Aggregates.SinceNested | script.js:484-491 | Every reading in a shorter window is also in a longer one. |
| Aggregates.SinceTotalMonotone | script.js:484-506 | With no negative consumption, a longer window never has a smaller total. |
| Aggregates.WeekWithinMonth | script.js:484-509 | With no negative consumption, if the 7-day window has data, so does the 30-day one, and it shows no smaller total and no lower peak. |
| Aggregates.ChartSeries | script.js:358-380 | No series for an empty ledger. Otherwise the series is the consumption of the last min(30, n) readings, in order. |
| Aggregates.ChartSlides | script.js:369 | Once the chart holds 30 points, appending a reading at the end drops the oldest point and appends the new consumption. |
| Aggregates.ChartSlidesOnAdd | script.js:111-119 | On a full, date-ordered ledger, an add dated on or after the last reading drops the oldest point and appends the new consumption. |
| Aggregates.ChartIgnoresBackdated | script.js:111-119 | On a full, date-ordered ledger, an add dated before every reading is sorted to the front, and the chart does not change. |
| Aggregates.ChartDropsFront | script.js:369 | A reading put in front of a ledger of 30 or more is not shown, and the chart is unchanged. |
| Store.Export | script.js:558-564 | An export carries all three keys. |
| Store.Merge | script.js:586-588 | A key holding an array or object value (`Some`) replaces the current value. A key that is absent or holds a falsy value (`None`) leaves the current value in place. |
| Store.ImportOfExport | script.js:558-588 | Importing an exported file restores the exported state, whatever the state before. |
| Store.ImportIdempotent | script.js:586-588 | Importing the same file twice is the same as importing it once. |
| Store.DataStore.constructor | script.js:1-8 | The initial state is two empty ledgers and the default settings, and it is well-formed. |
| Store.DataStore.AddMeterReading | script.js:90-129 | A refused input is reported with its reason and changes nothing. An accepted one becomes the derived entry pushed and sorted. The ledger then grows by one and is date-ordered. If it was ordered before, the entry sits after every entry dated on or before it. Recharges and settings are unchanged. Well-formedness and current costs are preserved. |
| Store.DataStore.AddRecharge | script.js:131-158 | A refused input changes nothing. An accepted recharge is pushed and sorted, the ledger grows by one and is date-ordered, and, if the ledger was date-ordered before, it sits after every earlier-or-equal recharge. Readings and settings are unchanged, and well-formedness is preserved. |
| Store.DataStore.SaveTariffs | script.js:160-163 | The settings become the three values given. Both ledgers, stored costs included, are unchanged. |
| Store.DataStore.DeleteReading | script.js:458-465 | The reading ledger becomes `splice(index, 1)` of the old one. For a valid index, exactly that entry goes and the rest keep their order and stored values. Recharges and settings are unchanged, and well-formedness and current costs are preserved. |
| Store.DataStore.ResetData | script.js:603-612 | Both ledgers become empty and the settings stay. |
| Store.DataStore.ExportData | script.js:558-564 | The payload is the export of the current state. |
| Store.DataStore.ImportData | script.js:577-601 | A file that does not parse changes nothing. Otherwise each key with an array or object value replaces the current value, and each key absent or falsy keeps it. |

## Left out

- **Browser interface.** Form reads, tables, messages and `confirm` dialogs are
  not modelled. Deletion and reset are modelled as already confirmed, and form
  input arrives as method parameters.
- **Unparseable input.** `parseFloat` returning NaN and an empty field are both
  modelled as `None`.
- **Chart.js.** The chart configuration and its updates are not modelled, and
  neither are the chart's labels. That includes the two-digit year shown for
  ledgers of more than 365 readings.
- **Browser storage and files.** `localStorage`, `Blob`/`URL` download,
  `FileReader` and `JSON.parse` are not modelled. A file that fails to parse is
  modelled as `None`.
- **Loading at startup.** `loadFromLocalStorage` is not modelled, though it uses
  the same key-by-key rule as import.
- Store.DataStore.ImportData: it does not model an imported key holding a value
  of the wrong shape (an object where an array is expected), which the source
  would install as it is. A value is either a well-typed ledger or absent.
- Store.Export: `exportDate` (the wall-clock time) is not modelled.
- **Display formatting.** `toFixed`, `Math.round` and `toLocaleDateString`
  affect only what is displayed, so the model keeps exact values.
- Aggregates.Dashboard: `dailyAverage` is kept as a number, not the two-decimal
  string the page shows.
- **Wall clock.** `new Date()` is not modelled: today's date, and the moment
  with its time of day, are parameters.
- **Time zones.** The local time zone is assumed to be UTC, so a date's month
  and its midnight are those of the UTC date.
- **Floating point.** Amounts are `real`, so IEEE-754 rounding, `Infinity` and
  NaN are not modelled.
- Store.DataStore.SaveTariffs: it does not model a cleared field storing NaN.
  `parseFloat` of an empty setting field is NaN, while the model takes three
  numbers.
- Aggregates.MaxConsumption: it does not model `Math.max`/`Math.min` of a spread
  argument list, including engine argument-count limits.
- **Other UI.** `showPage`, `initializeDates`, the daily tip (`Math.random`) and
  the history table are not modelled.
- **Service worker.** `sw.js` (Cache API and `fetch`) is not modelled.
