# Sales dashboard: filter and aggregation engine

This project models the data pipeline behind a sales dashboard. It covers
two React components.

- **Filters** narrows the dataset. It applies up to three optional
  predicates, combined by AND:
  - the region is the selected region;
  - the product category is the selected category;
  - the order date falls between January 1 and December 31 of the selected
    year.

  It also lists the region and category options, which are the distinct
  values of the whole, unfiltered dataset.
- **Charts** turns the filtered records into what the dashboard draws:
  - "no data" for an empty list;
  - total sales, total profit and the average margin;
  - sales and profit per region, with regions in first-seen order (bar
    chart);
  - the five products with the highest summed sales, found by a stable
    descending sort (pie chart);
  - profit per calendar month, with months in ascending order (line chart).

Modules (one file each):

- `Sequences` (`sequences.dfy`): `Keep` (a filter that keeps order), `Total`
  and `Sum`, with the generic lemmas about them.
- `Records` (`records.dfy`): a record, its calendar date and its month key.
- `Grouping` (`grouping.dfy`): the first-seen list of distinct keys
  (`FirstSeen`, which is what `Object.keys` of an accumulator returns), the
  per-key sums (`GroupSum`), the keyed accumulator (`Accumulated`,
  `AccumulateStep`) and the partition lemmas.
- `Ranking` (`ranking.dfy`): the stable sort by descending total, the top
  five, and the month sort.
- `Filters` (`filters.dfy`): the selection, the staged filter
  (`ApplyFilters`) and the option lists.
- `Charts` (`charts.dfy`): the reduce loops (`RegionTotals`, `SumBy`), the
  three chart series, and `ComputeCharts`. `Summarize` is the whole output
  as one pure function.

The accumulating `reduce` passes are methods with loops that update a map.
Each loop keeps an invariant saying the map holds the exact per-key sums of
the records seen so far, with keys in first-seen order. The derivations
(`map`, `sort`, `slice`) and the filter predicates are functions.
`ComputeCharts` is proved to return `Summarize(data)`. The chart properties
are proved about `Summarize` as lemmas.

## Model

| member | source | states |
|---|---|---|
| Sequences.Keep | src/components/Filters.jsx:11-20 | One `filter` stage: the elements that satisfy the predicate, in their original order (computed; its properties are the `Filters` lemmas below) |
| Sequences.Total | src/components/Charts.jsx:36-37 | The `reduce((sum, d) => sum + ..., 0)` totals: the left-to-right sum of a field over the records (computed) |
| Grouping.KeyIs | src/components/Filters.jsx:11-13 | The region and category stage predicates: the record's field equals the selected value (computed) |
| Filters.InYearRange | src/components/Filters.jsx:14-19 | The year bounds: the date lies between January 1 and December 31 of the year, both included (computed) |
| Filters.OrderedIn | src/components/Filters.jsx:17-20 | The year stage predicate on a record's order date (computed) |
| Filters.Matches | src/components/Filters.jsx:11-19 | The conjunction of the active stage predicates; an unset region or category and "all" years impose nothing (computed) |
| Filters.ApplyFilters | src/components/Filters.jsx:9-21 | Applying the region, category and year stages in turn, each only when set, gives exactly the records that satisfy all active predicates, in dataset order |
| Filters.FilteredIsSubsequence | src/components/Filters.jsx:9-21 | The filtered list is a subsequence of the data: order is kept, and no record is added or duplicated |
| Filters.FilteredSound | src/components/Filters.jsx:11-21 | Every kept record is in the data, has the selected region and category when those are set, and lies in the selected year when one is chosen |
| Filters.FilteredComplete | src/components/Filters.jsx:11-21 | Every record that satisfies all active predicates is kept, as many times as it occurs in the data |
| Filters.UnfilteredIsIdentity | src/components/Filters.jsx:4-23 | With the initial selection ("" region, "" category, all years), the output is the input |
| Filters.FilteredIdempotent | src/components/Filters.jsx:11-21 | Filtering the output again with the same selection leaves it unchanged |
| Filters.YearRangeIsCalendarYear | src/components/Filters.jsx:14-20 | For a valid date, the Jan 1 to Dec 31 range holds exactly when the date is in the selected year; both end days are inside |
| Filters.RegionSelection | src/components/Filters.jsx:11 | Selecting only a (non-empty) region keeps exactly that region's records |
| Filters.RegionOptions | src/components/Filters.jsx:26 | The region options are the distinct regions of the whole dataset: each occurs once, every record's region is listed, and they are ordered by first occurrence |
| Filters.CategoryOptions | src/components/Filters.jsx:27 | The same for categories |
| Grouping.FirstSeen | src/components/Charts.jsx:40-47 | The accumulator's key list has no duplicates; every key comes from a record, and every record's key is listed |
| Grouping.FirstSeenHasKey | src/components/Charts.jsx:40-47 | A key is listed if and only if some record carries it |
| Grouping.FirstSeenOrder | src/components/Charts.jsx:40-47 | Keys are listed in the order of their first occurrence in the data |
| Grouping.GroupOfKey | src/components/Charts.jsx:40-47 | The records of one key that occurs in the data form a non-empty list whose only key is that key |
| Grouping.GroupSumIsFilteredTotal | src/components/Charts.jsx:40-45 | A key's accumulated sum equals the total over the records with that key |
| Grouping.PartitionTotal | src/components/Charts.jsx:36-45 | The per-key sums over the distinct keys add up to the overall total: no record is counted twice or left out |
| Grouping.ColumnSumPermutation | src/components/Charts.jsx:125-126 | Reordering the keys (as the month sort does) does not change the sum of their column |
| Grouping.AddTo | src/components/Charts.jsx:80 | The product and month callback `acc[k] = (acc[k] or 0) + v` on a map (computed; `AccumulateStep` states its effect) |
| Records.MonthOf | src/components/Charts.jsx:121 | The month key of a record: the (year, month) of its order date, standing for `"YYYY-MM"` (computed) |
| Grouping.AccumulateStep | src/components/Charts.jsx:79-82 | One call of the product or month callback, which adds the record's value to its key's entry (starting from zero), keeps the accumulator exact: the keys in first-seen order, each holding its sum over the records seen so far |
| Grouping.KeyEntryStep | src/components/Charts.jsx:80 | After one call, each key's entry holds its sum over the extended prefix |
| Ranking.InsertByTotal | src/components/Charts.jsx:83-84 | Inserting into a descending list gives a descending permutation of the list plus the new entry |
| Ranking.SortByTotal | src/components/Charts.jsx:83-84 | The sort by `b - a` returns a permutation of the entries that is non-increasing by total |
| Ranking.InsertByTotalStable | src/components/Charts.jsx:83-84 | The inserted entry goes before the entries that tie with it |
| Ranking.SortByTotalStable | src/components/Charts.jsx:83-84 | Stability: for every total, the entries with that total keep their original relative order |
| Ranking.TopFive | src/components/Charts.jsx:83-85 | `.slice(0, 5)` of the sorted entries has min(5, n) entries |
| Ranking.TopFiveDrawn | src/components/Charts.jsx:83-85 | The top five are drawn from the entries, with no entry invented or repeated |
| Ranking.TopFiveDescending | src/components/Charts.jsx:83-85 | The top five are non-increasing by total |
| Ranking.TopFiveOmitted | src/components/Charts.jsx:83-85 | An entry left out of the top five has a total no larger than the last one kept |
| Ranking.TopFiveStable | src/components/Charts.jsx:83-85 | Among entries with equal totals, the kept ones are the first-seen ones, in first-seen order |
| Ranking.TopFiveProperties | src/components/Charts.jsx:83-85 | All of the above for the top five together |
| Ranking.InsertMonth | src/components/Charts.jsx:125 | Inserting a month into an ascending list gives an ascending permutation, which stays free of duplicates when the month is new |
| Ranking.SortMonths | src/components/Charts.jsx:125 | `.sort()` on month keys returns a permutation in ascending order, strictly ascending when the keys are distinct |
| Charts.Summarize | src/components/Charts.jsx:29-34 | The component shows "no data" exactly when there are no records |
| Charts.Margin | src/components/Charts.jsx:38 | The average margin exists exactly when total sales are non-zero, and it is then 100 × profit / sales |
| Charts.AddToRegion | src/components/Charts.jsx:41-44 | The region callback adds the record's region to the keys, adds its sales and profit to that region's entry (which starts from zero when new), and leaves every other entry unchanged |
| Charts.RegionEntryStep | src/components/Charts.jsx:41-44 | After one callback, the record's region entry and every other entry hold their sums over the extended prefix |
| Charts.RegionStep | src/components/Charts.jsx:40-45 | One callback keeps the region accumulator exact: labels in first-seen order, each holding its region's sales and profit sums |
| Charts.RegionTotals | src/components/Charts.jsx:40-45 | The region reduce returns the distinct regions in first-seen order, each mapped to the sums of sales and profit over its records |
| Charts.SumBy | src/components/Charts.jsx:79-82 | The product and month reduce returns the distinct keys in first-seen order, each mapped to the sum of the value over its records |
| Charts.ProductEntries | src/components/Charts.jsx:83 | `Object.entries(productSales)`: the distinct product names in first-seen order, each paired with its summed sales (computed; `ProductEntriesFacts` states its properties) |
| Charts.Names | src/components/Charts.jsx:86 | The names of a list of entries, in order (computed) |
| Charts.Totals | src/components/Charts.jsx:108 | The totals of a list of entries, in order (computed) |
| Charts.BarSeries | src/components/Charts.jsx:47-49 | The bar labels are the regions in first-seen order; the two series are their sales and profit sums, in label order |
| Charts.PieSeriesOf | src/components/Charts.jsx:79-86 | The pie labels and values are the names and totals of the top five product entries, in the same order |
| Charts.LineSeries | src/components/Charts.jsx:120-126 | The line labels are the sorted distinct months; the values are their profit sums, in label order |
| Charts.ComputeCharts | src/components/Charts.jsx:29-126 | The component's computation returns exactly `Summarize(data)` |
| Charts.RegionSeries | src/components/Charts.jsx:40-49 | There is one bar per distinct region, each listed once and every record's region present, holding its region's sums; the bars add up to total sales and total profit |
| Charts.ProductEntriesFacts | src/components/Charts.jsx:79-83 | The product entries are the distinct product names in first-seen order, each once, paired with the product's summed sales; every record's product has its entry |
| Charts.ProductEntryOf | src/components/Charts.jsx:79-82 | The product of any record has an entry holding its summed sales |
| Charts.TopNamesDistinct | src/components/Charts.jsx:86 | When the entries' names are distinct, so are the pie labels |
| Charts.TopLabels | src/components/Charts.jsx:83-86 | There are min(5, number of distinct products) pie labels, with no name twice |
| Charts.TopEntriesAreProducts | src/components/Charts.jsx:83-86 | Each pie label is a product of the data, and its value is that product's summed sales |
| Charts.TopTotalsDescending | src/components/Charts.jsx:83-85 | The pie values never increase from one slice to the next |
| Charts.TopEntriesOmitted | src/components/Charts.jsx:83-85 | A product not among the pie labels sells no more than the smallest slice |
| Charts.TopTieOrder | src/components/Charts.jsx:83-86 | Two slices with equal sales keep the order in which their products first occur in the data |
| Charts.TopTiesFirstSeen | src/components/Charts.jsx:83-86 | The same, for every pair of slices at once |
| Charts.TopOmittedAll | src/components/Charts.jsx:83-85 | The same, for every record's product at once |
| Charts.TopProducts | src/components/Charts.jsx:79-86 | The pie slices: min(5, number of products) of them, distinct names with their summed sales, largest first, ties in first-seen product order, and no omitted product sells more than the smallest slice |
| Charts.PieSeries | src/components/Charts.jsx:108 | The same properties, stated on the pie labels and values of the component's output |
| Charts.SortedMonthsKnown | src/components/Charts.jsx:125-126 | Every sorted month key is a key of the month accumulator, so `timeData[m]` is defined |
| Charts.MonthSeries | src/components/Charts.jsx:120-126 | The month labels are strictly ascending; every record's month is listed, and only months with records are; each value is its month's profit sum; the values add up to total profit |
| Charts.RegionFilterGroup | src/components/Filters.jsx:11 | Filtering by a region of the data leaves a non-empty list with that single region, whose totals are that region's sums |
| Charts.RegionFilterMatchesBar | src/components/Filters.jsx:11 | Selecting a region shows, as its totals, exactly that region's bar in the unfiltered chart, and a single bar |
| Charts.KettleEntries | src/components/Charts.jsx:79-82 | Two "Kettle" records with sales 10 and 15 give one product entry of 25 |
| Charts.TopFiveSingle | src/components/Charts.jsx:83-85 | A single entry is its own top five |
| Charts.KettleExample | src/components/Charts.jsx:79-86 | Two "Kettle" rows with sales 10 and 15 give a single pie slice "Kettle" of 25 |
| Charts.SummaryExample | src/components/Charts.jsx:36-38 | Two rows (100/20 East, 200/50 West), unfiltered, give totals 300 and 70, margin 7000/300 percent, and the bars East then West |

## Left out

- Rendering: the JSX markup, chart.js registration, the bar, pie and line option and colour objects, and the select and button controls. They are display only.
- The hard-coded year buttons 2016 to 2019 are user interface. The model accepts any year.
- Charts.Margin: models `avgMargin` as an exact ratio (`None` when total sales are zero). It does not model the floating-point division, the NaN or Infinity the source shows for zero sales, or the rounding by `toFixed(1)`.
- Charts.BarSeries: the division by 1e6 for display is left out. The series hold the unscaled sums, because the scaling is floating point.
- `toLocaleString` in the pie tooltip is formatting only.
- Sales and profit are integers, so every sum is exact. The source adds JavaScript floating-point numbers.
- Dates are already parsed into (year, month, day) and compared by day. `new Date` parsing, time of day, time zones and malformed or missing fields are not modelled. A timestamp later on December 31 would fall after the source's midnight bound.
- The month key is the pair (year, month), ordered chronologically. This matches the ascending string sort of `"YYYY-MM"` keys for four-digit years. Years outside 0 to 9999, which `toISOString` writes with a sign and six digits, are not modelled.
- `Object.keys` lists integer-like keys before the other keys. The model assumes plain string keys, which keep insertion order.
- Charts.AddToRegion: the source's accumulators are plain `{}` objects, and a key that names an inherited `Object.prototype` member behaves differently there. For region `"__proto__"`, `acc[d.Region]` is `Object.prototype`, so the region never becomes an own key. Its records drop out of the bars, and the bars no longer add up to the totals. The model sums every region as an ordinary key.
- Grouping.AddTo: for a product or month key such as `"toString"` or `"constructor"`, `(acc[k] || 0)` starts from an inherited function. The entry becomes a string, and the `b - a` sort compares NaN. The model starts every new key from zero.
- Grouping.FirstSeen: it stands for `Object.keys` of an accumulator. It lists every key met, including the inherited-member names above that the source would leave out (`"__proto__"`) or corrupt.
- An empty region or category string means "no filter", as the source's truthiness test does. A record whose region is the empty string therefore cannot be selected on its own.
- The data fetch, its error logging, React state and effect scheduling, and the `onFilter` callback wiring are I/O and framework behaviour. `ApplyFilters` returns the list the effect passes to `onFilter`.
