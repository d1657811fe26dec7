/**
 * The aggregation engine: from the filtered records it computes the summary
 * numbers and the three chart series the dashboard draws.
 *
 *  - no records: the distinguished "no data matches filters" result;
 *  - total sales, total profit and the average margin;
 *  - sales and profit per region, regions in first-seen order (bar chart);
 *  - the five products with the highest summed sales (pie chart);
 *  - profit per calendar month, months in ascending order (line chart).
 *
 * `Summarize` is the specification as one pure function; `ComputeCharts`
 * computes the same value the way the component does, with one accumulating
 * pass per grouping.
 */
module Charts {
  import opened Sequences
  import opened Records
  import opened Grouping
  import opened Ranking
  import opened Filters

  datatype Option<T> = None | Some(value: T)

  /** An exact quotient `num / den`. */
  datatype Ratio = Ratio(num: int, den: int)

  /** The accumulator entry kept per region. */
  datatype RegionSum = RegionSum(sales: int, profit: int)

  datatype ChartData =
    | NoData
    | Charts(
        totalSales: int,
        totalProfit: int,
        avgMargin: Option<Ratio>,
        regionLabels: seq<string>,
        regionSales: seq<int>,
        regionProfits: seq<int>,
        pieLabels: seq<string>,
        pieValues: seq<int>,
        timeLabels: seq<Month>,
        timeProfits: seq<int>)

  /**
   * Profit as a percentage of sales, as an exact ratio; `None` when there are
   * no sales, where the division has no numeric value.
   */
  function Margin(totalSales: int, totalProfit: int): (m: Option<Ratio>)
    ensures m.Some? <==> totalSales != 0
    ensures m.Some? ==> m.value.den == totalSales && m.value.num == 100 * totalProfit
  {
    if totalSales == 0 then None else Some(Ratio(100 * totalProfit, totalSales))
  }

  /** `Object.entries(productSales)`: each product once, with its summed sales. */
  function ProductEntries(data: seq<Record>): (es: seq<Entry>)
  {
    var names := FirstSeen(data, NameOf);
    seq(|names|, i requires 0 <= i < |names| => Entry(names[i], GroupSum(data, NameOf, SalesOf, names[i])))
  }

  function Names(es: seq<Entry>): seq<string>
  {
    seq(|es|, i requires 0 <= i < |es| => es[i].name)
  }

  function Totals(es: seq<Entry>): seq<int>
  {
    seq(|es|, i requires 0 <= i < |es| => es[i].total)
  }

  /** Everything the component shows, as a function of the filtered records. */
  function Summarize(data: seq<Record>): (v: ChartData)
    ensures v.NoData? <==> data == []
  {
    if data == [] then NoData
    else
      var totalSales := Total(data, SalesOf);
      var totalProfit := Total(data, ProfitOf);
      var regions := FirstSeen(data, RegionOf);
      var top := TopFive(ProductEntries(data));
      var months := SortMonths(FirstSeen(data, MonthOf));
      Charts(
        totalSales, totalProfit, Margin(totalSales, totalProfit),
        regions, GroupColumn(regions, data, RegionOf, SalesOf), GroupColumn(regions, data, RegionOf, ProfitOf),
        Names(top), Totals(top),
        months, GroupColumn(months, data, MonthOf, ProfitOf))
  }

  /**
   * The region accumulator after the records `prefix`: one entry per region
   * met so far, in first-seen order, holding that region's sums.
   */
  ghost predicate RegionsAccumulated(prefix: seq<Record>, labels: seq<string>, acc: map<string, RegionSum>)
  {
    && labels == FirstSeen(prefix, RegionOf)
    && KeysListed(labels, acc)
    && RegionSums(prefix, acc)
  }

  /** Each entry of the accumulator holds its region's sums over `prefix`. */
  ghost predicate RegionSums(prefix: seq<Record>, acc: map<string, RegionSum>)
  {
    forall k :: k in acc ==>
      acc[k] == RegionSum(GroupSum(prefix, RegionOf, SalesOf, k), GroupSum(prefix, RegionOf, ProfitOf, k))
  }

  /**
   * The region `reduce` callback: a region met for the first time gets a
   * zeroed entry, then the record's sales and profit are added to its
   * region's entry; every other entry is unchanged.
   */
  function AddToRegion(acc: map<string, RegionSum>, d: Record): (acc': map<string, RegionSum>)
    ensures acc'.Keys == acc.Keys + {d.region}
    ensures d.region in acc ==>
              acc'[d.region] == RegionSum(acc[d.region].sales + d.sales, acc[d.region].profit + d.profit)
    ensures d.region !in acc ==> acc'[d.region] == RegionSum(d.sales, d.profit)
    ensures forall k :: k in acc && k != d.region ==> acc'[k] == acc[k]
  {
    var seeded := if d.region in acc then acc else acc[d.region := RegionSum(0, 0)];
    seeded[d.region := RegionSum(seeded[d.region].sales + d.sales, seeded[d.region].profit + d.profit)]
  }

  /** One step of the region `reduce` keeps one region's entry exact. */
  lemma RegionEntryStep(prefix: seq<Record>, d: Record, acc: map<string, RegionSum>, k: string)
    requires RegionSums(prefix, acc)
    requires d.region !in acc ==> !HasKey(prefix, RegionOf, d.region)
    requires k in AddToRegion(acc, d)
    ensures AddToRegion(acc, d)[k] ==
              RegionSum(GroupSum(prefix + [d], RegionOf, SalesOf, k), GroupSum(prefix + [d], RegionOf, ProfitOf, k))
  {
    var sales, profit := GroupSum(prefix, RegionOf, SalesOf, k), GroupSum(prefix, RegionOf, ProfitOf, k);
    GroupSumAppendAt(prefix, d, RegionOf, SalesOf, k);
    GroupSumAppendAt(prefix, d, RegionOf, ProfitOf, k);
    if k in acc {
      assert acc[k] == RegionSum(sales, profit);
    } else {
      GroupSumUnseen(prefix, RegionOf, SalesOf, k);
      GroupSumUnseen(prefix, RegionOf, ProfitOf, k);
    }
  }

  /** One step of the region `reduce` keeps the accumulator exact. */
  lemma RegionStep(prefix: seq<Record>, d: Record, labels: seq<string>, acc: map<string, RegionSum>)
    requires RegionsAccumulated(prefix, labels, acc)
    ensures RegionsAccumulated(prefix + [d], if d.region in acc then labels else labels + [d.region], AddToRegion(acc, d))
  {
    var s := prefix + [d];
    FirstSeenStep(prefix, d, RegionOf);
    if d.region !in acc {
      FirstSeenHasKey(prefix, RegionOf, d.region);
    }
    var labels' := if d.region in acc then labels else labels + [d.region];
    assert labels' == FirstSeen(s, RegionOf);
    assert KeysListed(labels', AddToRegion(acc, d));
    assert RegionSums(s, AddToRegion(acc, d)) by {
      forall k | k in AddToRegion(acc, d)
        ensures AddToRegion(acc, d)[k] ==
                  RegionSum(GroupSum(s, RegionOf, SalesOf, k), GroupSum(s, RegionOf, ProfitOf, k))
      {
        RegionEntryStep(prefix, d, acc, k);
      }
    }
  }

  /**
   * The region `reduce`: one pass over the records, creating a zeroed entry
   * the first time a region is met and adding each record's sales and profit
   * to its region's entry. `labels` is the accumulator's key order.
   */
  method RegionTotals(data: seq<Record>) returns (labels: seq<string>, acc: map<string, RegionSum>)
    ensures labels == FirstSeen(data, RegionOf)
    ensures forall k :: k in acc <==> k in labels
    ensures forall k :: k in acc ==>
              acc[k] == RegionSum(GroupSum(data, RegionOf, SalesOf, k), GroupSum(data, RegionOf, ProfitOf, k))
  {
    labels, acc := [], map[];
    for i := 0 to |data|
      invariant RegionsAccumulated(data[..i], labels, acc)
    {
      var d := data[i];
      RegionStep(data[..i], d, labels, acc);
      PrefixExtend(data, i);
      labels := if d.region in acc then labels else labels + [d.region];
      acc := AddToRegion(acc, d);
    }
    assert data[..|data|] == data;
  }

  /**
   * The product and month `reduce`s: `acc[k] = (acc[k] || 0) + val(d)` for
   * every record `d` with key `k`, in one pass. `keys` is the accumulator's
   * key order.
   */
  method SumBy<K(==,!new)>(data: seq<Record>, key: Record -> K, val: Record -> int) returns (keys: seq<K>, acc: map<K, int>)
    ensures keys == FirstSeen(data, key)
    ensures forall k :: k in acc <==> k in keys
    ensures forall k :: k in acc ==> acc[k] == GroupSum(data, key, val, k)
  {
    keys, acc := [], map[];
    for i := 0 to |data|
      invariant Accumulated(data[..i], key, val, keys, acc)
    {
      var d := data[i];
      AccumulateStep(data[..i], d, key, val, keys, acc);
      PrefixExtend(data, i);
      var k := key(d);
      keys := if k in acc then keys else keys + [k];
      acc := AddTo(acc, k, val(d));
    }
    assert data[..|data|] == data;
  }

  /** Sorting the month keys keeps each of them a key of the accumulator. */
  lemma SortedMonthsKnown(months: seq<Month>, acc: map<Month, int>)
    requires forall k :: k in acc <==> k in months
    ensures forall i :: 0 <= i < |SortMonths(months)| ==> SortMonths(months)[i] in acc
  {
    var sorted := SortMonths(months);
    forall i | 0 <= i < |sorted|
      ensures sorted[i] in acc
    {
      assert sorted[i] in multiset(months);
    }
  }

  /** `regionLabels`, `regionSales` and `regionProfits`: the bar chart's series. */
  method BarSeries(data: seq<Record>) returns (labels: seq<string>, sales: seq<int>, profits: seq<int>)
    ensures labels == FirstSeen(data, RegionOf)
    ensures sales == GroupColumn(labels, data, RegionOf, SalesOf)
    ensures profits == GroupColumn(labels, data, RegionOf, ProfitOf)
  {
    var acc;
    labels, acc := RegionTotals(data);
    sales := seq(|labels|, i requires 0 <= i < |labels| => acc[labels[i]].sales);
    profits := seq(|labels|, i requires 0 <= i < |labels| => acc[labels[i]].profit);
  }

  /** `pieLabels` and the pie's values: the five best-selling products. */
  method PieSeriesOf(data: seq<Record>) returns (labels: seq<string>, values: seq<int>)
    ensures labels == Names(TopFive(ProductEntries(data)))
    ensures values == Totals(TopFive(ProductEntries(data)))
  {
    var names, acc := SumBy(data, NameOf, SalesOf);
    var entries := seq(|names|, i requires 0 <= i < |names| => Entry(names[i], acc[names[i]]));
    assert entries == ProductEntries(data);
    var top := TopFive(entries);
    labels := seq(|top|, i requires 0 <= i < |top| => top[i].name);
    values := seq(|top|, i requires 0 <= i < |top| => top[i].total);
  }

  /** `timeLabels` and `timeProfits`: the line chart's series. */
  method LineSeries(data: seq<Record>) returns (labels: seq<Month>, profits: seq<int>)
    ensures labels == SortMonths(FirstSeen(data, MonthOf))
    ensures profits == GroupColumn(labels, data, MonthOf, ProfitOf)
  {
    var months, acc := SumBy(data, MonthOf, ProfitOf);
    labels := SortMonths(months);
    SortedMonthsKnown(months, acc);
    profits := seq(|labels|, i requires 0 <= i < |labels| => acc[labels[i]]);
    assert forall i :: 0 <= i < |labels| ==> profits[i] == GroupSum(data, MonthOf, ProfitOf, labels[i]);
  }

  /** The component's computation: the same value as `Summarize`. */
  method ComputeCharts(data: seq<Record>) returns (v: ChartData)
    ensures v == Summarize(data)
  {
    if data == [] {
      return NoData;
    }
    var totalSales := Total(data, SalesOf);
    var totalProfit := Total(data, ProfitOf);
    var regionLabels, regionSales, regionProfits := BarSeries(data);
    var pieLabels, pieValues := PieSeriesOf(data);
    var timeLabels, timeProfits := LineSeries(data);
    v := Charts(
      totalSales, totalProfit, Margin(totalSales, totalProfit),
      regionLabels, regionSales, regionProfits,
      pieLabels, pieValues,
      timeLabels, timeProfits);
  }

  /**
   * The bar chart: one bar per distinct region, in first-seen order, whose
   * sales and profit are the sums over that region's records; the bars
   * together account for the totals exactly.
   */
  lemma RegionSeries(data: seq<Record>)
    requires data != []
    ensures var v := Summarize(data);
      && Distinct(v.regionLabels)
      && (forall j :: 0 <= j < |data| ==> data[j].region in v.regionLabels)
      && |v.regionSales| == |v.regionProfits| == |v.regionLabels|
      && (forall i :: 0 <= i < |v.regionLabels| ==>
            && HasKey(data, RegionOf, v.regionLabels[i])
            && v.regionSales[i] == GroupSum(data, RegionOf, SalesOf, v.regionLabels[i])
            && v.regionProfits[i] == GroupSum(data, RegionOf, ProfitOf, v.regionLabels[i]))
      && Sum(v.regionSales) == v.totalSales
      && Sum(v.regionProfits) == v.totalProfit
  {
    PartitionTotal(data, RegionOf, SalesOf);
    PartitionTotal(data, RegionOf, ProfitOf);
  }

  /**
   * Each product entry pairs a distinct product name of the data with that
   * product's summed sales, so an entry is fixed by its name.
   */
  lemma ProductEntriesFacts(data: seq<Record>)
    ensures Names(ProductEntries(data)) == FirstSeen(data, NameOf)
    ensures Distinct(ProductEntries(data))
    ensures forall e :: e in ProductEntries(data) ==>
              HasKey(data, NameOf, e.name) && e.total == GroupSum(data, NameOf, SalesOf, e.name)
    ensures forall j :: 0 <= j < |data| ==>
              var n := data[j].productName; Entry(n, GroupSum(data, NameOf, SalesOf, n)) in ProductEntries(data)
  {
    var names := FirstSeen(data, NameOf);
    var es := ProductEntries(data);
    forall j | 0 <= j < |data|
      ensures Entry(data[j].productName, GroupSum(data, NameOf, SalesOf, data[j].productName)) in es
    {
      ProductEntryOf(data, j);
    }
  }

  /** The entry of the product of record `j`. */
  lemma ProductEntryOf(data: seq<Record>, j: nat)
    requires j < |data|
    ensures var n := data[j].productName; Entry(n, GroupSum(data, NameOf, SalesOf, n)) in ProductEntries(data)
  {
    var names := FirstSeen(data, NameOf);
    var es := ProductEntries(data);
    assert NameOf(data[j]) in names;
    var a :| 0 <= a < |names| && names[a] == data[j].productName;
    assert es[a] == Entry(names[a], GroupSum(data, NameOf, SalesOf, names[a]));
  }

  /** When no two entries share a name, no two of the top five do. */
  lemma TopNamesDistinct(es: seq<Entry>)
    requires Distinct(Names(es))
    ensures Distinct(Names(TopFive(es)))
  {
    var top := TopFive(es);
    TopFiveDrawn(es);
    assert Distinct(es) by {
      forall i, j | 0 <= i < j < |es| ensures es[i] != es[j] {
        assert Names(es)[i] != Names(es)[j];
      }
    }
    DistinctSub(top, es);
    forall i, j | 0 <= i < j < |top|
      ensures top[i].name != top[j].name
    {
      var a :| 0 <= a < |es| && es[a] == top[i];
      var b :| 0 <= b < |es| && es[b] == top[j];
      assert Names(es)[a] == top[i].name && Names(es)[b] == top[j].name;
    }
  }

  /** The top five labels: min(5, number of distinct products) of them, no name twice. */
  lemma TopLabels(data: seq<Record>)
    ensures var top := TopFive(ProductEntries(data));
      && |Names(top)| == |Totals(top)| == Min(TopCount, |FirstSeen(data, NameOf)|)
      && Distinct(Names(top))
  {
    var es := ProductEntries(data);
    ProductEntriesFacts(data);
    assert |es| == |Names(es)|;
    TopNamesDistinct(es);
  }

  /** Each of the top five entries is a product of the data with its summed sales. */
  lemma TopEntriesAreProducts(data: seq<Record>)
    ensures var top := TopFive(ProductEntries(data));
      forall i :: 0 <= i < |Names(top)| ==>
        && HasKey(data, NameOf, Names(top)[i])
        && Totals(top)[i] == GroupSum(data, NameOf, SalesOf, Names(top)[i])
  {
    var top := TopFive(ProductEntries(data));
    ProductEntriesFacts(data);
    TopFiveDrawn(ProductEntries(data));
    forall i | 0 <= i < |Names(top)|
      ensures HasKey(data, NameOf, Names(top)[i])
      ensures Totals(top)[i] == GroupSum(data, NameOf, SalesOf, Names(top)[i])
    {
      assert top[i] in ProductEntries(data);
    }
  }

  /** The top five totals never increase from one slice to the next. */
  lemma TopTotalsDescending(es: seq<Entry>)
    ensures forall i, j :: 0 <= i < j < |Totals(TopFive(es))| ==>
              Totals(TopFive(es))[i] >= Totals(TopFive(es))[j]
  {
    TopFiveDescending(es);
  }

  /** A product whose name is not among the top five sells no more than the fifth. */
  lemma TopEntriesOmitted(data: seq<Record>, j: nat)
    requires j < |data|
    requires data[j].productName !in Names(TopFive(ProductEntries(data)))
    ensures |TopFive(ProductEntries(data))| > 0
    ensures var top := TopFive(ProductEntries(data));
      GroupSum(data, NameOf, SalesOf, data[j].productName) <= top[|top| - 1].total
  {
    var top := TopFive(ProductEntries(data));
    var n := data[j].productName;
    var e := Entry(n, GroupSum(data, NameOf, SalesOf, n));
    ProductEntryOf(data, j);
    forall b | 0 <= b < |top|
      ensures top[b] != e
    {
      assert Names(top)[b] == top[b].name;
    }
    TopFiveOmitted(ProductEntries(data), e);
  }

  /** `TopEntriesOmitted` for every record of the data, stated on the series. */
  lemma TopOmittedAll(data: seq<Record>)
    ensures var top := TopFive(ProductEntries(data));
      forall j :: 0 <= j < |data| && data[j].productName !in Names(top) ==>
        GroupSum(data, NameOf, SalesOf, data[j].productName) <= Totals(top)[|Totals(top)| - 1]
  {
    var top := TopFive(ProductEntries(data));
    forall j | 0 <= j < |data| && data[j].productName !in Names(top)
      ensures GroupSum(data, NameOf, SalesOf, data[j].productName) <= Totals(top)[|Totals(top)| - 1]
    {
      TopEntriesOmitted(data, j);
    }
  }

  /**
   * Two slices with equal sales keep the order in which their products first
   * occur in the data: the sort is stable and the entries are listed in
   * first-seen order.
   */
  lemma TopTieOrder(data: seq<Record>, i: nat, j: nat)
    requires var top := TopFive(ProductEntries(data));
      i < j < |Names(top)| && Totals(top)[i] == Totals(top)[j]
    ensures var top := TopFive(ProductEntries(data));
      && HasKey(data, NameOf, Names(top)[i]) && HasKey(data, NameOf, Names(top)[j])
      && FirstAt(data, NameOf, Names(top)[i]) < FirstAt(data, NameOf, Names(top)[j])
  {
    var es := ProductEntries(data);
    var top := TopFive(es);
    assert Totals(top)[i] == top[i].total && Totals(top)[j] == top[j].total;
    assert Names(top)[i] == top[i].name && Names(top)[j] == top[j].name;
    var p := TotalIs(top[i].total);
    var ci, cj := |Keep(top[..i], p)|, |Keep(top[..j], p)|;
    KeepAt(top, p, i);
    KeepAt(top, p, j);
    KeepCountLess(top, p, i, j);
    TopFiveStable(es, top[i].total);
    assert Keep(es, p)[ci] == top[i] && Keep(es, p)[cj] == top[j];
    var a, b := KeepBefore(es, p, ci, cj);
    ProductEntriesFacts(data);
    assert Names(es)[a] == top[i].name && Names(es)[b] == top[j].name;
    FirstSeenOrder(data, NameOf);
  }

  /** `TopTieOrder` for every pair of slices, stated on the series. */
  lemma TopTiesFirstSeen(data: seq<Record>)
    ensures var top := TopFive(ProductEntries(data));
      forall i, j :: 0 <= i < j < |Names(top)| && Totals(top)[i] == Totals(top)[j] ==>
        && HasKey(data, NameOf, Names(top)[i]) && HasKey(data, NameOf, Names(top)[j])
        && FirstAt(data, NameOf, Names(top)[i]) < FirstAt(data, NameOf, Names(top)[j])
  {
    var top := TopFive(ProductEntries(data));
    forall i, j | 0 <= i < j < |Names(top)| && Totals(top)[i] == Totals(top)[j]
      ensures && HasKey(data, NameOf, Names(top)[i]) && HasKey(data, NameOf, Names(top)[j])
              && FirstAt(data, NameOf, Names(top)[i]) < FirstAt(data, NameOf, Names(top)[j])
    {
      TopTieOrder(data, i, j);
    }
  }

  /**
   * The pie chart's slices as computed from the product entries:
   * min(5, number of distinct products) of them, each a product of the data
   * (name unchanged, no product twice) with its summed sales, largest first,
   * products with equal sales in the order they first occur in the data, and
   * no product left out sells more than the smallest slice.
   */
  lemma TopProducts(data: seq<Record>)
    ensures var top := TopFive(ProductEntries(data));
      var labels, values := Names(top), Totals(top);
      && |labels| == |values| == Min(TopCount, |FirstSeen(data, NameOf)|)
      && Distinct(labels)
      && (forall i :: 0 <= i < |labels| ==>
            && HasKey(data, NameOf, labels[i])
            && values[i] == GroupSum(data, NameOf, SalesOf, labels[i]))
      && (forall i, j :: 0 <= i < j < |values| ==> values[i] >= values[j])
      && (forall i, j :: 0 <= i < j < |labels| && values[i] == values[j] ==>
            FirstAt(data, NameOf, labels[i]) < FirstAt(data, NameOf, labels[j]))
      && (forall j :: 0 <= j < |data| && data[j].productName !in labels ==>
            GroupSum(data, NameOf, SalesOf, data[j].productName) <= values[|values| - 1])
  {
    TopLabels(data);
    TopEntriesAreProducts(data);
    TopTotalsDescending(ProductEntries(data));
    TopTiesFirstSeen(data);
    TopOmittedAll(data);
  }

  /** The pie chart of the summary has the properties of `TopProducts`. */
  lemma PieSeries(data: seq<Record>)
    requires data != []
    ensures var v := Summarize(data);
      && |v.pieLabels| == |v.pieValues| == Min(TopCount, |FirstSeen(data, NameOf)|)
      && Distinct(v.pieLabels)
      && (forall i :: 0 <= i < |v.pieLabels| ==>
            && HasKey(data, NameOf, v.pieLabels[i])
            && v.pieValues[i] == GroupSum(data, NameOf, SalesOf, v.pieLabels[i]))
      && (forall i, j :: 0 <= i < j < |v.pieValues| ==> v.pieValues[i] >= v.pieValues[j])
      && (forall i, j :: 0 <= i < j < |v.pieLabels| && v.pieValues[i] == v.pieValues[j] ==>
            FirstAt(data, NameOf, v.pieLabels[i]) < FirstAt(data, NameOf, v.pieLabels[j]))
      && (forall j :: 0 <= j < |data| && data[j].productName !in v.pieLabels ==>
            GroupSum(data, NameOf, SalesOf, data[j].productName) <= v.pieValues[|v.pieValues| - 1])
  {
    TopProducts(data);
    var top := TopFive(ProductEntries(data));
    assert Summarize(data).pieLabels == Names(top) && Summarize(data).pieValues == Totals(top);
  }

  /**
   * The line chart: each month that has records appears once, strictly in
   * chronological order, with the summed profit of its records; the monthly
   * profits add up to the total profit.
   */
  lemma MonthSeries(data: seq<Record>)
    requires data != []
    ensures var v := Summarize(data);
      && StrictlyAscending(v.timeLabels)
      && (forall j :: 0 <= j < |data| ==> MonthOf(data[j]) in v.timeLabels)
      && (forall i :: 0 <= i < |v.timeLabels| ==> HasKey(data, MonthOf, v.timeLabels[i]))
      && |v.timeProfits| == |v.timeLabels|
      && (forall i :: 0 <= i < |v.timeLabels| ==>
            v.timeProfits[i] == GroupSum(data, MonthOf, ProfitOf, v.timeLabels[i]))
      && Sum(v.timeProfits) == v.totalProfit
  {
    var seen := FirstSeen(data, MonthOf);
    var months := SortMonths(seen);
    forall j | 0 <= j < |data|
      ensures MonthOf(data[j]) in months
    {
      assert MonthOf(data[j]) in multiset(seen);
    }
    forall i | 0 <= i < |months|
      ensures HasKey(data, MonthOf, months[i])
    {
      assert months[i] in multiset(seen);
    }
    PartitionTotal(data, MonthOf, ProfitOf);
    ColumnSumPermutation(months, seen, data, MonthOf, ProfitOf);
    assert Summarize(data).timeLabels == months;
  }

  /**
   * Choosing a region in the filter panel shows, as total sales and total
   * profit, exactly that region's bar in the unfiltered chart (for regions
   * with a non-empty name; the empty name is the "All Regions" option).
   */
  lemma RegionFilterMatchesBar(data: seq<Record>, i: nat)
    requires Summarize(data).Charts? && i < |Summarize(data).regionLabels|
    requires Summarize(data).regionLabels[i] != ""
    ensures var v := Summarize(data);
      var w := Summarize(Filtered(data, Selection(v.regionLabels[i], "", AllYears)));
      && w.Charts?
      && w.regionLabels == [v.regionLabels[i]]
      && w.totalSales == v.regionSales[i]
      && w.totalProfit == v.regionProfits[i]
  {
    var r := FirstSeen(data, RegionOf)[i];
    assert Summarize(data).regionLabels[i] == r;
    RegionFilterGroup(data, r);
  }

  /** Filtering by a region of the data keeps exactly that region's group. */
  lemma RegionFilterGroup(data: seq<Record>, r: string)
    requires r != "" && HasKey(data, RegionOf, r)
    ensures var f := Filtered(data, Selection(r, "", AllYears));
      && f != []
      && FirstSeen(f, RegionOf) == [r]
      && Total(f, SalesOf) == GroupSum(data, RegionOf, SalesOf, r)
      && Total(f, ProfitOf) == GroupSum(data, RegionOf, ProfitOf, r)
  {
    RegionSelection(data, r);
    GroupOfKey(data, RegionOf, r);
    GroupSumIsFilteredTotal(data, RegionOf, SalesOf, r);
    GroupSumIsFilteredTotal(data, RegionOf, ProfitOf, r);
  }

  /** Two "Kettle" rows with sales 10 and 15 give one pie slice of 25. */
  lemma KettleExample(east: Date)
    ensures var data := [
          Record("East", "Appliances", "Kettle", 10, 2, east),
          Record("East", "Appliances", "Kettle", 15, 3, east)];
      var v := Summarize(data);
      v.pieLabels == ["Kettle"] && v.pieValues == [25]
  {
    var a := Record("East", "Appliances", "Kettle", 10, 2, east);
    var b := Record("East", "Appliances", "Kettle", 15, 3, east);
    var data := [a, b];
    var e := Entry("Kettle", 25);
    KettleEntries(a, b);
    TopFiveSingle(e);
    assert Summarize(data).pieLabels == Names([e]) && Summarize(data).pieValues == Totals([e]);
  }

  /** A single entry is its own top five. */
  lemma TopFiveSingle(e: Entry)
    ensures TopFive([e]) == [e]
  {
    var sorted := SortByTotal([e]);
    assert |sorted| == |multiset(sorted)| == 1;
    assert sorted[0] in multiset(sorted);
  }

  /** Two records of one product give one product entry with the summed sales. */
  lemma KettleEntries(a: Record, b: Record)
    requires a.productName == b.productName == "Kettle"
    requires a.sales == 10 && b.sales == 15
    ensures ProductEntries([a, b]) == [Entry("Kettle", 25)]
  {
    var data := [a, b];
    assert data[..1] == [a];
    assert [a][..0] == [];
    FirstSeenSingle(data, NameOf, "Kettle");
    assert GroupSum([a], NameOf, SalesOf, "Kettle") == 10;
    assert GroupSum(data, NameOf, SalesOf, "Kettle") == 25;
  }

  /**
   * Two records, East with sales 100 and profit 20 and West with sales 200
   * and profit 50, unfiltered: total sales 300, total profit 70, margin
   * 7000/300 percent (23.3 when rounded to one decimal).
   */
  lemma SummaryExample(d: Date)
    ensures var data := [
          Record("East", "Appliances", "Kettle", 100, 20, d),
          Record("West", "Appliances", "Toaster", 200, 50, d)];
      var v := Summarize(Filtered(data, Unfiltered));
      v.Charts? && v.totalSales == 300 && v.totalProfit == 70 &&
      v.avgMargin == Some(Ratio(7000, 300)) && v.regionLabels == ["East", "West"]
  {
    var a := Record("East", "Appliances", "Kettle", 100, 20, d);
    var b := Record("West", "Appliances", "Toaster", 200, 50, d);
    var data := [a, b];
    UnfilteredIsIdentity(data);
    assert data[..1] == [a];
    assert [a][..0] == [];
    assert FirstSeen([a], RegionOf) == ["East"];
    assert FirstSeen(data, RegionOf) == ["East", "West"];
    assert Total([a], SalesOf) == 100;
    assert Total([a], ProfitOf) == 20;
    assert Total(data, SalesOf) == 300;
    assert Total(data, ProfitOf) == 70;
  }
}
