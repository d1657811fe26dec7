/**
 * The filter engine: narrows the dataset by the user's selection of region,
 * product category and year, and derives the region and category option
 * lists from the full, unfiltered dataset.
 *
 * An empty region or category string means "no filter" (the source tests the
 * string's truthiness); the year is either "all" or one calendar year.
 */
module Filters {
  import opened Sequences
  import opened Records
  import opened Grouping

  datatype YearChoice = AllYears | Year(year: int)

  datatype Selection = Selection(region: string, category: string, year: YearChoice)

  /** The selection the filter panel starts with: everything. */
  const Unfiltered := Selection("", "", AllYears)

  /** Between January 1 and December 31 of year `y`, both included. */
  predicate InYearRange(d: Date, y: int)
  {
    DateLe(Date(y, 1, 1), d) && DateLe(d, Date(y, 12, 31))
  }

  /** The year stage: the record was ordered within calendar year `y`. */
  function OrderedIn(y: int): Record -> bool
  {
    (d: Record) => InYearRange(d.orderDate, y)
  }

  /** A record passes every predicate the selection switches on. */
  predicate Matches(sel: Selection, d: Record)
  {
    && (sel.region != "" ==> d.region == sel.region)
    && (sel.category != "" ==> d.category == sel.category)
    && (sel.year.Year? ==> InYearRange(d.orderDate, sel.year.year))
  }

  function Matcher(sel: Selection): Record -> bool
  {
    d => Matches(sel, d)
  }

  /** The records that match the selection, in dataset order. */
  function Filtered(data: seq<Record>, sel: Selection): seq<Record>
  {
    Keep(data, Matcher(sel))
  }

  /**
   * The effect body: starts from the whole dataset and applies, in turn, the
   * region, the category and the year filter, each only when it is set. The
   * result is the one-pass filter by the conjunction of the active predicates.
   */
  method ApplyFilters(data: seq<Record>, sel: Selection) returns (filtered: seq<Record>)
    ensures filtered == Filtered(data, sel)
  {
    ghost var stages: Record -> bool := d => true;
    KeepAllPass(data, stages);
    filtered := data;
    if sel.region != "" {
      KeepCompose(data, stages, KeyIs(RegionOf, sel.region));
      filtered := Keep(filtered, KeyIs(RegionOf, sel.region));
      stages := Both(stages, KeyIs(RegionOf, sel.region));
    }
    if sel.category != "" {
      KeepCompose(data, stages, KeyIs(CategoryOf, sel.category));
      filtered := Keep(filtered, KeyIs(CategoryOf, sel.category));
      stages := Both(stages, KeyIs(CategoryOf, sel.category));
    }
    if sel.year.Year? {
      KeepCompose(data, stages, OrderedIn(sel.year.year));
      filtered := Keep(filtered, OrderedIn(sel.year.year));
      stages := Both(stages, OrderedIn(sel.year.year));
    }
    forall i | 0 <= i < |data|
      ensures stages(data[i]) == Matcher(sel)(data[i])
    {
      var d := data[i];
      assert Matcher(sel)(d) == Matches(sel, d);
      assert KeyIs(RegionOf, sel.region)(d) == (RegionOf(d) == sel.region);
      assert KeyIs(CategoryOf, sel.category)(d) == (CategoryOf(d) == sel.category);
    }
    KeepExt(data, stages, Matcher(sel));
  }

  /**
   * The filtered list is a subsequence of the dataset: order is kept and
   * nothing is added or duplicated.
   */
  lemma FilteredIsSubsequence(data: seq<Record>, sel: Selection)
    ensures IsSubsequence(Filtered(data, sel), data)
    ensures multiset(Filtered(data, sel)) <= multiset(data)
  {
    KeepIsSubsequence(data, Matcher(sel));
    forall d ensures multiset(Filtered(data, sel))[d] <= multiset(data)[d] {
      KeepCount(data, Matcher(sel), d);
    }
  }

  /** Soundness: every kept record matches each active predicate. */
  lemma FilteredSound(data: seq<Record>, sel: Selection)
    ensures forall d :: d in Filtered(data, sel) ==>
              && d in data
              && (sel.region != "" ==> d.region == sel.region)
              && (sel.category != "" ==> d.category == sel.category)
              && (sel.year.Year? ==> InYearRange(d.orderDate, sel.year.year))
  {
    KeepMembers(data, Matcher(sel));
  }

  /**
   * Completeness: every record that matches all active predicates is kept,
   * as many times as it occurs in the dataset.
   */
  lemma FilteredComplete(data: seq<Record>, sel: Selection)
    ensures forall i :: 0 <= i < |data| && Matches(sel, data[i]) ==> data[i] in Filtered(data, sel)
    ensures forall d :: Matches(sel, d) ==> multiset(Filtered(data, sel))[d] == multiset(data)[d]
  {
    KeepMembers(data, Matcher(sel));
    forall d | Matches(sel, d)
      ensures multiset(Filtered(data, sel))[d] == multiset(data)[d]
    {
      KeepCount(data, Matcher(sel), d);
    }
  }

  /** With no region, no category and all years, the whole dataset is shown. */
  lemma UnfilteredIsIdentity(data: seq<Record>)
    ensures Filtered(data, Unfiltered) == data
  {
    KeepAllPass(data, Matcher(Unfiltered));
  }

  /** Filtering an already filtered list by the same selection changes nothing. */
  lemma FilteredIdempotent(data: seq<Record>, sel: Selection)
    ensures Filtered(Filtered(data, sel), sel) == Filtered(data, sel)
  {
    var f := Filtered(data, sel);
    KeepMembers(data, Matcher(sel));
    assert forall i :: 0 <= i < |f| ==> f[i] in f;
    KeepAllPass(f, Matcher(sel));
  }

  /**
   * The year range is exactly the calendar year: January 1 and December 31
   * are inside, and no valid date of another year is.
   */
  lemma YearRangeIsCalendarYear(d: Date, y: int)
    requires ValidDate(d)
    ensures InYearRange(d, y) <==> d.year == y
    ensures InYearRange(Date(y, 1, 1), y) && InYearRange(Date(y, 12, 31), y)
  {
  }

  /** Selecting only region `r` keeps exactly the records of region `r`. */
  lemma RegionSelection(data: seq<Record>, r: string)
    requires r != ""
    ensures Filtered(data, Selection(r, "", AllYears)) == Keep(data, KeyIs(RegionOf, r))
  {
    var sel := Selection(r, "", AllYears);
    forall i | 0 <= i < |data|
      ensures Matcher(sel)(data[i]) == KeyIs(RegionOf, r)(data[i])
    {
      assert Matcher(sel)(data[i]) == Matches(sel, data[i]);
      assert KeyIs(RegionOf, r)(data[i]) == (RegionOf(data[i]) == r);
    }
    KeepExt(data, Matcher(sel), KeyIs(RegionOf, r));
  }

  /**
   * The region dropdown: the distinct regions of the WHOLE dataset, each
   * once, ordered by where each first occurs. It takes no selection, so
   * narrowing the other filters never removes an option.
   */
  function RegionOptions(data: seq<Record>): (r: seq<string>)
    ensures Distinct(r)
    ensures forall i :: 0 <= i < |data| ==> data[i].region in r
    ensures forall i :: 0 <= i < |r| ==> HasKey(data, RegionOf, r[i])
    ensures forall i, j :: 0 <= i < j < |r| ==>
              HasKey(data, RegionOf, r[i]) && HasKey(data, RegionOf, r[j]) &&
              FirstAt(data, RegionOf, r[i]) < FirstAt(data, RegionOf, r[j])
  {
    FirstSeenOrder(data, RegionOf);
    FirstSeen(data, RegionOf)
  }

  /** The category dropdown, built the same way from the whole dataset. */
  function CategoryOptions(data: seq<Record>): (r: seq<string>)
    ensures Distinct(r)
    ensures forall i :: 0 <= i < |data| ==> data[i].category in r
    ensures forall i :: 0 <= i < |r| ==> HasKey(data, CategoryOf, r[i])
    ensures forall i, j :: 0 <= i < j < |r| ==>
              HasKey(data, CategoryOf, r[i]) && HasKey(data, CategoryOf, r[j]) &&
              FirstAt(data, CategoryOf, r[i]) < FirstAt(data, CategoryOf, r[j])
  {
    FirstSeenOrder(data, CategoryOf);
    FirstSeen(data, CategoryOf)
  }
}
