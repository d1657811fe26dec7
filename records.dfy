/**
 * The dataset's rows. A record has the six fields the dashboard reads:
 * `Region`, `Product Category`, `Product Name`, `Sales`, `Profit` and
 * `Order Date`. Sales and profit are whole numbers so that sums are exact;
 * the order date is already parsed into a calendar date.
 */
module Records {

  /** A calendar date, compared at day granularity. */
  datatype Date = Date(year: int, month: int, day: int)

  function DaysInMonth(year: int, month: int): int
  {
    if month == 2 then
      (if (year % 4 == 0 && year % 100 != 0) || year % 400 == 0 then 29 else 28)
    else if month == 4 || month == 6 || month == 9 || month == 11 then 30
    else 31
  }

  /** A date that exists on the proleptic Gregorian calendar. */
  predicate ValidDate(d: Date)
  {
    1 <= d.month <= 12 && 1 <= d.day <= DaysInMonth(d.year, d.month)
  }

  /** `a` is on or before `b`: the order of the dates on the time line. */
  predicate DateLe(a: Date, b: Date)
  {
    a.year < b.year ||
    (a.year == b.year && (a.month < b.month || (a.month == b.month && a.day <= b.day)))
  }

  datatype Record = Record(
    region: string,
    category: string,
    productName: string,
    sales: int,
    profit: int,
    orderDate: Date)

  /** The calendar month a record falls in; stands for the "YYYY-MM" key. */
  datatype Month = Month(year: int, month: int)

  /** Chronological order of month keys (strict). */
  predicate MonthBefore(a: Month, b: Month)
  {
    a.year < b.year || (a.year == b.year && a.month < b.month)
  }

  // Field accessors, used as grouping keys and summed values.

  function RegionOf(d: Record): string { d.region }

  function CategoryOf(d: Record): string { d.category }

  function NameOf(d: Record): string { d.productName }

  function SalesOf(d: Record): int { d.sales }

  function ProfitOf(d: Record): int { d.profit }

  function MonthOf(d: Record): Month { Month(d.orderDate.year, d.orderDate.month) }
}
