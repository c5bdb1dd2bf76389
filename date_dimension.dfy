/**
 * The date list that `populate_date_dimension` in setup_database.py builds
 * before it inserts it into `dim_date`: one `(date, year, month, day)` row per
 * calendar day from the start date to the end date, both included.  Dates are
 * day ordinals; the 'YYYY-MM-DD' text of the first column is the ordinal here.
 */
module DateDimension {
  import Calendar

  /** One `dim_date` row. */
  datatype DateRow = DateRow(date: int, year: int, month: int, day: int)

  /**
   * The loop either finishes with its rows, or `current += timedelta(days=1)`
   * steps past 9999-12-31 and Python raises `OverflowError`.
   */
  datatype DateRows = Rows(rows: seq<DateRow>) | OverflowError

  /** A row whose year, month and day are the Gregorian decomposition of its date. */
  predicate IsGregorian(row: DateRow) {
    var d := Calendar.Date(row.year, row.month, row.day);
    Calendar.ValidDate(d) && Calendar.ToOrdinal(d) == row.date
  }

  /** The row for the `datetime` whose ordinal is `n`: its date, `.year`, `.month`, `.day`. */
  function RowFor(n: int): (row: DateRow)
    requires n >= 1
    ensures row.date == n && IsGregorian(row)
    ensures 1 <= row.month <= 12 && 1 <= row.day <= Calendar.DaysInMonth(row.year, row.month)
  {
    var d := Calendar.FromOrdinal(n);
    DateRow(n, d.year, d.month, d.day)
  }

  /** The `while current <= end` loop of `populate_date_dimension`. */
  method BuildDateRows(startDate: int, endDate: int) returns (result: DateRows)
    requires Calendar.InRange(startDate) && Calendar.InRange(endDate)
    ensures result.OverflowError? <==> startDate <= endDate == Calendar.MaxOrdinal
    ensures result.Rows? ==> |result.rows| == if startDate <= endDate then endDate - startDate + 1 else 0
    ensures result.Rows? && result.rows != [] ==>
      result.rows[0].date == startDate && result.rows[|result.rows| - 1].date == endDate
    ensures result.Rows? ==> forall i :: 0 <= i < |result.rows| - 1 ==> result.rows[i + 1].date == result.rows[i].date + 1
    ensures result.Rows? ==> forall i :: 0 <= i < |result.rows| ==>
      startDate <= result.rows[i].date <= endDate && IsGregorian(result.rows[i])
  {
    var current := startDate;
    var end := endDate;
    var dates: seq<DateRow> := [];
    while current <= end
      invariant startDate <= current <= Calendar.MaxOrdinal
      invariant current <= end + 1 || current == startDate
      invariant |dates| == current - startDate
      invariant forall i :: 0 <= i < |dates| ==> dates[i].date == startDate + i && IsGregorian(dates[i])
      decreases end - current
    {
      dates := dates + [RowFor(current)];
      if current == Calendar.MaxOrdinal {
        return OverflowError;
      }
      current := current + 1;
    }
    return Rows(dates);
  }

  /** Consecutive rows are consecutive calendar days: the day, month or year rolls over by one. */
  lemma ConsecutiveRows(r1: DateRow, r2: DateRow)
    requires IsGregorian(r1) && IsGregorian(r2) && r2.date == r1.date + 1
    ensures if r1.day < Calendar.DaysInMonth(r1.year, r1.month) then r2.year == r1.year && r2.month == r1.month && r2.day == r1.day + 1
      else if r1.month < 12 then r2.year == r1.year && r2.month == r1.month + 1 && r2.day == 1
      else r2.year == r1.year + 1 && r2.month == 1 && r2.day == 1
  {
    var d1 := Calendar.Date(r1.year, r1.month, r1.day);
    var d2 := Calendar.Date(r2.year, r2.month, r2.day);
    Calendar.FromToOrdinal(d1);
    Calendar.FromToOrdinal(d2);
    Calendar.NextDay(r1.date);
  }
}
