/**
 * The window resolver of src/etl/load.py: from the latest date already in the
 * fact table and today's date it decides whether this run is a full load, an
 * incremental load or no load at all.  The SQLite reads and `datetime.now()`
 * become the parameters `table` and `today`; dates are day ordinals.
 */
module LoadWindow {
  import opened Options
  import Calendar

  /** What the run finds in the database before it starts. */
  datatype FactTable =
    | Missing                         // no `fact_fx_rates` table yet
    | Present(maxDate: Option<int>)   // `SELECT MAX(date)`; None when NULL or empty

  /** The triple `(start_date, end_date, is_full_load)` the resolver returns. */
  datatype Window = Window(start: Option<int>, end: Option<int>, isFullLoad: bool)

  /** `FULL_LOAD_START_DATE`, 2024-01-01. */
  const FullLoadStartDate: int := Calendar.ToOrdinal(Calendar.Date(2024, 1, 1))

  /** The sentinel `(None, None, False)`: the database is current. */
  const NoLoad: Window := Window(None, None, false)

  /** The latest loaded date, if the table exists and holds one. */
  function LatestLoaded(table: FactTable): Option<int> {
    match table
    case Missing => None
    case Present(maxDate) => maxDate
  }

  /** `determine_window_to_load`. */
  function DetermineWindowToLoad(table: FactTable, today: int): (w: Window)
    ensures w.isFullLoad <==> LatestLoaded(table).None?
    ensures w.start.None? <==> w.end.None?
    ensures w.end.Some? ==> w.end.value == today
    ensures LatestLoaded(table).None? ==> w.start == Some(FullLoadStartDate)
    ensures w == NoLoad <==> (LatestLoaded(table).Some? && LatestLoaded(table).value >= today)
    ensures LatestLoaded(table).Some? && w != NoLoad ==>
      LatestLoaded(table).value < w.start.value <= today && w.start.value == LatestLoaded(table).value + 1
  {
    match table
    case Missing =>
      Window(Some(FullLoadStartDate), Some(today), true)
    case Present(maxDate) =>
      if maxDate.None? then
        Window(Some(FullLoadStartDate), Some(today), true)
      else
        var latest := maxDate.value;
        if latest >= today then
          NoLoad
        else
          var daysBehind := today - latest;
          if daysBehind == 1 then
            Window(Some(today), Some(today), false)
          else
            Window(Some(latest + 1), Some(today), false)
  }

  /** The days a window asks the extractor for. */
  predicate Requests(w: Window, date: int) {
    w.start.Some? && w.end.Some? && w.start.value <= date <= w.end.value
  }

  /**
   * An incremental run requests exactly the days after the latest loaded one,
   * up to and including today: nothing already loaded, no gap left behind.
   */
  lemma IncrementalWindowIsTheGap(latest: int, today: int, date: int)
    ensures Requests(DetermineWindowToLoad(Present(Some(latest)), today), date)
        <==> latest < date <= today
  {
  }

  /** A full load covers every day from 2024-01-01 up to today. */
  lemma FullLoadCoversHistory(table: FactTable, today: int, date: int)
    requires LatestLoaded(table).None?
    ensures Requests(DetermineWindowToLoad(table, today), date) <==> FullLoadStartDate <= date <= today
  {
  }

  /** The window with one day missing is `[today, today]`, the general `[latest + 1, today]`. */
  lemma OneDayBehind(latest: int, today: int)
    requires today - latest == 1
    ensures DetermineWindowToLoad(Present(Some(latest)), today) == Window(Some(today), Some(today), false)
    ensures DetermineWindowToLoad(Present(Some(latest)), today) == Window(Some(latest + 1), Some(today), false)
  {
  }

  /** Once the latest loaded date is the end of the window, today, a second run on the same day loads nothing. */
  lemma SecondRunIsNoOp(table: FactTable, today: int)
    requires DetermineWindowToLoad(table, today) != NoLoad
    ensures DetermineWindowToLoad(Present(Some(DetermineWindowToLoad(table, today).end.value)), today) == NoLoad
  {
  }

  /** A window never asks for a date that a Python `date` cannot hold when today can. */
  lemma WindowWithinCalendar(table: FactTable, today: int)
    requires Calendar.InRange(today)
    requires LatestLoaded(table).Some? ==> Calendar.InRange(LatestLoaded(table).value)
    ensures var w := DetermineWindowToLoad(table, today);
      w.start.Some? ==> Calendar.InRange(w.start.value) && Calendar.InRange(w.end.value)
  {
  }

  /** The literal boundary scenarios: no data, up to date, one day behind, five days behind. */
  lemma BoundaryScenarios(today: int)
    ensures DetermineWindowToLoad(Missing, today) == Window(Some(FullLoadStartDate), Some(today), true)
    ensures DetermineWindowToLoad(Present(None), today) == Window(Some(FullLoadStartDate), Some(today), true)
    ensures DetermineWindowToLoad(Present(Some(today)), today) == NoLoad
    ensures DetermineWindowToLoad(Present(Some(today + 3)), today) == NoLoad
    ensures DetermineWindowToLoad(Present(Some(today - 1)), today) == Window(Some(today), Some(today), false)
    ensures DetermineWindowToLoad(Present(Some(today - 5)), today) == Window(Some(today - 4), Some(today), false)
  {
  }

  /** The start of a full load is the day ordinal Python gives 2024-01-01. */
  lemma FullLoadStartIs2024()
    ensures FullLoadStartDate == 738886
    ensures Calendar.FromOrdinal(FullLoadStartDate) == Calendar.Date(2024, 1, 1)
  {
    assert Calendar.DaysBeforeYear(2024) == 2023 * 365 + 505 - 20 + 5;
    Calendar.FromToOrdinal(Calendar.Date(2024, 1, 1));
  }
}
