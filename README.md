# Verified model of the FX-rate pipeline core

The pipeline fetches euro reference rates from the ECB, derives every cross
rate between the configured currencies, and loads them into a SQLite star
schema. This project models the three parts of it that contain real logic,
and proves properties of each:

- **The cross-rate calculator** (`calculate_cross_pairs`), in
  `cross_rates.dfy`. `CrossRates.CalculateCrossPairs` follows the source
  step by step:
  - it gathers the union of dates with a loop over the series;
  - it walks the dates in sorted order and builds a snapshot of each date's
    EUR rates with a loop;
  - nested loops over `currencies` × `currencies` apply the three-case
    `if`/`elif` chain and append observations.

  The method is proved equal to the specification function
  `CrossRates.CrossPairs`. The lemmas then prove, for every input, what
  `CrossPairs` promises: which pairs appear, with which rate, in which order,
  and how many.
- **The load-window resolver** (`determine_window_to_load`), in
  `load_window.dfy`. It is a pure decision over what the fact table holds
  and today's date. The outcomes are a full load from 2024-01-01, no load,
  or an incremental load of the missing days.
- **The date-dimension builder** (the `while current <= end` loop of
  `populate_date_dimension`), in `date_dimension.dfy`. It is a loop that
  appends one `(date, year, month, day)` row per calendar day.
  - `calendar.dfy` supplies Python's proleptic Gregorian calendar, with day
    ordinal 1 = 0001-01-01 and the last day 9999-12-31.
  - Stepping past 9999-12-31 raises `OverflowError` in Python. The model
    returns that as an error result.

Dates are day ordinals throughout, so a `'YYYY-MM-DD'` string becomes the
ordinal it names. Rates are exact reals. `options.dfy` holds the
`None`/value type used for absent dates and rates.

## Model

| member | source | states |
|---|---|---|
| CrossRates.CalculateCrossPairs | src/etl/transform.py:3-58 | for every input without a zero rate, the list returned is exactly `CrossPairs`: the observations of every input date in ascending order, each date's in nested base/quote loop order |
| CrossRates.CollectDates | src/etl/transform.py:10-12 | the set grown by `update` over every series is the union of all the series' dates |
| CrossRates.BuildSnapshot | src/etl/transform.py:17-22 | the per-date dict holds exactly the currencies that have a rate on that date, each with that rate |
| CrossRates.DeriveRate | src/etl/transform.py:30-46 | the `if`/`elif` chain yields the rate `PairRate` specifies for a distinct pair, or none |
| CrossRates.PairsOnDate | src/etl/transform.py:25-55 | the nested loops append, for one date, exactly the date's rows: bases in order, and for each base the derivable quotes in order |
| CrossRates.CrossPairs | src/etl/transform.py:3-58 | what `calculate_cross_pairs` returns: the rows of each date of the union in sorted order, each date's rows in nested loop order; dates never decrease along the output, so each date's observations form one contiguous group |
| CrossRates.AllDates | src/etl/transform.py:10-12 | every date of every series is in `all_dates`, and every date in it comes from some series |
| CrossRates.Snapshot | src/etl/transform.py:17-22 | a currency is in the snapshot iff its series has the date, and it maps to that day's rate |
| CrossRates.PairRate | src/etl/transform.py:27-46 | a rate is derived iff base and quote differ and a direct, inverse or triangulated case applies; the rate is always EUR/quote over EUR/base, with EUR/EUR = 1 |
| CrossRates.SortedDates | src/etl/transform.py:14 | `sorted(all_dates)` lists every date of the set exactly once, in strictly ascending order |
| CrossRates.CrossPairsMembers | src/etl/transform.py:10-55 | an observation is emitted iff its date is an input date, both currencies are configured, its source is ECB, and its rate is the one the three cases derive from that date's snapshot |
| CrossRates.PairEmittedIff | src/etl/transform.py:17-48 | for an input date and configured b, q: some (date, b, q) observation is emitted iff b != q and (b is EUR and q has a rate, or q is EUR and b has a rate, or both have a rate) |
| CrossRates.EmittedKeys | src/etl/transform.py:10-14 | every emitted date is in the union of the series' dates, both currencies are configured, base != quote, and the source is 'ECB' |
| CrossRates.EmittedRate | src/etl/transform.py:33-46 | an emitted rate is s[X] for EUR/X, 1/s[X] for X/EUR, and s[Y]/s[X] for X/Y |
| CrossRates.DerivableIffQuoted | src/etl/transform.py:33-46 | the three cases together mean: two distinct currencies, each either EUR or present in the snapshot |
| CrossRates.EmittedRatio | src/etl/transform.py:33-46 | every emitted rate is EUR/quote over EUR/base for that date, and the divisor is nonzero |
| CrossRates.InverseRates | src/etl/transform.py:36-39 | rate(A, B) * rate(B, A) == 1 for two observations of one date |
| CrossRates.TriangulatedRates | src/etl/transform.py:41-46 | rate(A, B) * rate(B, C) == rate(A, C) for observations of one date |
| CrossRates.ReversePairEmitted | src/etl/transform.py:25-46 | whenever A/B is emitted for a date, B/A is emitted for it too |
| CrossRates.ChainedPairEmitted | src/etl/transform.py:25-46 | whenever A/B and B/C are emitted for a date and A != C, A/C is emitted for it too |
| CrossRates.PositiveRates | src/etl/transform.py:33-46 | with all input rates positive, every emitted rate is positive |
| CrossRates.CrossPairsInLoopOrder | src/etl/transform.py:14-26 | with no repeated currency code, each observation precedes the next: earlier date, or same date and earlier base, or same base and earlier quote |
| CrossRates.UniqueKeys | src/etl/transform.py:14-28 | with no repeated currency code, no two observations share a (date, base, quote) key |
| CrossRates.ObservationsPerDate | src/etl/transform.py:25-28 | a date yields at most n * (n - 1) observations for n configured currencies, and none for a date no series has |
| CrossRates.CrossPairsLength | src/etl/transform.py:14-28 | the output holds at most n * (n - 1) observations per input date |
| CrossRates.NokSekExample | src/etl/transform.py:37-44 | EUR/NOK 11.5 and EUR/SEK 12.0 on one date, with currencies EUR, NOK and SEK, give exactly six observations in loop order: 11.5, 12.0, 1/11.5, 12.0/11.5, 1/12.0 and 11.5/12.0 |
| LoadWindow.DetermineWindowToLoad | src/etl/load.py:6-56 | full load iff no prior data, from 2024-01-01 to today; no-load sentinel iff latest >= today; otherwise start == latest + 1 and latest < start <= end == today; start is absent iff end is |
| LoadWindow.IncrementalWindowIsTheGap | src/etl/load.py:40-56 | with a latest loaded date, the window requests a date iff latest < date <= today: nothing reloaded, no gap left |
| LoadWindow.FullLoadCoversHistory | src/etl/load.py:19-33 | with no prior data, the window requests exactly the dates from 2024-01-01 to today |
| LoadWindow.OneDayBehind | src/etl/load.py:45-56 | one day behind, the window is (today, today, false), the same as the general (latest + 1, today, false) |
| LoadWindow.SecondRunIsNoOp | src/etl/load.py:40-42 | once the fact table's latest date is today (the end of the window just resolved), a second run on the same day loads nothing |
| LoadWindow.WindowWithinCalendar | src/etl/load.py:53 | when today and the latest date are days Python can hold, so is every date of the window; `latest + timedelta(days=1)` cannot overflow |
| LoadWindow.BoundaryScenarios | src/etl/load.py:19-56 | table missing and MAX(date) NULL give the full load; latest == today and a future latest give no load; 1 day behind gives [today, today]; 5 days behind gives [today - 4, today] |
| LoadWindow.FullLoadStartIs2024 | src/etl/load.py:4 | the full-load start is the day ordinal 738886, which decomposes to 2024-01-01 |
| DateDimension.BuildDateRows | setup_database.py:64-75 | on success: end - start + 1 rows when start <= end and none otherwise; the first date is start and the last is end; consecutive dates differ by one day; each date lies in [start, end] with its Gregorian year, month and day. It fails with OverflowError iff start <= end == 9999-12-31 |
| DateDimension.RowFor | setup_database.py:69-74 | a row's year, month and day are the Gregorian decomposition of its date, with month in 1..12 and day within that month's length |
| DateDimension.ConsecutiveRows | setup_database.py:68-75 | one day later advances the day, or rolls over to the 1st of the next month, or to January 1st of the next year |
| Calendar.ToOrdinal | setup_database.py:64-68 | Python's `date.toordinal()`, the order `current <= end` compares by: a valid date's ordinal lies after every day of the earlier years and within its own year |
| Calendar.FromOrdinal | setup_database.py:69-73 | the (year, month, day) of a day ordinal is a valid date whose ordinal is that ordinal |
| Calendar.FromToOrdinal | setup_database.py:64-75 | decomposing a valid date's ordinal gives back the date |
| Calendar.ToOrdinalInjective | setup_database.py:64-75 | distinct valid dates have distinct ordinals |
| Calendar.NextDay | setup_database.py:75 | `+ timedelta(days=1)` advances the day, or rolls over the month or the year |
| Calendar.InRangeYears | setup_database.py:64-65 | every ordinal up to 9999-12-31 decomposes to a year in 1..9999 |

## Left out

- Reading SQLite is left out. `determine_window_to_load` receives what its queries would find: no table, or a table whose `MAX(date)` is absent or a date. `datetime.now()` becomes the `today` parameter.
- The malformed `MAX(date)` text that would make `strptime` raise is not modelled. An empty string counts as absent, as the source's truthiness test makes it.
- Writing to SQLite is left out: `load_to_database`, the table DDL of `setup_database`, and the `INSERT OR IGNORE` of the date rows. This code is I/O, and the storage engine's upsert rules are not visible code.
- The ECB extractor (HTTP and SDMX-JSON parsing) is not part of this model. Its output is the calculator's input map. An empty series is accepted input. A series keyed "EUR" is accepted too, as long as its rates are non-zero like every other series: the elif chain never uses a snapshot entry for EUR in an emitted pair.
- What the load writes is left out, so the model does not promise that a run brings `MAX(date)` up to today. The calculator only emits dates that the series contain. When the ECB has published no rate dated today (a weekend, a TARGET holiday, or before the afternoon release), the run leaves `MAX(date)` behind today, and the next run on the same day asks for the gap `latest + 1 .. today` again. `SecondRunIsNoOp` covers only the case where the latest date has reached today.
- `main.py` orchestration and the reporting queries are not part of this model.
- Dates are day ordinals, not `'YYYY-MM-DD'` strings. `strptime`/`strftime` formatting and all printed messages are left out.
- Rates are exact reals, not IEEE doubles. The inverse and triangulation identities hold exactly only over the reals.
- CrossRates.CalculateCrossPairs: requires that every rate of every series is non-zero, including series the loops never divide by: a currency that is not configured, an "EUR"-keyed series, or a currency whose inverse and cross pairs are not reached that day. The source raises `ZeroDivisionError` only when it actually divides by a zero rate in the inverse or triangulated case; that crash is not modelled. ECB rates are positive. `PositiveRates` takes positivity as its hypothesis.
- Calendar.FromOrdinal: computed by counting whole years and months forward instead of Python's 400/100/4-year closed form. The contract pins the result down uniquely (`ToOrdinalInjective`), so the two give the same date.
