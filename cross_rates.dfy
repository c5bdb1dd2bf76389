/**
 * The cross-rate calculator of src/etl/transform.py (`calculate_cross_pairs`).
 *
 * Input: for each currency its series of EUR-quoted rates (date -> how many
 * units of the currency one euro buys), and the ordered list of configured
 * currency codes, which may contain "EUR".  Output: for every date that any
 * series has, in ascending order, one observation per ordered pair of
 * configured currencies whose rate can be derived from that date's rates.
 *
 * `CalculateCrossPairs` is the step-by-step algorithm; `CrossPairs` is the
 * specification it is proved equal to, and the lemmas state what
 * `CrossPairs` promises.  Rates are exact reals; dates are day ordinals.
 */
module CrossRates {
  import opened Options

  type Currency = string

  /** Currency -> (date -> EUR/currency rate), as the extractor returns it. */
  type EurRates = map<Currency, map<int, real>>

  /** The quoting currency of every input rate. */
  const Eur: Currency := "EUR"

  /** The provider tag every observation carries. */
  const Source: string := "ECB"

  /** "1 unit of baseCurrency = rate units of quoteCurrency" on `date`. */
  datatype Observation = Observation(date: int, baseCurrency: Currency, quoteCurrency: Currency, rate: real, source: string)

  // ---------------------------------------------------------------------
  // Inputs
  // ---------------------------------------------------------------------

  /** No rate is zero, so every division the calculator makes is defined. */
  predicate NoZeroRate(eurRates: EurRates) {
    forall c, d :: c in eurRates && d in eurRates[c] ==> eurRates[c][d] != 0.0
  }

  predicate AllPositive(eurRates: EurRates) {
    forall c, d :: c in eurRates && d in eurRates[c] ==> eurRates[c][d] > 0.0
  }

  predicate NoDuplicates(currencies: seq<Currency>) {
    forall i, j :: 0 <= i < j < |currencies| ==> currencies[i] != currencies[j]
  }

  /** Every date on which some currency has a rate. */
  function AllDates(eurRates: EurRates): (r: set<int>)
    ensures forall c, d :: c in eurRates && d in eurRates[c] ==> d in r
    ensures forall d :: d in r ==> exists c :: c in eurRates && d in eurRates[c]
  {
    set c, d | c in eurRates && d in eurRates[c] :: d
  }

  /** The EUR-quoted rates of one date: only the currencies that have a rate that day. */
  function Snapshot(eurRates: EurRates, date: int): (snap: map<Currency, real>)
    ensures forall c :: c in snap <==> c in eurRates && date in eurRates[c]
    ensures forall c :: c in snap ==> snap[c] == eurRates[c][date]
  {
    map c | c in eurRates && date in eurRates[c] :: eurRates[c][date]
  }

  predicate NonZeroSnapshot(snap: map<Currency, real>) {
    forall c :: c in snap ==> snap[c] != 0.0
  }

  lemma SnapshotNonZero(eurRates: EurRates, date: int)
    requires NoZeroRate(eurRates)
    ensures NonZeroSnapshot(Snapshot(eurRates, date))
  {
  }

  // ---------------------------------------------------------------------
  // One pair on one date
  // ---------------------------------------------------------------------

  /** How many units of `c` one euro buys on the snapshot's date (one, for the euro itself). */
  function EurValue(snap: map<Currency, real>, c: Currency): real
    requires c == Eur || c in snap
  {
    if c == Eur then 1.0 else snap[c]
  }

  /** One of the three derivation cases applies to the distinct pair `(b, q)`. */
  predicate Derivable(snap: map<Currency, real>, b: Currency, q: Currency) {
    b != q &&
    ((b == Eur && q in snap) || (q == Eur && b in snap) || (b in snap && q in snap))
  }

  /**
   * The rate of `b` in `q` that the elif chain derives, if any: direct EUR/q,
   * inverse b/EUR, or triangulated through the euro.
   */
  function PairRate(snap: map<Currency, real>, b: Currency, q: Currency): (r: Option<real>)
    requires NonZeroSnapshot(snap)
    ensures r.Some? <==> Derivable(snap, b, q)
    ensures r.Some? ==> r.value == EurValue(snap, q) / EurValue(snap, b)
  {
    if b == q then None
    else if b == Eur && q in snap then Some(snap[q])
    else if q == Eur && b in snap then Some(1.0 / snap[b])
    else if b in snap && q in snap then Some(snap[q] / snap[b])
    else None
  }

  // ---------------------------------------------------------------------
  // The specification of the whole output
  // ---------------------------------------------------------------------

  /** The observations for base `b` and the quotes `quotes`, in order. */
  function QuoteRows(snap: map<Currency, real>, date: int, b: Currency, quotes: seq<Currency>): seq<Observation>
    requires NonZeroSnapshot(snap)
  {
    if quotes == [] then []
    else QuoteRows(snap, date, b, quotes[..|quotes| - 1]) + PairRow(snap, date, b, quotes[|quotes| - 1])
  }

  /** The observation for the pair `(b, q)`, if its rate can be derived. */
  function PairRow(snap: map<Currency, real>, date: int, b: Currency, q: Currency): seq<Observation>
    requires NonZeroSnapshot(snap)
  {
    match PairRate(snap, b, q)
    case Some(r) => [Observation(date, b, q, r, Source)]
    case None => []
  }

  /** The observations of one date: bases in order, and for each the quotes in order. */
  function DayRows(snap: map<Currency, real>, date: int, bases: seq<Currency>, currencies: seq<Currency>): seq<Observation>
    requires NonZeroSnapshot(snap)
  {
    if bases == [] then []
    else
      DayRows(snap, date, bases[..|bases| - 1], currencies) +
      QuoteRows(snap, date, bases[|bases| - 1], currencies)
  }

  /** The observations of the dates `dates`, date by date. */
  function RatesFor(eurRates: EurRates, currencies: seq<Currency>, dates: seq<int>): seq<Observation>
    requires NoZeroRate(eurRates)
  {
    if dates == [] then []
    else
      RatesFor(eurRates, currencies, dates[..|dates| - 1]) + RatesOn(eurRates, currencies, dates[|dates| - 1])
  }

  /** The observations of one date. */
  function RatesOn(eurRates: EurRates, currencies: seq<Currency>, date: int): seq<Observation>
    requires NoZeroRate(eurRates)
  {
    SnapshotNonZero(eurRates, date);
    DayRows(Snapshot(eurRates, date), date, currencies, currencies)
  }

  /** What `calculate_cross_pairs` returns: the rows of every input date, the dates ascending. */
  function CrossPairs(eurRates: EurRates, currencies: seq<Currency>): (r: seq<Observation>)
    requires NoZeroRate(eurRates)
    ensures DatesAscending(r)
  {
    RatesForDatesAscending(eurRates, currencies, SortedDates(AllDates(eurRates)));
    RatesFor(eurRates, currencies, SortedDates(AllDates(eurRates)))
  }

  // ---------------------------------------------------------------------
  // sorted(all_dates)
  // ---------------------------------------------------------------------

  predicate StrictlyAscending(s: seq<int>) {
    forall i, j :: 0 <= i < j < |s| ==> s[i] < s[j]
  }

  lemma {:induction false} MinimumExists(s: set<int>)
    requires s != {}
    ensures exists m :: m in s && forall x :: x in s ==> m <= x
    decreases |s|
  {
    assert exists y :: y in s by {
      if forall y :: y !in s { assert false; }
    }
    var y :| y in s;
    var t := s - {y};
    if t != {} {
      MinimumExists(t);
      var m :| m in t && forall x :: x in t ==> m <= x;
      var least := if y < m then y else m;
      forall x | x in s ensures least <= x {
        if x != y { assert x in t; }
      }
    } else {
      forall x | x in s ensures y <= x {
        assert x !in t;
      }
    }
  }

  /** The earliest date of a non-empty set. */
  function Minimum(s: set<int>): (m: int)
    requires s != {}
    ensures m in s && forall x :: x in s ==> m <= x
  {
    MinimumExists(s);
    var m :| m in s && forall x :: x in s ==> m <= x;
    m
  }

  /** Python's `sorted` on a set of dates: every date once, in ascending order. */
  function SortedDates(s: set<int>): (r: seq<int>)
    ensures StrictlyAscending(r)
    ensures forall x :: x in r <==> x in s
    ensures |r| == |s|
    decreases |s|
  {
    if s == {} then []
    else
      var m := Minimum(s);
      var rest := SortedDates(s - {m});
      assert forall i :: 0 <= i < |rest| ==> m < rest[i] by {
        forall i | 0 <= i < |rest| ensures m < rest[i] { assert rest[i] in s - {m}; }
      }
      [m] + rest
  }

  // ---------------------------------------------------------------------
  // The algorithm
  // ---------------------------------------------------------------------

  /** The loop that gathers `all_dates` from every series. */
  method CollectDates(eurRates: EurRates) returns (allDates: set<int>)
    ensures allDates == AllDates(eurRates)
  {
    allDates := {};
    var remaining := eurRates.Keys;
    while remaining != {}
      invariant remaining <= eurRates.Keys
      invariant forall d :: d in allDates <==> exists c :: c in eurRates && c !in remaining && d in eurRates[c]
      decreases remaining
    {
      var c :| c in remaining;
      allDates := allDates + eurRates[c].Keys;
      remaining := remaining - {c};
    }
    forall d ensures d in allDates <==> d in AllDates(eurRates) {
      if d in AllDates(eurRates) {
        var c :| c in eurRates && d in eurRates[c];
      }
    }
  }

  /** The loop that builds `eur_base_rates` for one date. */
  method BuildSnapshot(eurRates: EurRates, date: int) returns (eurBaseRates: map<Currency, real>)
    ensures eurBaseRates == Snapshot(eurRates, date)
  {
    eurBaseRates := map[];
    var remaining := eurRates.Keys;
    while remaining != {}
      invariant remaining <= eurRates.Keys
      invariant forall c :: c in eurBaseRates <==> c in eurRates && c !in remaining && date in eurRates[c]
      invariant forall c :: c in eurBaseRates ==> eurBaseRates[c] == eurRates[c][date]
      decreases remaining
    {
      var currency :| currency in remaining;
      var rates := eurRates[currency];
      if date in rates {
        eurBaseRates := eurBaseRates[currency := rates[date]];
      }
      remaining := remaining - {currency};
    }
  }

  /** The `if` / `elif` chain that derives the rate of one distinct pair from `eur_base_rates`. */
  method DeriveRate(eurBaseRates: map<Currency, real>, baseCurr: Currency, quoteCurr: Currency) returns (rate: Option<real>)
    requires NonZeroSnapshot(eurBaseRates) && baseCurr != quoteCurr
    ensures rate == PairRate(eurBaseRates, baseCurr, quoteCurr)
  {
    rate := None;
    if baseCurr == Eur && quoteCurr in eurBaseRates {
      rate := Some(eurBaseRates[quoteCurr]);
    } else if quoteCurr == Eur && baseCurr in eurBaseRates {
      rate := Some(1.0 / eurBaseRates[baseCurr]);
    } else if baseCurr in eurBaseRates && quoteCurr in eurBaseRates {
      rate := Some(eurBaseRates[quoteCurr] / eurBaseRates[baseCurr]);
    }
  }

  /** The nested `for base_curr` / `for quote_curr` loops for one date and its `eur_base_rates`. */
  method PairsOnDate(eurBaseRates: map<Currency, real>, date: int, currencies: seq<Currency>) returns (rows: seq<Observation>)
    requires NonZeroSnapshot(eurBaseRates)
    ensures rows == DayRows(eurBaseRates, date, currencies, currencies)
  {
    rows := [];
    for b := 0 to |currencies|
      invariant rows == DayRows(eurBaseRates, date, currencies[..b], currencies)
    {
      var baseCurr := currencies[b];
      ghost var beforeBase := rows;
      for q := 0 to |currencies|
        invariant rows == beforeBase + QuoteRows(eurBaseRates, date, baseCurr, currencies[..q])
      {
        var quoteCurr := currencies[q];
        QuoteRowsStep(eurBaseRates, date, baseCurr, currencies, q);
        if baseCurr == quoteCurr {
          continue;
        }
        var rate := DeriveRate(eurBaseRates, baseCurr, quoteCurr);
        ghost var quoteRows := QuoteRows(eurBaseRates, date, baseCurr, currencies[..q]);
        if rate.Some? {
          var o := Observation(date, baseCurr, quoteCurr, rate.value, Source);
          assert PairRow(eurBaseRates, date, baseCurr, quoteCurr) == [o];
          assert beforeBase + quoteRows + [o] == beforeBase + (quoteRows + [o]);
          rows := rows + [o];
        } else {
          assert PairRow(eurBaseRates, date, baseCurr, quoteCurr) == [];
          assert quoteRows + [] == quoteRows;
        }
      }
      assert currencies[..|currencies|] == currencies;
      DayRowsStep(eurBaseRates, date, currencies, currencies, b);
    }
    assert currencies[..|currencies|] == currencies;
  }

  lemma QuoteRowsStep(snap: map<Currency, real>, date: int, b: Currency, quotes: seq<Currency>, k: nat)
    requires NonZeroSnapshot(snap) && k < |quotes|
    ensures QuoteRows(snap, date, b, quotes[..k + 1]) == QuoteRows(snap, date, b, quotes[..k]) + PairRow(snap, date, b, quotes[k])
  {
    assert quotes[..k + 1][..k] == quotes[..k];
  }

  lemma DayRowsStep(snap: map<Currency, real>, date: int, bases: seq<Currency>, currencies: seq<Currency>, k: nat)
    requires NonZeroSnapshot(snap) && k < |bases|
    ensures DayRows(snap, date, bases[..k + 1], currencies) == DayRows(snap, date, bases[..k], currencies) + QuoteRows(snap, date, bases[k], currencies)
  {
    assert bases[..k + 1][..k] == bases[..k];
  }

  lemma RatesForStep(eurRates: EurRates, currencies: seq<Currency>, dates: seq<int>, k: nat)
    requires NoZeroRate(eurRates) && k < |dates|
    ensures RatesFor(eurRates, currencies, dates[..k + 1]) == RatesFor(eurRates, currencies, dates[..k]) + RatesOn(eurRates, currencies, dates[k])
  {
    assert dates[..k + 1][..k] == dates[..k];
  }

  /** `calculate_cross_pairs`. */
  method CalculateCrossPairs(eurRates: EurRates, currencies: seq<Currency>) returns (crossRates: seq<Observation>)
    requires NoZeroRate(eurRates)
    ensures crossRates == CrossPairs(eurRates, currencies)
  {
    crossRates := [];
    var allDates := CollectDates(eurRates);
    var dates := SortedDates(allDates);
    for i := 0 to |dates|
      invariant crossRates == RatesFor(eurRates, currencies, dates[..i])
    {
      var date := dates[i];
      var eurBaseRates := BuildSnapshot(eurRates, date);
      SnapshotNonZero(eurRates, date);
      var dayRates := PairsOnDate(eurBaseRates, date, currencies);
      RatesForStep(eurRates, currencies, dates, i);
      crossRates := crossRates + dayRates;
    }
    assert dates[..|dates|] == dates;
  }

  // ---------------------------------------------------------------------
  // Which observations are emitted
  // ---------------------------------------------------------------------

  lemma {:induction false} QuoteRowsMembers(snap: map<Currency, real>, date: int, b: Currency, quotes: seq<Currency>, o: Observation)
    requires NonZeroSnapshot(snap)
    ensures o in QuoteRows(snap, date, b, quotes) <==>
      o.date == date && o.baseCurrency == b && o.quoteCurrency in quotes && o.source == Source &&
      PairRate(snap, b, o.quoteCurrency) == Some(o.rate)
    decreases |quotes|
  {
    if quotes != [] {
      var init := quotes[..|quotes| - 1];
      QuoteRowsMembers(snap, date, b, init, o);
      assert quotes == init + [quotes[|quotes| - 1]];
    }
  }

  lemma {:induction false} DayRowsMembers(snap: map<Currency, real>, date: int, bases: seq<Currency>, currencies: seq<Currency>, o: Observation)
    requires NonZeroSnapshot(snap)
    ensures o in DayRows(snap, date, bases, currencies) <==>
      o.date == date && o.baseCurrency in bases && o.quoteCurrency in currencies && o.source == Source &&
      PairRate(snap, o.baseCurrency, o.quoteCurrency) == Some(o.rate)
    decreases |bases|
  {
    if bases != [] {
      var init := bases[..|bases| - 1];
      DayRowsMembers(snap, date, init, currencies, o);
      QuoteRowsMembers(snap, date, bases[|bases| - 1], currencies, o);
      assert bases == init + [bases[|bases| - 1]];
    }
  }

  lemma {:induction false} RatesForMembers(eurRates: EurRates, currencies: seq<Currency>, dates: seq<int>, o: Observation)
    requires NoZeroRate(eurRates)
    ensures o in RatesFor(eurRates, currencies, dates) <==>
      o.date in dates && o.baseCurrency in currencies && o.quoteCurrency in currencies && o.source == Source &&
      PairRate(Snapshot(eurRates, o.date), o.baseCurrency, o.quoteCurrency) == Some(o.rate)
    decreases |dates|
  {
    if dates != [] {
      var init := dates[..|dates| - 1];
      var date := dates[|dates| - 1];
      RatesForMembers(eurRates, currencies, init, o);
      SnapshotNonZero(eurRates, date);
      DayRowsMembers(Snapshot(eurRates, date), date, currencies, currencies, o);
      assert dates == init + [date];
      assert o.date in dates <==> o.date in init || o.date == date;
      var before, today := RatesFor(eurRates, currencies, init), RatesOn(eurRates, currencies, date);
      assert RatesFor(eurRates, currencies, dates) == before + today;
      assert o in before + today <==> o in before || o in today;
    }
  }

  /**
   * An observation is emitted exactly when its date is one of the input dates,
   * both currencies are configured, its source is ECB, and its rate is the one
   * the three cases derive from that date's snapshot.
   */
  lemma CrossPairsMembers(eurRates: EurRates, currencies: seq<Currency>, o: Observation)
    requires NoZeroRate(eurRates)
    ensures o in CrossPairs(eurRates, currencies) <==>
      o.date in AllDates(eurRates) && o.baseCurrency in currencies && o.quoteCurrency in currencies &&
      o.source == Source && PairRate(Snapshot(eurRates, o.date), o.baseCurrency, o.quoteCurrency) == Some(o.rate)
  {
    RatesForMembers(eurRates, currencies, SortedDates(AllDates(eurRates)), o);
  }

  /**
   * For an input date and two configured currencies, the pair is emitted iff
   * the currencies differ and EUR/quote is known, or base/EUR is, or both
   * currencies have a rate that day.
   */
  lemma PairEmittedIff(eurRates: EurRates, currencies: seq<Currency>, date: int, b: Currency, q: Currency)
    requires NoZeroRate(eurRates)
    requires date in AllDates(eurRates) && b in currencies && q in currencies
    ensures (exists o :: o in CrossPairs(eurRates, currencies) && o.date == date && o.baseCurrency == b && o.quoteCurrency == q)
        <==> (b != q && ((b == Eur && q in Snapshot(eurRates, date)) || (q == Eur && b in Snapshot(eurRates, date)) ||
                        (b in Snapshot(eurRates, date) && q in Snapshot(eurRates, date))))
  {
    var snap := Snapshot(eurRates, date);
    if Derivable(snap, b, q) {
      var o := Observation(date, b, q, PairRate(snap, b, q).value, Source);
      CrossPairsMembers(eurRates, currencies, o);
    }
    forall o | o in CrossPairs(eurRates, currencies) && o.date == date && o.baseCurrency == b && o.quoteCurrency == q
      ensures Derivable(snap, b, q)
    {
      CrossPairsMembers(eurRates, currencies, o);
    }
  }

  /** Nothing is emitted for a date no series has, nor for an unconfigured currency, nor for base == quote. */
  lemma EmittedKeys(eurRates: EurRates, currencies: seq<Currency>, o: Observation)
    requires NoZeroRate(eurRates)
    requires o in CrossPairs(eurRates, currencies)
    ensures o.date in AllDates(eurRates)
    ensures o.baseCurrency in currencies && o.quoteCurrency in currencies
    ensures o.baseCurrency != o.quoteCurrency
    ensures o.source == "ECB"
  {
    CrossPairsMembers(eurRates, currencies, o);
  }

  // ---------------------------------------------------------------------
  // The emitted rates
  // ---------------------------------------------------------------------

  /** The three derivation cases: direct, inverse, triangulated. */
  lemma EmittedRate(eurRates: EurRates, currencies: seq<Currency>, o: Observation)
    requires NoZeroRate(eurRates)
    requires o in CrossPairs(eurRates, currencies)
    ensures var snap, b, q := Snapshot(eurRates, o.date), o.baseCurrency, o.quoteCurrency;
      && (b == Eur ==> q in snap && o.rate == snap[q])
      && (q == Eur ==> b in snap && o.rate == 1.0 / snap[b])
      && (b != Eur && q != Eur ==> b in snap && q in snap && o.rate == snap[q] / snap[b])
  {
    CrossPairsMembers(eurRates, currencies, o);
  }

  /** A currency whose EUR rate is known on the snapshot's date: the euro itself, or one in the snapshot. */
  predicate Quoted(snap: map<Currency, real>, c: Currency) {
    c == Eur || c in snap
  }

  /** The three cases amount to: two distinct currencies, each with a known EUR rate. */
  lemma DerivableIffQuoted(snap: map<Currency, real>, b: Currency, q: Currency)
    ensures Derivable(snap, b, q) <==> b != q && Quoted(snap, b) && Quoted(snap, q)
  {
  }

  /** Every emitted rate is the quote currency's EUR rate over the base currency's. */
  lemma EmittedRatio(eurRates: EurRates, currencies: seq<Currency>, o: Observation)
    requires NoZeroRate(eurRates)
    requires o in CrossPairs(eurRates, currencies)
    ensures var snap := Snapshot(eurRates, o.date);
      && Quoted(snap, o.baseCurrency) && Quoted(snap, o.quoteCurrency)
      && EurValue(snap, o.baseCurrency) != 0.0
      && o.rate == EurValue(snap, o.quoteCurrency) / EurValue(snap, o.baseCurrency)
  {
    CrossPairsMembers(eurRates, currencies, o);
  }

  /** The rate of an emitted observation is the one `PairRate` derives from its date's snapshot. */
  lemma EmittedPairRate(eurRates: EurRates, currencies: seq<Currency>, o: Observation)
    requires NoZeroRate(eurRates)
    requires o in CrossPairs(eurRates, currencies)
    ensures NonZeroSnapshot(Snapshot(eurRates, o.date))
    ensures PairRate(Snapshot(eurRates, o.date), o.baseCurrency, o.quoteCurrency) == Some(o.rate)
  {
    CrossPairsMembers(eurRates, currencies, o);
  }

  /** Rates of one date are quoted against a common denominator, so rate(A,B) * rate(B,A) == 1. */
  lemma InverseRates(eurRates: EurRates, currencies: seq<Currency>, o1: Observation, o2: Observation)
    requires NoZeroRate(eurRates)
    requires o1 in CrossPairs(eurRates, currencies) && o2 in CrossPairs(eurRates, currencies)
    requires o1.date == o2.date && o1.baseCurrency == o2.quoteCurrency && o1.quoteCurrency == o2.baseCurrency
    ensures o1.rate * o2.rate == 1.0
  {
    EmittedPairRate(eurRates, currencies, o1);
    EmittedPairRate(eurRates, currencies, o2);
    InverseOnSnapshot(Snapshot(eurRates, o1.date), Snapshot(eurRates, o2.date), o1, o2);
  }

  lemma InverseOnSnapshot(s1: map<Currency, real>, s2: map<Currency, real>, o1: Observation, o2: Observation)
    requires s1 == s2 && NonZeroSnapshot(s1)
    requires o1.baseCurrency == o2.quoteCurrency && o1.quoteCurrency == o2.baseCurrency
    requires PairRate(s1, o1.baseCurrency, o1.quoteCurrency) == Some(o1.rate)
    requires PairRate(s2, o2.baseCurrency, o2.quoteCurrency) == Some(o2.rate)
    ensures o1.rate * o2.rate == 1.0
  {
    RatioInverse(o1.rate, o2.rate, EurValue(s1, o1.baseCurrency), EurValue(s1, o1.quoteCurrency));
  }

  lemma RatioInverse(r1: real, r2: real, a: real, b: real)
    requires a != 0.0 && b != 0.0
    requires r1 == b / a && r2 == a / b
    ensures r1 * r2 == 1.0
  {
  }

  /** rate(A,B) * rate(B,C) == rate(A,C) on one date. */
  lemma TriangulatedRates(eurRates: EurRates, currencies: seq<Currency>, o1: Observation, o2: Observation, o3: Observation)
    requires NoZeroRate(eurRates)
    requires o1 in CrossPairs(eurRates, currencies) && o2 in CrossPairs(eurRates, currencies) && o3 in CrossPairs(eurRates, currencies)
    requires o1.date == o2.date == o3.date
    requires o1.quoteCurrency == o2.baseCurrency && o1.baseCurrency == o3.baseCurrency && o2.quoteCurrency == o3.quoteCurrency
    ensures o1.rate * o2.rate == o3.rate
  {
    EmittedPairRate(eurRates, currencies, o1);
    EmittedPairRate(eurRates, currencies, o2);
    EmittedPairRate(eurRates, currencies, o3);
    TriangleOnSnapshot(Snapshot(eurRates, o1.date), Snapshot(eurRates, o2.date), Snapshot(eurRates, o3.date), o1, o2, o3);
  }

  lemma TriangleOnSnapshot(s1: map<Currency, real>, s2: map<Currency, real>, s3: map<Currency, real>, o1: Observation, o2: Observation, o3: Observation)
    requires s1 == s2 == s3 && NonZeroSnapshot(s1)
    requires o1.quoteCurrency == o2.baseCurrency && o1.baseCurrency == o3.baseCurrency && o2.quoteCurrency == o3.quoteCurrency
    requires PairRate(s1, o1.baseCurrency, o1.quoteCurrency) == Some(o1.rate)
    requires PairRate(s2, o2.baseCurrency, o2.quoteCurrency) == Some(o2.rate)
    requires PairRate(s3, o3.baseCurrency, o3.quoteCurrency) == Some(o3.rate)
    ensures o1.rate * o2.rate == o3.rate
  {
    RatioProduct(o1.rate, o2.rate, o3.rate, EurValue(s1, o1.baseCurrency), EurValue(s1, o1.quoteCurrency), EurValue(s1, o2.quoteCurrency));
  }

  lemma RatioProduct(r1: real, r2: real, r3: real, a: real, b: real, c: real)
    requires a != 0.0 && b != 0.0
    requires r1 == b / a && r2 == c / b && r3 == c / a
    ensures r1 * r2 == r3
  {
  }

  /** Whenever A/B is emitted, so is B/A. */
  lemma ReversePairEmitted(eurRates: EurRates, currencies: seq<Currency>, o: Observation)
    requires NoZeroRate(eurRates)
    requires o in CrossPairs(eurRates, currencies)
    ensures exists r :: (r in CrossPairs(eurRates, currencies) && r.date == o.date &&
                         r.baseCurrency == o.quoteCurrency && r.quoteCurrency == o.baseCurrency)
  {
    CrossPairsMembers(eurRates, currencies, o);
    var snap := Snapshot(eurRates, o.date);
    var r := Observation(o.date, o.quoteCurrency, o.baseCurrency, PairRate(snap, o.quoteCurrency, o.baseCurrency).value, Source);
    CrossPairsMembers(eurRates, currencies, r);
  }

  /** Whenever A/B and B/C are emitted for one date and A != C, so is A/C. */
  lemma ChainedPairEmitted(eurRates: EurRates, currencies: seq<Currency>, o1: Observation, o2: Observation)
    requires NoZeroRate(eurRates)
    requires o1 in CrossPairs(eurRates, currencies) && o2 in CrossPairs(eurRates, currencies)
    requires o1.date == o2.date && o1.quoteCurrency == o2.baseCurrency && o1.baseCurrency != o2.quoteCurrency
    ensures exists r :: (r in CrossPairs(eurRates, currencies) && r.date == o1.date &&
                         r.baseCurrency == o1.baseCurrency && r.quoteCurrency == o2.quoteCurrency)
  {
    CrossPairsMembers(eurRates, currencies, o1);
    CrossPairsMembers(eurRates, currencies, o2);
    var snap := Snapshot(eurRates, o1.date);
    var r := Observation(o1.date, o1.baseCurrency, o2.quoteCurrency, PairRate(snap, o1.baseCurrency, o2.quoteCurrency).value, Source);
    CrossPairsMembers(eurRates, currencies, r);
  }

  /** Positive EUR-quoted rates give positive cross rates. */
  lemma PositiveRates(eurRates: EurRates, currencies: seq<Currency>, o: Observation)
    requires NoZeroRate(eurRates) && AllPositive(eurRates)
    requires o in CrossPairs(eurRates, currencies)
    ensures o.rate > 0.0
  {
    EmittedRatio(eurRates, currencies, o);
    var snap := Snapshot(eurRates, o.date);
    RatioPositive(o.rate, EurValue(snap, o.baseCurrency), EurValue(snap, o.quoteCurrency));
  }

  lemma RatioPositive(r: real, a: real, b: real)
    requires a > 0.0 && b > 0.0 && r == b / a
    ensures r > 0.0
  {
  }

  // ---------------------------------------------------------------------
  // Output order
  // ---------------------------------------------------------------------

  /** The position of the first `x` in `s`; `|s|` when there is none. */
  function IndexOf(s: seq<Currency>, x: Currency): (k: nat)
    ensures k <= |s|
    ensures k < |s| <==> x in s
    ensures k < |s| ==> s[k] == x
    ensures forall i :: 0 <= i < k ==> s[i] != x
  {
    if s == [] then 0
    else if s[0] == x then 0
    else 1 + IndexOf(s[1..], x)
  }

  lemma IndexInPrefix(s: seq<Currency>, x: Currency, k: nat)
    requires k <= |s| && x in s[..k]
    ensures IndexOf(s, x) < k
  {
    var i :| 0 <= i < k && s[..k][i] == x;
    assert s[i] == x;
  }

  lemma IndexOfElement(s: seq<Currency>, j: nat)
    requires NoDuplicates(s) && j < |s|
    ensures IndexOf(s, s[j]) == j
  {
  }

  /**
   * `o1` comes before `o2` in the nested loops: an earlier date, or the same
   * date and an earlier base, or the same date and base and an earlier quote.
   */
  predicate Precedes(currencies: seq<Currency>, o1: Observation, o2: Observation) {
    var b1, b2 := IndexOf(currencies, o1.baseCurrency), IndexOf(currencies, o2.baseCurrency);
    o1.date < o2.date ||
    (o1.date == o2.date && (b1 < b2 || (b1 == b2 && IndexOf(currencies, o1.quoteCurrency) < IndexOf(currencies, o2.quoteCurrency))))
  }

  predicate InLoopOrder(currencies: seq<Currency>, s: seq<Observation>) {
    forall i, j :: 0 <= i < j < |s| ==> Precedes(currencies, s[i], s[j])
  }

  lemma InLoopOrderConcat(currencies: seq<Currency>, a: seq<Observation>, b: seq<Observation>)
    requires InLoopOrder(currencies, a) && InLoopOrder(currencies, b)
    requires forall x, y :: x in a && y in b ==> Precedes(currencies, x, y)
    ensures InLoopOrder(currencies, a + b)
  {
    forall i, j | 0 <= i < j < |a + b| ensures Precedes(currencies, (a + b)[i], (a + b)[j]) {
      if j < |a| {
        assert (a + b)[i] == a[i] && (a + b)[j] == a[j];
      } else if i >= |a| {
        assert (a + b)[i] == b[i - |a|] && (a + b)[j] == b[j - |a|];
      } else {
        assert (a + b)[i] in a && (a + b)[j] in b;
      }
    }
  }

  lemma {:induction false} QuoteRowsInOrder(snap: map<Currency, real>, date: int, b: Currency, currencies: seq<Currency>, k: nat)
    requires NonZeroSnapshot(snap) && NoDuplicates(currencies) && k <= |currencies|
    ensures InLoopOrder(currencies, QuoteRows(snap, date, b, currencies[..k]))
    decreases k
  {
    if k > 0 {
      var init := QuoteRows(snap, date, b, currencies[..k - 1]);
      var last := PairRow(snap, date, b, currencies[k - 1]);
      QuoteRowsStep(snap, date, b, currencies, k - 1);
      QuoteRowsInOrder(snap, date, b, currencies, k - 1);
      IndexOfElement(currencies, k - 1);
      forall x, y | x in init && y in last ensures Precedes(currencies, x, y) {
        QuoteRowsMembers(snap, date, b, currencies[..k - 1], x);
        IndexInPrefix(currencies, x.quoteCurrency, k - 1);
      }
      InLoopOrderConcat(currencies, init, last);
    }
  }

  lemma {:induction false} DayRowsInOrder(snap: map<Currency, real>, date: int, currencies: seq<Currency>, k: nat)
    requires NonZeroSnapshot(snap) && NoDuplicates(currencies) && k <= |currencies|
    ensures InLoopOrder(currencies, DayRows(snap, date, currencies[..k], currencies))
    decreases k
  {
    if k > 0 {
      var init := DayRows(snap, date, currencies[..k - 1], currencies);
      var last := QuoteRows(snap, date, currencies[k - 1], currencies);
      DayRowsStep(snap, date, currencies, currencies, k - 1);
      DayRowsInOrder(snap, date, currencies, k - 1);
      QuoteRowsInOrder(snap, date, currencies[k - 1], currencies, |currencies|);
      assert currencies[..|currencies|] == currencies;
      IndexOfElement(currencies, k - 1);
      forall x, y | x in init && y in last ensures Precedes(currencies, x, y) {
        DayRowsMembers(snap, date, currencies[..k - 1], currencies, x);
        QuoteRowsMembers(snap, date, currencies[k - 1], currencies, y);
        IndexInPrefix(currencies, x.baseCurrency, k - 1);
      }
      InLoopOrderConcat(currencies, init, last);
    }
  }

  lemma {:induction false} RatesForInOrder(eurRates: EurRates, currencies: seq<Currency>, dates: seq<int>)
    requires NoZeroRate(eurRates) && NoDuplicates(currencies) && StrictlyAscending(dates)
    ensures InLoopOrder(currencies, RatesFor(eurRates, currencies, dates))
    decreases |dates|
  {
    if dates != [] {
      var init := dates[..|dates| - 1];
      var date := dates[|dates| - 1];
      SnapshotNonZero(eurRates, date);
      RatesForInOrder(eurRates, currencies, init);
      DayRowsInOrder(Snapshot(eurRates, date), date, currencies, |currencies|);
      assert currencies[..|currencies|] == currencies;
      var day := DayRows(Snapshot(eurRates, date), date, currencies, currencies);
      forall x, y | x in RatesFor(eurRates, currencies, init) && y in day ensures x.date < y.date {
        RatesForMembers(eurRates, currencies, init, x);
        DayRowsMembers(Snapshot(eurRates, date), date, currencies, currencies, y);
      }
      InLoopOrderConcat(currencies, RatesFor(eurRates, currencies, init), day);
    }
  }

  /**
   * With no repeated currency code, the output runs date by date in ascending
   * order and, within a date, follows the nested base/quote loops.
   */
  lemma CrossPairsInLoopOrder(eurRates: EurRates, currencies: seq<Currency>)
    requires NoZeroRate(eurRates) && NoDuplicates(currencies)
    ensures InLoopOrder(currencies, CrossPairs(eurRates, currencies))
  {
    RatesForInOrder(eurRates, currencies, SortedDates(AllDates(eurRates)));
  }

  /** With no repeated currency code, no two observations share a (date, base, quote) key. */
  lemma UniqueKeys(eurRates: EurRates, currencies: seq<Currency>)
    requires NoZeroRate(eurRates) && NoDuplicates(currencies)
    ensures var out := CrossPairs(eurRates, currencies);
      forall i, j :: 0 <= i < j < |out| ==>
        (out[i].date, out[i].baseCurrency, out[i].quoteCurrency) != (out[j].date, out[j].baseCurrency, out[j].quoteCurrency)
  {
    CrossPairsInLoopOrder(eurRates, currencies);
  }

  /** Observations grouped by date, the dates ascending. */
  predicate DatesAscending(s: seq<Observation>) {
    forall i, j :: 0 <= i < j < |s| ==> s[i].date <= s[j].date
  }

  lemma DatesAscendingConcat(a: seq<Observation>, b: seq<Observation>)
    requires DatesAscending(a) && DatesAscending(b)
    requires forall x, y :: x in a && y in b ==> x.date <= y.date
    ensures DatesAscending(a + b)
  {
    forall i, j | 0 <= i < j < |a + b| ensures (a + b)[i].date <= (a + b)[j].date {
      if j < |a| {
        assert (a + b)[i] == a[i] && (a + b)[j] == a[j];
      } else if i >= |a| {
        assert (a + b)[i] == b[i - |a|] && (a + b)[j] == b[j - |a|];
      } else {
        assert (a + b)[i] in a && (a + b)[j] in b;
      }
    }
  }

  lemma {:induction false} RatesForDatesAscending(eurRates: EurRates, currencies: seq<Currency>, dates: seq<int>)
    requires NoZeroRate(eurRates) && StrictlyAscending(dates)
    ensures DatesAscending(RatesFor(eurRates, currencies, dates))
    decreases |dates|
  {
    if dates != [] {
      var init := dates[..|dates| - 1];
      var date := dates[|dates| - 1];
      SnapshotNonZero(eurRates, date);
      RatesForDatesAscending(eurRates, currencies, init);
      var a := RatesFor(eurRates, currencies, init);
      var day := RatesOn(eurRates, currencies, date);
      forall x | x in day ensures x.date == date {
        DayRowsMembers(Snapshot(eurRates, date), date, currencies, currencies, x);
      }
      forall x, y | x in a && y in day ensures x.date <= y.date {
        RatesForMembers(eurRates, currencies, init, x);
      }
      DatesAscendingConcat(a, day);
    }
  }

  // ---------------------------------------------------------------------
  // How many observations
  // ---------------------------------------------------------------------

  lemma {:induction false} QuoteRowsLength(snap: map<Currency, real>, date: int, b: Currency, quotes: seq<Currency>)
    requires NonZeroSnapshot(snap)
    ensures |QuoteRows(snap, date, b, quotes)| + (if b in quotes then 1 else 0) <= |quotes|
    decreases |quotes|
  {
    if quotes != [] {
      var init := quotes[..|quotes| - 1];
      QuoteRowsLength(snap, date, b, init);
      assert quotes == init + [quotes[|quotes| - 1]];
    }
  }

  lemma MultiplyStep(k: int, m: int)
    ensures (k + 1) * m == k * m + m
  {
  }

  lemma {:induction false} DayRowsLength(snap: map<Currency, real>, date: int, bases: seq<Currency>, currencies: seq<Currency>)
    requires NonZeroSnapshot(snap)
    requires forall x :: x in bases ==> x in currencies
    ensures |DayRows(snap, date, bases, currencies)| <= |bases| * (|currencies| - 1)
    decreases |bases|
  {
    if bases != [] {
      var init := bases[..|bases| - 1];
      assert bases == init + [bases[|bases| - 1]];
      DayRowsLength(snap, date, init, currencies);
      QuoteRowsLength(snap, date, bases[|bases| - 1], currencies);
      MultiplyStep(|init|, |currencies| - 1);
    }
  }

  /** The number of observations in `s` dated `date`. */
  function DateCount(s: seq<Observation>, date: int): nat {
    if s == [] then 0
    else DateCount(s[..|s| - 1], date) + (if s[|s| - 1].date == date then 1 else 0)
  }

  lemma {:induction false} DateCountConcat(a: seq<Observation>, b: seq<Observation>, date: int)
    ensures DateCount(a + b, date) == DateCount(a, date) + DateCount(b, date)
    decreases |b|
  {
    if b != [] {
      var init := b[..|b| - 1];
      assert a + b != [];
      assert (a + b)[..|a + b| - 1] == a + init;
      assert (a + b)[|a + b| - 1] == b[|b| - 1];
      DateCountConcat(a, init, date);
    } else {
      assert a + b == a;
    }
  }

  lemma {:induction false} DateCountOneDate(s: seq<Observation>, day: int, date: int)
    requires forall o :: o in s ==> o.date == day
    ensures DateCount(s, date) == if date == day then |s| else 0
    decreases |s|
  {
    if s != [] {
      assert s[|s| - 1] in s;
      DateCountOneDate(s[..|s| - 1], day, date);
    }
  }

  lemma {:induction false} RatesForDateCount(eurRates: EurRates, currencies: seq<Currency>, dates: seq<int>, date: int)
    requires NoZeroRate(eurRates) && StrictlyAscending(dates)
    ensures DateCount(RatesFor(eurRates, currencies, dates), date) ==
      if date in dates then |RatesOn(eurRates, currencies, date)| else 0
    decreases |dates|
  {
    if dates != [] {
      var init := dates[..|dates| - 1];
      var day := dates[|dates| - 1];
      SnapshotNonZero(eurRates, day);
      RatesForDateCount(eurRates, currencies, init, date);
      var rows := DayRows(Snapshot(eurRates, day), day, currencies, currencies);
      DateCountConcat(RatesFor(eurRates, currencies, init), rows, date);
      forall o | o in rows ensures o.date == day {
        DayRowsMembers(Snapshot(eurRates, day), day, currencies, currencies, o);
      }
      DateCountOneDate(rows, day, date);
      assert dates == init + [day];
      assert day in init ==> false;
    }
  }

  /** Each date yields at most n * (n - 1) observations for n configured currencies. */
  lemma ObservationsPerDate(eurRates: EurRates, currencies: seq<Currency>, date: int)
    requires NoZeroRate(eurRates)
    ensures DateCount(CrossPairs(eurRates, currencies), date) <= |currencies| * (|currencies| - 1)
    ensures date !in AllDates(eurRates) ==> DateCount(CrossPairs(eurRates, currencies), date) == 0
  {
    SnapshotNonZero(eurRates, date);
    RatesForDateCount(eurRates, currencies, SortedDates(AllDates(eurRates)), date);
    DayRowsLength(Snapshot(eurRates, date), date, currencies, currencies);
  }

  lemma {:induction false} RatesForLength(eurRates: EurRates, currencies: seq<Currency>, dates: seq<int>)
    requires NoZeroRate(eurRates)
    ensures |RatesFor(eurRates, currencies, dates)| <= |dates| * (|currencies| * (|currencies| - 1))
    decreases |dates|
  {
    if dates != [] {
      var init := dates[..|dates| - 1];
      var day := dates[|dates| - 1];
      SnapshotNonZero(eurRates, day);
      RatesForLength(eurRates, currencies, init);
      DayRowsLength(Snapshot(eurRates, day), day, currencies, currencies);
      MultiplyStep(|init|, |currencies| * (|currencies| - 1));
    }
  }

  /** The whole output holds at most n * (n - 1) observations per input date. */
  lemma CrossPairsLength(eurRates: EurRates, currencies: seq<Currency>)
    requires NoZeroRate(eurRates)
    ensures |CrossPairs(eurRates, currencies)| <= |AllDates(eurRates)| * (|currencies| * (|currencies| - 1))
  {
    RatesForLength(eurRates, currencies, SortedDates(AllDates(eurRates)));
  }

  // ---------------------------------------------------------------------
  // A worked example
  // ---------------------------------------------------------------------

  /** The example's snapshot: NOK at 11.5 and SEK at 12.0 per euro. */
  function ExampleSnapshot(): (snap: map<Currency, real>)
    ensures NonZeroSnapshot(snap)
  {
    map["NOK" := 11.5, "SEK" := 12.0]
  }

  lemma QuoteRowsOfThree(snap: map<Currency, real>, date: int, b: Currency, x: Currency, y: Currency, z: Currency)
    requires NonZeroSnapshot(snap)
    ensures QuoteRows(snap, date, b, [x, y, z]) == PairRow(snap, date, b, x) + PairRow(snap, date, b, y) + PairRow(snap, date, b, z)
  {
    assert [x, y, z][..2] == [x, y] && [x, y][..1] == [x] && [x][..0] == [];
    assert QuoteRows(snap, date, b, [x]) == PairRow(snap, date, b, x);
    assert QuoteRows(snap, date, b, [x, y]) == QuoteRows(snap, date, b, [x]) + PairRow(snap, date, b, y);
  }

  lemma DayRowsOfThree(snap: map<Currency, real>, date: int, x: Currency, y: Currency, z: Currency, currencies: seq<Currency>)
    requires NonZeroSnapshot(snap)
    ensures DayRows(snap, date, [x, y, z], currencies) ==
      QuoteRows(snap, date, x, currencies) + QuoteRows(snap, date, y, currencies) + QuoteRows(snap, date, z, currencies)
  {
    assert [x, y, z][..2] == [x, y] && [x, y][..1] == [x] && [x][..0] == [];
    assert DayRows(snap, date, [x], currencies) == QuoteRows(snap, date, x, currencies);
    assert DayRows(snap, date, [x, y], currencies) == DayRows(snap, date, [x], currencies) + QuoteRows(snap, date, y, currencies);
  }

  /** The example's rows for each base, each in quote order. */
  lemma NokSekQuotes(date: int)
    ensures var snap, cs := ExampleSnapshot(), ["EUR", "NOK", "SEK"];
      && QuoteRows(snap, date, "EUR", cs) == [Observation(date, "EUR", "NOK", 11.5, "ECB"), Observation(date, "EUR", "SEK", 12.0, "ECB")]
      && QuoteRows(snap, date, "NOK", cs) == [Observation(date, "NOK", "EUR", 1.0 / 11.5, "ECB"), Observation(date, "NOK", "SEK", 12.0 / 11.5, "ECB")]
      && QuoteRows(snap, date, "SEK", cs) == [Observation(date, "SEK", "EUR", 1.0 / 12.0, "ECB"), Observation(date, "SEK", "NOK", 11.5 / 12.0, "ECB")]
  {
    var snap := ExampleSnapshot();
    assert "EUR" != "NOK" && "EUR" != "SEK" && "NOK" != "SEK";
    assert "EUR" !in snap && "NOK" in snap && "SEK" in snap;
    QuoteRowsOfThree(snap, date, "EUR", "EUR", "NOK", "SEK");
    QuoteRowsOfThree(snap, date, "NOK", "EUR", "NOK", "SEK");
    QuoteRowsOfThree(snap, date, "SEK", "EUR", "NOK", "SEK");
  }

  /** The rows of the example date: the six pairs in loop order. */
  lemma NokSekDay(date: int)
    ensures DayRows(ExampleSnapshot(), date, ["EUR", "NOK", "SEK"], ["EUR", "NOK", "SEK"]) == [
        Observation(date, "EUR", "NOK", 11.5, "ECB"),
        Observation(date, "EUR", "SEK", 12.0, "ECB"),
        Observation(date, "NOK", "EUR", 1.0 / 11.5, "ECB"),
        Observation(date, "NOK", "SEK", 12.0 / 11.5, "ECB"),
        Observation(date, "SEK", "EUR", 1.0 / 12.0, "ECB"),
        Observation(date, "SEK", "NOK", 11.5 / 12.0, "ECB")]
  {
    NokSekQuotes(date);
    DayRowsOfThree(ExampleSnapshot(), date, "EUR", "NOK", "SEK", ["EUR", "NOK", "SEK"]);
  }

  /** The one date of a single-date input comes out of `sorted` alone. */
  lemma SortedSingleton(date: int)
    ensures SortedDates({date}) == [date]
  {
    var dates := SortedDates({date});
    assert date in dates;
  }

  /**
   * NOK at 11.5 and SEK at 12.0 per euro on one date, currencies EUR, NOK,
   * SEK: exactly the six pairs, in loop order.
   */
  lemma NokSekExample(date: int)
    ensures var eurRates := map["NOK" := map[date := 11.5], "SEK" := map[date := 12.0]];
      NoZeroRate(eurRates) &&
      CrossPairs(eurRates, ["EUR", "NOK", "SEK"]) == [
        Observation(date, "EUR", "NOK", 11.5, "ECB"),
        Observation(date, "EUR", "SEK", 12.0, "ECB"),
        Observation(date, "NOK", "EUR", 1.0 / 11.5, "ECB"),
        Observation(date, "NOK", "SEK", 12.0 / 11.5, "ECB"),
        Observation(date, "SEK", "EUR", 1.0 / 12.0, "ECB"),
        Observation(date, "SEK", "NOK", 11.5 / 12.0, "ECB")]
  {
    var eurRates := map["NOK" := map[date := 11.5], "SEK" := map[date := 12.0]];
    var cs: seq<Currency> := ["EUR", "NOK", "SEK"];
    assert AllDates(eurRates) == {date} by {
      assert "NOK" in eurRates && date in eurRates["NOK"];
    }
    SortedSingleton(date);
    assert [date][..0] == [];
    assert Snapshot(eurRates, date) == ExampleSnapshot();
    NokSekDay(date);
    assert RatesFor(eurRates, cs, [date]) == RatesOn(eurRates, cs, date);
  }
}
