/** The helpers of src/utils.py: the `dd.mm.yyyy` date parser (`get_date`),
    conversion into roubles (`exchange`), card masking (`mask_card`) and the
    memoizing rate cache that `get_currency_rates` wraps around a per-date
    rate provider. */
module Utils {
  import opened Common
  import opened Calendar

  // ---------------------------------------------------------------------
  // get_date: datetime.strptime(s, "%d.%m.%Y")
  // ---------------------------------------------------------------------

  /** Index of the first '.' in `s`, or `|s|` when there is none. */
  function FirstDot(s: string): (k: nat)
    ensures k <= |s|
    ensures forall i :: 0 <= i < k ==> s[i] != '.'
    ensures k < |s| ==> s[k] == '.'
  {
    if s == [] || s[0] == '.' then 0 else 1 + FirstDot(s[1..])
  }

  /** strptime's `%d` field: `3[01]|[12]\d|0[1-9]|[1-9]| [1-9]`. */
  function DayField(t: string): Option<int> {
    if |t| == 1 && '1' <= t[0] <= '9' then Some(DigitValue(t[0]))
    else if |t| == 2 && t[0] == ' ' && '1' <= t[1] <= '9' then Some(DigitValue(t[1]))
    else if |t| == 2 && AllDigits(t) && 1 <= DigitsValue(t) <= 31 then Some(DigitsValue(t))
    else None
  }

  /** strptime's `%m` field: `1[0-2]|0[1-9]|[1-9]`. */
  function MonthField(t: string): Option<int> {
    if |t| == 1 && '1' <= t[0] <= '9' then Some(DigitValue(t[0]))
    else if |t| == 2 && AllDigits(t) && 1 <= DigitsValue(t) <= 12 then Some(DigitsValue(t))
    else None
  }

  /** strptime's `%Y` field: exactly four digits. */
  function YearField(t: string): Option<int> {
    if |t| == 4 && AllDigits(t) then Some(DigitsValue(t)) else None
  }

  /** `get_date`: the date written in `s` as day, month and year separated by
      dots, or `None` when strptime raises (a field of the wrong shape, text
      left over, or a day that does not exist in that month and year). None of
      the three fields can hold a '.', so the dots split `s` unambiguously. */
  function GetDate(s: string): (r: Option<Date>)
    ensures r.Some? ==> Valid(r.value)
  {
    var i := FirstDot(s);
    if i == |s| then None
    else
      var rest := s[i + 1..];
      var j := FirstDot(rest);
      if j == |rest| then None
      else Assemble(DayField(s[..i]), MonthField(rest[..j]), YearField(rest[j + 1..]))
  }

  /** The date the three fields name, when all three were read and the day
      exists in that month and year. */
  function Assemble(day: Option<int>, month: Option<int>, year: Option<int>): (r: Option<Date>)
    ensures r.Some? <==> day.Some? && month.Some? && year.Some? && Valid(Date(year.value, month.value, day.value))
    ensures r.Some? ==> r.value == Date(year.value, month.value, day.value)
  {
    if day.None? || month.None? || year.None? then None
    else
      var d := Date(year.value, month.value, day.value);
      if Valid(d) then Some(d) else None
  }

  /** A date written zero-padded as `dd.mm.yyyy` (`strftime("%d.%m.%Y")`). */
  function FormatDMY(d: Date): string
    requires 0 <= d.day < 100 && 0 <= d.month < 100 && 0 <= d.year < 10000
  {
    Pad2(d.day) + "." + Pad2(d.month) + "." + Pad4(d.year)
  }

  /** A dot-free field followed by a dot: the first dot ends the field. */
  lemma SplitAtDot(t: string, rest: string)
    requires '.' !in t
    ensures var s := t + "." + rest;
      FirstDot(s) == |t| && s[..|t|] == t && s[|t| + 1..] == rest
  {
    var s := t + "." + rest;
    assert s[|t|] == '.';
    assert s[..|t|] == t;
  }

  /** Three dot-free fields joined by dots are parsed field by field. */
  lemma GetDateOfFields(dd: string, mm: string, yyyy: string)
    requires '.' !in dd && '.' !in mm && '.' !in yyyy
    ensures GetDate(dd + "." + mm + "." + yyyy) == Assemble(DayField(dd), MonthField(mm), YearField(yyyy))
  {
    var rest := mm + "." + yyyy;
    SplitAtDot(dd, rest);
    SplitAtDot(mm, yyyy);
    assert dd + "." + mm + "." + yyyy == dd + "." + rest;
  }

  /** Digit fields of the full width are read as their value, the day and
      the month only within their range. */
  lemma FieldsOfDigits(dd: string, mm: string, yyyy: string)
    requires |dd| == 2 && AllDigits(dd) && |mm| == 2 && AllDigits(mm) && |yyyy| == 4 && AllDigits(yyyy)
    ensures '.' !in dd && '.' !in mm && '.' !in yyyy
    ensures DayField(dd) == if 1 <= DigitsValue(dd) <= 31 then Some(DigitsValue(dd)) else None
    ensures MonthField(mm) == if 1 <= DigitsValue(mm) <= 12 then Some(DigitsValue(mm)) else None
    ensures YearField(yyyy) == Some(DigitsValue(yyyy))
  {
    assert IsDigit(dd[0]);
  }

  /** The parser reads back exactly the calendar dates: written zero-padded
      as `dd.mm.yyyy`, a day/month/year triple parses to itself when it is a
      real date and is refused otherwise (29.02 of a common year, 31 in a
      30-day month, a month above 12, year 0000). */
  lemma GetDateExact(d: Date)
    requires 0 <= d.day < 100 && 0 <= d.month < 100 && 0 <= d.year < 10000
    ensures GetDate(FormatDMY(d)) == if Valid(d) then Some(d) else None
  {
    Pad2Value(d.day);
    Pad2Value(d.month);
    Pad4Value(d.year);
    FieldsOfDigits(Pad2(d.day), Pad2(d.month), Pad4(d.year));
    GetDateOfFields(Pad2(d.day), Pad2(d.month), Pad4(d.year));
  }

  /** The day of the repository's accepting test, written as `dd.mm.yyyy`. */
  lemma FormatDMYExample()
    ensures FormatDMY(Date(2024, 12, 30)) == "30.12.2024"
  {
    assert Pad2(30) == "30" && Pad2(12) == "12" && Pad2(20) == "20" && Pad2(24) == "24";
  }

  /** The cases the repository's own tests check: 30.12.2024 is read back ... */
  lemma GetDateReadsTestDay()
    ensures GetDate(FormatDMY(Date(2024, 12, 30))) == Some(Date(2024, 12, 30))
  {
    GetDateExact(Date(2024, 12, 30));
  }

  /** ... while 29.02.2001 is refused (2001 is a common year), ... */
  lemma GetDateRefusesLeapDay()
    ensures GetDate(FormatDMY(Date(2001, 2, 29))) == None
  {
    GetDateExact(Date(2001, 2, 29));
  }

  /** ... so is 31.06.2000 (June has 30 days) ... */
  lemma GetDateRefusesDay31()
    ensures GetDate(FormatDMY(Date(2000, 6, 31))) == None
  {
    GetDateExact(Date(2000, 6, 31));
  }

  /** ... and 01.21.1999 (there is no month 21). */
  lemma GetDateRefusesMonth21()
    ensures GetDate(FormatDMY(Date(1999, 21, 1))) == None
  {
    GetDateExact(Date(1999, 21, 1));
  }

  // ---------------------------------------------------------------------
  // exchange
  // ---------------------------------------------------------------------

  /** The reporting currency: amounts in it are never converted. */
  const ReportingCurrency: string := "RUB"

  /** The `(currency_code, date) -> rate | None` lookup the views are given. */
  type RateLookup = (string, Date) -> Option<real>

  /** `exchange`: the amount in roubles, or `None` when the rate is missing. */
  function Exchange(amount: real, code: string, on: Date, rate: RateLookup): (r: Option<real>)
    ensures code == ReportingCurrency ==> r == Some(amount)
    ensures code != ReportingCurrency ==> (r.None? <==> rate(code, on).None?)
    ensures code != ReportingCurrency && r.Some? ==> r.value == rate(code, on).value * amount
  {
    if code == ReportingCurrency then Some(amount)
    else match rate(code, on)
      case None => None
      case Some(x) => Some(x * amount)
  }

  /** Roubles are never looked up: the rate function makes no difference. */
  lemma ExchangeIgnoresRateForRoubles(amount: real, on: Date, rate1: RateLookup, rate2: RateLookup)
    ensures Exchange(amount, ReportingCurrency, on, rate1) == Exchange(amount, ReportingCurrency, on, rate2)
  {
  }

  // ---------------------------------------------------------------------
  // mask_card
  // ---------------------------------------------------------------------

  /** `mask_card`: `card_number[-4:]`, the last four characters, or all of a
      shorter string. */
  function MaskCard(card: string): (r: string)
    ensures |r| == Min(4, |card|)
    ensures card == card[..|card| - |r|] + r
  {
    card[|card| - Min(4, |card|)..]
  }

  // ---------------------------------------------------------------------
  // get_currency_rates: the memoizing wrapper
  // ---------------------------------------------------------------------

  /** One day's rates: currency code to roubles per unit. */
  type RateTable = map<string, real>

  /** The wrapped per-date provider; `None` is a failed fetch. */
  type RateProvider = Date -> Option<RateTable>

  /** A currency's rate in a table, `None` when the code is absent. */
  function TableRate(t: RateTable, code: string): (r: Option<real>)
    ensures r.Some? <==> code in t
    ensures r.Some? ==> r.value == t[code]
  {
    if code in t then Some(t[code]) else None
  }

  /** What a lookup means without any memoization: fetch the date's table and
      look the code up in it. */
  function DirectRate(inner: RateProvider, code: string, on: Date): Option<real> {
    match inner(on)
    case None => None
    case Some(t) => TableRate(t, code)
  }

  /** The cached tables are the ones the provider gives for their dates. */
  ghost predicate Coherent(rates: map<Date, RateTable>, inner: RateProvider) {
    forall d :: d in rates ==> inner(d) == Some(rates[d])
  }

  /** The outcome of one call of the wrapper: its answer, the cache after it
      and whether the provider was called. */
  datatype Served = Served(rate: Option<real>, rates: map<Date, RateTable>, called: bool)

  /** One call of `wrapper(currency_code, date)` as a function of the cache
      before it: a cached date is answered from its table; otherwise the
      provider is asked, and only a successful answer is stored. */
  function Serve(rates: map<Date, RateTable>, code: string, on: Date, inner: RateProvider): Served {
    if on in rates then Served(TableRate(rates[on], code), rates, false)
    else match inner(on)
      case None => Served(None, rates, true)
      case Some(t) => Served(TableRate(t, code), rates[on := t], true)
  }

  /** One call only adds: no cached table is removed or replaced, and the only
      new entry is the requested date after a successful fetch. The provider
      is consulted exactly when the date was not cached; a cached date is
      answered from its table, a failed fetch answers `None` and stores
      nothing, and a successful one stores the whole table and answers from
      it. */
  lemma ServeGrows(rates: map<Date, RateTable>, code: string, on: Date, inner: RateProvider)
    ensures var s := Serve(rates, code, on, inner);
      && (s.called <==> on !in rates)
      && (forall d :: d in rates ==> d in s.rates && s.rates[d] == rates[d])
      && s.rates.Keys == rates.Keys + (if s.called && inner(on).Some? then {on} else {})
      && (on in rates ==> s.rate == TableRate(rates[on], code))
      && (s.called && inner(on).None? ==> s.rate.None? && s.rates == rates)
      && (s.called && inner(on).Some? ==> s.rates[on] == inner(on).value && s.rate == TableRate(inner(on).value, code))
  {
  }

  /** Memoization is invisible to the caller: with a cache that holds the
      provider's own tables, a call answers what a direct lookup would, and the
      cache stays coherent. */
  lemma ServeTransparent(rates: map<Date, RateTable>, code: string, on: Date, inner: RateProvider)
    requires Coherent(rates, inner)
    ensures Serve(rates, code, on, inner).rate == DirectRate(inner, code, on)
    ensures Coherent(Serve(rates, code, on, inner).rates, inner)
  {
  }

  datatype Query = Query(code: string, on: Date)

  /** A run of successive calls on one cache: the answers, the final cache and
      the dates the provider was called for, in order. */
  datatype Trace = Trace(answers: seq<Option<real>>, rates: map<Date, RateTable>, calls: seq<Date>)

  function Replay(rates: map<Date, RateTable>, qs: seq<Query>, inner: RateProvider): (t: Trace)
    ensures |t.answers| == |qs|
    decreases |qs|
  {
    if qs == [] then Trace([], rates, [])
    else
      var s := Serve(rates, qs[0].code, qs[0].on, inner);
      var rest := Replay(s.rates, qs[1..], inner);
      Trace([s.rate] + rest.answers, rest.rates, (if s.called then [qs[0].on] else []) + rest.calls)
  }

  /** How many of the queries ask about date `d`. */
  function CountOn(qs: seq<Query>, d: Date): nat {
    if qs == [] then 0 else (if qs[0].on == d then 1 else 0) + CountOn(qs[1..], d)
  }

  /** Every answer of a run equals the unmemoized lookup. */
  lemma {:induction false} ReplayAnswersDirect(rates: map<Date, RateTable>, qs: seq<Query>, inner: RateProvider)
    requires Coherent(rates, inner)
    ensures forall i :: 0 <= i < |qs| ==>
      Replay(rates, qs, inner).answers[i] == DirectRate(inner, qs[i].code, qs[i].on)
    decreases |qs|
  {
    if qs != [] {
      var s := Serve(rates, qs[0].code, qs[0].on, inner);
      ServeTransparent(rates, qs[0].code, qs[0].on, inner);
      ReplayAnswersDirect(s.rates, qs[1..], inner);
      forall i | 0 <= i < |qs|
        ensures Replay(rates, qs, inner).answers[i] == DirectRate(inner, qs[i].code, qs[i].on)
      {
        if i > 0 {
          assert qs[1..][i - 1] == qs[i];
        }
      }
    }
  }

  /** A date whose fetch succeeds is fetched at most once over any run of
      calls, and never when it is already cached. */
  lemma {:induction false} ReplayFetchesOnce(rates: map<Date, RateTable>, qs: seq<Query>, inner: RateProvider, d: Date)
    requires inner(d).Some?
    ensures multiset(Replay(rates, qs, inner).calls)[d] <= if d in rates then 0 else 1
    decreases |qs|
  {
    if qs != [] {
      var s := Serve(rates, qs[0].code, qs[0].on, inner);
      ReplayFetchesOnce(s.rates, qs[1..], inner, d);
      if qs[0].on == d && d !in rates {
        assert d in s.rates;
      }
    }
  }

  /** A failed fetch stores nothing, so every later call for that date asks
      the provider again. */
  lemma {:induction false} ReplayRetriesFailedDate(rates: map<Date, RateTable>, qs: seq<Query>, inner: RateProvider, d: Date)
    requires inner(d).None? && d !in rates
    ensures multiset(Replay(rates, qs, inner).calls)[d] == CountOn(qs, d)
    decreases |qs|
  {
    if qs != [] {
      var s := Serve(rates, qs[0].code, qs[0].on, inner);
      assert d !in s.rates;
      ReplayRetriesFailedDate(s.rates, qs[1..], inner, d);
    }
  }

  /** The closure state of `get_currency_rates(inner)`: the wrapped provider,
      captured once, the captured dictionary `currency_rates`, and ghost logs
      of every provider call and of the dates whose fetch succeeded. */
  class RateCache {
    const inner: RateProvider
    var rates: map<Date, RateTable>
    ghost var calls: seq<Date>
    ghost var fetched: seq<Date>

    /** Each date was fetched successfully at most once; the cached dates are
        exactly the successfully fetched ones; every success was a call; and
        every cached table is the one the provider gives for its date. */
    ghost predicate Valid()
      reads this
    {
      && (forall i, j :: 0 <= i < j < |fetched| ==> fetched[i] != fetched[j])
      && (forall d :: d in rates <==> d in fetched)
      && (forall d :: d in fetched ==> d in calls)
      && Coherent(rates, inner)
    }

    /** `get_currency_rates(inner)`: an empty cache around `inner`. */
    constructor (inner: RateProvider)
      ensures Valid()
      ensures this.inner == inner
      ensures rates == map[] && calls == [] && fetched == []
    {
      this.inner := inner;
      rates := map[];
      calls := [];
      fetched := [];
    }

    /** `wrapper(currency_code, date)`: one call of `Serve`, whose answer is
        the one the views' rate lookup `CachedRates(inner)` gives. */
    method Get(code: string, on: Date) returns (r: Option<real>)
      requires Valid()
      modifies this
      ensures Valid()
      ensures r == Serve(old(rates), code, on, inner).rate
      ensures r == CachedRates(inner)(code, on)
      ensures rates == Serve(old(rates), code, on, inner).rates
      ensures forall d :: d in old(rates) ==> d in rates && rates[d] == old(rates)[d]
      ensures calls == old(calls) + if on in old(rates) then [] else [on]
      ensures fetched == old(fetched) + if on !in old(rates) && inner(on).Some? then [on] else []
    {
      ServeTransparent(rates, code, on, inner);
      if on in rates {
        var table := rates[on];
        if code in table {
          return Some(table[code]);
        }
        return None;
      }
      var answer := inner(on);
      calls := calls + [on];
      if answer.None? {
        return None;
      }
      rates := rates[on := answer.value];
      fetched := fetched + [on];
      if code in answer.value {
        return Some(answer.value[code]);
      }
      return None;
    }
  }

  /** The lookup a cache over `inner` provides, as the views see it: every
      answer of `RateCache.Get`, and of any run of calls (`ReplayAnswersDirect`),
      is this one. */
  function CachedRates(inner: RateProvider): RateLookup {
    (code: string, on: Date) => DirectRate(inner, code, on)
  }
}
