# coursepaper1 bank-export analytics, modelled in Dafny

This project models the computing core of a small personal-finance tool. The tool reads a bank's
transaction export (an Excel sheet with Russian column names such as "Дата платежа", "Статус",
"Сумма платежа", "Категория") and produces:

- **the dashboard sections of `src/views.py`**:
  - a greeting by hour of day;
  - per-card spending and cashback for the month to date, converted into roubles;
  - the five largest operations of the month to date;
  - the user's preferred currency rates;
- **the category report of `src/reports.py`**: the completed debits of one category over a
  "three months back" window, and the name of the JSON file the report decorator writes;
- **the search of `src/services.py`** for transfers to private persons, recognised by a
  description such as "Иван С.";
- **the helpers of `src/utils.py`**:
  - the `dd.mm.yyyy` date parser;
  - conversion into roubles;
  - card masking;
  - the memoizing cache that `get_currency_rates` wraps around a per-date rate provider.

## How the pieces are modelled

- **Modules**:
  - `Common`: option type, subsequences, code-point string order.
  - `Calendar`: proleptic Gregorian dates as `datetime.date` has them, years 1 to 9999.
  - `Utils`: the utils helpers and the rate cache.
  - `Transactions`: the export as a frame.
  - `Views`, `Reports` and `Services`: the three source modules of the same names.
- **A pandas DataFrame** is a `Frame`: the set of columns it has and its sequence of rows.
  - A boolean-mask `df.loc[...]` is `Select`, a stable filter.
  - A row-wise `apply` that may fail is `ApplyRows`.
- **The rate cache** is the class `Utils.RateCache`.
  - Its `rates` map is the captured `date → (currency → rate)` dictionary. Its `Get` method is the
    returned `wrapper`.
  - The inner provider is a function value, captured once by the constructor as the constant
    field `inner`.
  - A ghost log of provider calls and a ghost log of successful fetches carry the invariant:
    - each date is fetched successfully at most once;
    - cached entries are never removed or replaced.
  - `ServeTransparent` and `ReplayAnswersDirect` prove that the cache answers exactly what an
    uncached lookup would.
  - `Get` answers `CachedRates(inner)`, the uncached lookup. That is why the views take the rate
    lookup as a pure function `(code, date) → Option<real>`.
- **Loops that build result lists by `append` are methods with loop invariants**, each proved
  equal to a specification function:
  - `AppendCards`, the loop of `GetCardsInfo`;
  - `AppendEntries`, the loop of `GetTopTransactions`;
  - `GetUserPreferCurrencyRates`;
  - `SearchIndividualTransfers`.

  The lemmas are stated about those functions.
- **Fail-soft sections** (a `try` whose `except` returns the empty list) return `[]` in the model
  under the same conditions:
  - a required column is missing;
  - the payment-date column does not parse (see below).
- **A missing conversion rate** also gives `[]` in the model. This is a modelling choice, not the
  source's behaviour: in pandas, `exchange` returning `None` inside `apply` becomes NaN, and the
  section goes on with it (see "## Left out").
- **The payment-date column** is parsed as `pd.to_datetime(column, format="%d.%m.%Y")` does
  (`Transactions.ColumnDate`), with pandas 2's nanosecond timestamps:
  - the texts "", "NaT", "nat", "NAT", "nan", "NaN" and "NAN" become `NaT`, and an empty cell of
    the sheet is the empty text;
  - every other text must be a day `strptime` accepts, between 1677-09-22 and 2262-04-11;
    otherwise the whole column raises;
  - a `NaT` row fails both date comparisons, so the masks drop it. `CardsInfoSkipsNaT`,
    `TopTransactionsSkipsNaT` and `SpendingByCategorySkipsNaT` prove that adding such a row
    changes nothing.
- **Masks keep multiplicity.** Two identical rows are both kept or both dropped. `Select`,
  `MonthSpending`, `MonthOperations`, the report and `TransfersCounts` state this with multisets.
- **Exceptions that escape** are made explicit. The report's window computation is not inside a
  `try`. `Reports.SpendingByCategory` therefore returns `Raised` for exactly the end days
  characterised by `WindowRaises`.
- **`search_individual_transfers`** returns a JSON string, or `""`. The model returns the list
  of kept transactions, with `[]` standing for `""`.
- **`today()` and `now()`** are parameters.

**Where the documented behaviour and the code differ, the model follows the code.**

`get_date` is described as a strict `dd.mm.yyyy` parser. The code calls
`strptime(s, "%d.%m.%Y")`, which is more lenient:

- the day may be one digit, two digits, or a space and a digit;
- the month may be one or two digits;
- the year must be exactly four digits.

The model accepts the same shapes, and then requires a real calendar date.

The "three months back" window of the report is reproduced as written. The code does not compute
a three-month window for every end day: it raises for the days `WindowRaises` lists, for example
for every end day from the 2nd of March to the 1st of April. Where it does not raise, the window
starts three calendar months before the day preceding the end (`WindowIsThreeMonths`).

## Model

| member | source | states |
|---|---|---|
| Calendar.DaysInMonth | src/utils.py:59 | a month has 28 to 31 days, and 29 exactly for February of a leap year |
| Calendar.BeforeIsOrdinalOrder | src/reports.py:65 | comparing two valid dates field by field agrees with comparing their day ordinals |
| Calendar.PrevDay | src/reports.py:62 | `date - timedelta(days=1)` fails only on 0001-01-01; otherwise it is a valid date whose ordinal is one less |
| Calendar.ReplaceMonth | src/reports.py:64 | `replace(month=m)` succeeds exactly when m is 1..12 and the day exists in that month; only the month changes |
| Calendar.ReplaceYear | src/reports.py:67 | `replace(year=y)` succeeds exactly when y is 1..9999 and the day exists in that month of y; only the year changes |
| Calendar.FirstOfMonth | src/views.py:89 | `replace(day=1)` is a valid date of the same month, never after the given date |
| Calendar.Pad2Value | src/reports.py:35 | a two-digit zero-padded field reads back as its number |
| Calendar.Pad4Value | src/reports.py:35 | a four-digit zero-padded field reads back as its number |
| Utils.GetDate | src/utils.py:55-64 | every date the parser returns is a real calendar date |
| Utils.GetDateExact | src/utils.py:58-64 | a day/month/year triple written as `dd.mm.yyyy` parses back to itself when it is a calendar date, and is refused otherwise |
| Utils.Assemble | src/utils.py:59 | a date comes out exactly when all three fields were read and they name a real calendar date, and it is the date they name |
| Utils.SplitAtDot | src/utils.py:59 | in a dot-free field followed by a dot, the first dot ends the field, and what follows the dot is the rest |
| Utils.GetDateOfFields | src/utils.py:58-64 | three dot-free fields joined by dots are read field by field, as day, month and year |
| Utils.FieldsOfDigits | src/utils.py:59 | two-digit day and month fields are read as their value within 1..31 and 1..12; a four-digit year field as its value |
| Utils.FormatDMYExample | tests/test_utils.py:40 | the day 2024-12-30 is written "30.12.2024" |
| Utils.GetDateReadsTestDay | tests/test_utils.py:40 | "30.12.2024" parses to 2024-12-30 |
| Utils.GetDateRefusesLeapDay | tests/test_utils.py:41 | "29.02.2001" is refused (2001 is a common year) |
| Utils.GetDateRefusesDay31 | tests/test_utils.py:42 | "31.06.2000" is refused (June has 30 days) |
| Utils.GetDateRefusesMonth21 | tests/test_utils.py:43 | "01.21.1999" is refused (there is no month 21) |
| Utils.Exchange | src/utils.py:67-85 | roubles come back unchanged; otherwise the result is missing exactly when the rate is missing, and is rate × amount |
| Utils.ExchangeIgnoresRateForRoubles | src/utils.py:75-76 | for roubles the rate function makes no difference |
| Utils.MaskCard | src/utils.py:152-157 | the result is the last min(4, length) characters of the card number |
| Utils.TableRate | src/utils.py:96-97 | a code's rate is present exactly when the code is in the day's table, and is the table's entry |
| Utils.ServeGrows | src/utils.py:95-117 | the provider is called exactly when the date is not cached; a cached date is answered from its table; a failed fetch answers nothing and stores nothing; a successful fetch stores the whole table under the date and answers from it; no cached table is removed or replaced |
| Utils.ServeTransparent | src/utils.py:93-117 | with a cache holding the provider's own tables, a call answers what an uncached lookup answers, and the cache stays coherent |
| Utils.ReplayAnswersDirect | src/utils.py:93-117 | over any run of calls, every answer equals the uncached lookup |
| Utils.ReplayFetchesOnce | src/utils.py:95-110 | over any run of calls, a date whose fetch succeeds is fetched at most once, and never when it was cached already |
| Utils.ReplayRetriesFailedDate | src/utils.py:103-108 | a date whose fetch fails is fetched again on every call that asks for it |
| Utils.RateCache.constructor | src/utils.py:88-91 | the cache captures the provider and starts empty, with no provider calls logged |
| Utils.RateCache.Get | src/utils.py:93-117 | the answer and new cache are those of one call, and the answer is the uncached lookup `CachedRates(inner)`; old entries are kept unchanged; the provider call is logged exactly on a miss; the invariant (each date fetched successfully at most once, cached dates are the fetched ones and hold the provider's tables) is kept |
| Transactions.ColumnDate | src/views.py:90 | a missing-date text is `NaT`; any other text is the day `strptime` reads, when that day is within the `Timestamp` range; the column raises otherwise |
| Transactions.NaTRowParses | src/views.py:90 | adding a `NaT` row does not change whether the column parses |
| Transactions.Select | src/views.py:91-104 | the kept rows are a subsequence of the frame's rows; a row is kept exactly when the mask holds for it, and then as often as it occurs in the frame |
| Transactions.SelectSkipsLast | src/views.py:91-104 | a row the mask rejects, appended to the frame, changes no selection |
| Transactions.ApplyRows | src/views.py:108-122 | the row-wise results exist exactly when every row's result exists, and they are the rows' results in order |
| Views.Greeting | src/views.py:64-79 | hours 0-5, 6-11, 12-17 and 18-23 give "Доброй ночи", "Доброе утро", "Добрый день" and "Добрый вечер" |
| Views.MonthSpending | src/views.py:88-104 | the card rows are, in order and each as often as in the frame, exactly the completed debits paid from the first of the month to the given date |
| Views.ConvertRow | src/views.py:108-122 | a row converts exactly when its currency is the rouble or the lookup has a rate for it at the payment date; it then keeps its card, and its payment and cashback are each `exchange`d at that date |
| Views.MonthConverted | src/views.py:108-122 | the month's debits convert exactly when each one converts, row by row |
| Views.InsertKey | src/views.py:123-126 | inserting a card key keeps the keys strictly ascending, and the keys become the old keys plus the new one |
| Views.CardKeys | src/views.py:123-126 | the group keys are strictly ascending in code-point order |
| Views.CardKeysMembers | src/views.py:123-126 | the group keys are exactly the card numbers that occur |
| Views.SumOverKeysTotal | src/views.py:123-126 | summing group by group over distinct keys that cover every row gives the total over all rows |
| Views.CardsOfTotals | src/views.py:126-134 | over all cards, `total_spent` adds up to minus the converted payments and `cashback` to the converted cashback |
| Views.AppendCards | src/views.py:126-134 | the append loop builds exactly one card entry per group key, in key order |
| Views.GetCardsInfo | src/views.py:82-138 | the method returns the fail-soft card list: empty on a missing column, a payment-date column that raises, or a missing rate |
| Views.CardsInfoOnePerCard | src/views.py:123-134 | one entry per distinct card number among the month's completed debits, in ascending card order, each masked to its last four characters |
| Views.ConvertedCards | src/views.py:108-125 | converting rows keeps the set of card numbers |
| Views.CardRowsAreConverted | src/views.py:88-122 | each converted row is one of the month's completed debits, with its card number and its payment and cashback converted at its own payment date |
| Views.CardsInfoTotals | src/views.py:108-134 | at any rates, the cards' totals are minus the sum of the converted payments and the sum of the converted cashback |
| Views.ConvertsAtUnitRate | src/views.py:108-122 | when every rate is present, every debit of the month converts |
| Views.ExchangeAtUnitRate | src/utils.py:67-85 | at rate 1 an amount converts to itself |
| Views.CardsInfoSkipsNaT | src/views.py:90-104 | a row whose payment date reads as `NaT` is dropped: adding it leaves the card list unchanged |
| Views.CardsInfoTotalsAtUnitRate | src/views.py:88-134 | at rate 1, the cards' totals are minus the month's debits and the sum of their cashback |
| Views.SumAllMatchesRows | src/views.py:108-126 | summing converted rows equals summing the original rows when each conversion is the identity |
| Views.MonthOperations | src/views.py:148-163 | the ranked rows are, in order and each as often as in the frame, exactly the completed operations, credits and debits alike, paid from the first of the month to the given date |
| Views.MonthRanked | src/views.py:169-178 | the month's operations get a weight exactly when each one converts, row by row |
| Views.InsertByWeight | src/views.py:188 | inserting keeps the order by non-increasing weight and adds exactly one element |
| Views.SortByWeight | src/views.py:188 | the sort is a permutation ordered by non-increasing weight |
| Views.SortedSplit | src/views.py:188-189 | cutting a weight-sorted list leaves nothing heavier behind than what is kept |
| Views.TopOf | src/views.py:179-190 | min(5, n) rows, by non-increasing weight, drawn from the ranked rows, and no left-out row weighs more than any kept row |
| Views.Entries | src/views.py:192-200 | one output entry per kept row, in order, with the row's original date text, amount, category and description |
| Views.AppendEntries | src/views.py:191-200 | the append loop produces exactly those entries |
| Views.GetTopTransactions | src/views.py:141-204 | the method returns the fail-soft top list: empty on a missing column, a payment-date column that raises, or a missing rate |
| Views.TopTransactionsSkipsNaT | src/views.py:150-163 | a row whose payment date reads as `NaT` is dropped: adding it leaves the top list unchanged |
| Views.TopTransactionsFromMonth | src/views.py:148-200 | when every month operation converts, the list has min(5, n) entries, each one of the month's completed operations |
| Views.TopEntriesFromRows | src/views.py:179-200 | every entry of the top list comes from a ranked row, and there are min(5, n) of them |
| Views.KeptRowsAreRanked | src/views.py:179-190 | every row kept for the top list is one of the ranked rows' operations |
| Views.RankedRowsAreConverted | src/views.py:169-178 | each ranked row is a month operation weighted by the absolute value of its amount in roubles at its own payment date |
| Views.GetUserPreferCurrencyRates | src/views.py:207-220 | one entry per requested code, in request order, with the looked-up rate or 0.0 |
| Reports.ReportEnd | src/reports.py:56-61 | the end day is the given day when it parses, and today when it is absent or does not parse |
| Reports.ReportEndFallsBack | src/reports.py:56-61 | "2025-01-21" is not `dd.mm.yyyy`, so the report ends today |
| Reports.ReportEndParses | src/reports.py:56-61 | "21.01.2025" is read as written |
| Reports.WindowStartFails | src/reports.py:62-67 | the window computation raises exactly on the end days `WindowRaises` lists |
| Reports.TargetMonth | src/reports.py:64 | `(m + 9) % 12` is three months back, except that January and February give October and November and March gives 0 |
| Reports.WindowStartWinter | src/reports.py:62-67 | when the day before the end is in January or February, the window moves to October or November of the year before and raises only in year 1 |
| Reports.WindowStartLater | src/reports.py:62-64 | when the day before the end is in March or later, the window raises exactly for March or a day the target month does not have |
| Reports.PrevDayInYear | src/reports.py:62 | the day before the end lies in the end's year and month, except on the first of a month or of January |
| Reports.WindowIsThreeMonths | src/reports.py:62-67 | when it exists, the window starts on the same day of the month three calendar months before the day preceding the end, and strictly before the end |
| Reports.WindowRaisesInMarch | src/reports.py:62-64 | every end day from the 2nd of March to the 1st of April raises |
| Reports.WindowExample | src/reports.py:62-67 | a report ending 21.01.2025 starts 20.10.2024 |
| Reports.SpendingByCategoryRows | src/reports.py:50-85 | the report raises exactly when its window does; otherwise a missing column or a payment-date column that raises gives the empty frame, and else the input's columns and, in order and each as often as in the input, exactly the completed debits of the category paid within the window |
| Reports.SpendingByCategorySkipsNaT | src/reports.py:68-81 | a row whose payment date reads as `NaT` is dropped: adding it leaves the report's outcome unchanged |
| Reports.IsoDate | src/reports.py:35 | the date text is ten characters, digits with dashes at positions 4 and 7 |
| Reports.IsoDateRoundTrip | src/reports.py:35 | the date text reads back as the same year, month and day |
| Reports.ReportFilename | src/reports.py:32-38 | a given filename is used as is; otherwise the name is `data/<function>_<YYYY-MM-DD>.json` with today's date |
| Services.AfterCapitalRun | src/services.py:47 | the greedy scan after the first capital accepts exactly the strings with some lower-case run followed by a space, a capital and a full stop |
| Services.NameLikeMeansPattern | src/services.py:47 | the matcher accepts exactly the strings starting with a capital, small letters, a space, a capital and a full stop |
| Services.NameLikeAccepts | src/services.py:47 | "Иван С.", "Ян К. перевод" and "K Y." match |
| Services.NameLikeRefuses | src/services.py:47 | "ООО Ромашка", a small first letter and a capital "Ё" do not match |
| Services.Examine | src/services.py:50-58 | an entry is kept exactly when it has the four keys, status "OK", category "Переводы", a negative amount and a name-like description; a missing key is reported only when one is missing |
| Services.Transfers | src/services.py:46-61 | the search fails exactly when some entry has a key missing where it is read; otherwise the kept entries are a subsequence of the input, and exactly the entries that pass every check |
| Services.TransfersCounts | src/services.py:46-61 | each kept entry is collected as often as it occurs in the input |
| Services.TransfersStep | src/services.py:49-58 | one more entry extends the result by that entry when kept, and leaves it unchanged when skipped |
| Services.TransfersStopsAt | src/services.py:59-61 | a missing key in any entry makes the whole search fail |
| Services.SearchIndividualTransfers | src/services.py:39-65 | the loop returns the kept entries, or nothing on an empty input, a missing key or no match |

## Left out

- `get_currency_rates_by_cbr` and `get_user_stocks` are not modelled: they are HTTP requests, XML
  and JSON parsing, and API keys from the environment. The rate provider is an abstract
  `date → Option<table>` function, and it is assumed deterministic.
- `read_excel`, `get_user_settings` and the file write of `write_report` are not modelled: they
  are file I/O. Only the filename rule is kept.
  - The decorated report returns nothing and writes its rows to that file.
  - A failed write is only logged.
- `main_page` is not modelled. It orchestrates `datetime.now()`, file reads, the network and
  `json.dumps`. It returns "{}" when the settings file cannot be read.
- JSON serialisation, logging and `print` are side effects only. Results are modelled as lists of
  records.
- Amounts are `real`. IEEE rounding is not modelled.
- Rows whose amount, cashback or card number is NaN are not modelled.
- `Views.MonthRanked`: a missing rate makes the whole top list empty, where pandas would rank the
  row's NaN weight last; see the next line.
- `Views.MonthConverted`: a missing rate makes the whole section empty. In pandas, `exchange`
  returning `None` inside `apply` produces NaN:
  - `groupby().sum()` then skips it;
  - `sort_values` ranks it last.
- `Views.SortByWeight`: the order among operations of equal weight is not asserted. pandas'
  default sort is not stable.
- `get_cards_info`, `get_top_transactions` and `spending_by_category` also add a `payment_date`
  column to the caller's frame. The model does not capture that change to the input.
- `Transactions.ColumnDate`: the bounds are those of pandas 2's nanosecond `Timestamp`. A pandas
  that infers a coarser resolution would accept days outside them. An empty cell is read as
  the empty text, since the model has no float NaN for a date cell.
- `Utils.GetDate`: digits are the ASCII digits. `strptime` also accepts other Unicode decimal
  digits.
- `Reports.IsoDate`: the year is always written with four digits. For years below 1000 the
  platform's `strftime` may write fewer.
- `Views.Greeting` takes the hour of a `datetime.time` rather than the time itself. Minutes and
  seconds play no part in the source's thresholds.
