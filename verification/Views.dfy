/** The dashboard sections of src/views.py: the greeting, spending and
    cashback per card for the month to date, the five largest transactions of
    the month to date, and the user's preferred currency rates. Each section
    is fail-soft: a missing column or a payment date the column parse refuses
    yields an empty list. The model also empties a section when a conversion
    rate is missing, where pandas would carry a NaN through. */
module Views {
  import opened Common
  import opened Calendar
  import opened Utils
  import opened Transactions

  // ---------------------------------------------------------------------
  // greeting
  // ---------------------------------------------------------------------

  const GoodNight: string := "Доброй ночи"
  const GoodMorning: string := "Доброе утро"
  const GoodDay: string := "Добрый день"
  const GoodEvening: string := "Добрый вечер"

  /** The greeting of each six-hour quarter of the day, from midnight on. */
  const Greetings: seq<string> := [GoodNight, GoodMorning, GoodDay, GoodEvening]

  /** `greeting(time)` for a time whose hour is `hour` (0 to 23). */
  function Greeting(hour: nat): (r: string)
    requires hour < 24
    ensures r == Greetings[hour / 6]
  {
    if hour < 6 then GoodNight
    else if hour < 12 then GoodMorning
    else if hour < 18 then GoodDay
    else GoodEvening
  }

  // ---------------------------------------------------------------------
  // get_cards_info
  // ---------------------------------------------------------------------

  /** `CardType`: the masked card, roubles spent and cashback earned. */
  datatype Card = Card(lastDigits: string, totalSpent: real, cashback: real)

  /** The columns `get_cards_info` reads. */
  const CardColumns: set<Column> := {PaymentDate, CardNumber, Status, PaymentAmount, PaymentCurrency, Cashback}

  /** A completed debit paid within `[start, end]`. */
  predicate IsCardSpend(t: Transaction, start: Date, end: Date) {
    t.status == StatusOk && t.paymentAmount < 0.0 && PaidWithin(t, start, end)
  }

  /** The boolean mask of `get_cards_info`. */
  function SpendMask(start: Date, end: Date): Transaction -> bool {
    t => IsCardSpend(t, start, end)
  }

  /** The rows `get_cards_info` aggregates: debits of the month up to `date`,
      in order, each as often as in the frame. */
  function MonthSpending(f: Frame, date: Date): (rows: seq<Transaction>)
    requires Valid(date)
    ensures IsSubseq(rows, f.rows)
    ensures forall t :: t in rows <==> t in f.rows && IsCardSpend(t, FirstOfMonth(date), date)
    ensures forall t :: multiset(rows)[t] == if IsCardSpend(t, FirstOfMonth(date), date) then multiset(f.rows)[t] else 0
  {
    Select(f.rows, SpendMask(FirstOfMonth(date), date))
  }

  /** A row's payment and cashback, both converted at the row's payment date
      in the payment currency. */
  datatype Converted = Converted(card: string, spent: real, cashback: real)

  /** The two `exchange` calls on one row: they fail exactly when the row's
      currency is not the rouble and the lookup has no rate for it on the
      row's payment date; otherwise the row keeps its card, and its payment
      and cashback are each converted at that rate. */
  function ConvertRow(t: Transaction, rate: RateLookup): (r: Option<Converted>)
    ensures r.Some? <==>
      && GetDate(t.paymentDate).Some?
      && (t.paymentCurrency == ReportingCurrency || rate(t.paymentCurrency, GetDate(t.paymentDate).value).Some?)
    ensures r.Some? ==>
      var d := GetDate(t.paymentDate).value;
      && r.value.card == t.cardNumber
      && r.value.spent == Exchange(t.paymentAmount, t.paymentCurrency, d, rate).value
      && r.value.cashback == Exchange(t.cashback, t.paymentCurrency, d, rate).value
  {
    match GetDate(t.paymentDate)
    case None => None
    case Some(d) =>
      match (Exchange(t.paymentAmount, t.paymentCurrency, d, rate), Exchange(t.cashback, t.paymentCurrency, d, rate))
      case (Some(a), Some(c)) => Some(Converted(t.cardNumber, a, c))
      case _ => None
  }

  /** The month's debits, each converted, or `None` when a rate is missing. */
  function MonthConverted(f: Frame, date: Date, rate: RateLookup): (r: Option<seq<Converted>>)
    requires Valid(date)
    ensures var rows := MonthSpending(f, date);
      && (r.Some? <==> forall i :: 0 <= i < |rows| ==> ConvertRow(rows[i], rate).Some?)
      && (r.Some? ==> |r.value| == |rows| && forall i :: 0 <= i < |rows| ==> r.value[i] == ConvertRow(rows[i], rate).value)
  {
    ApplyRows(MonthSpending(f, date), t => ConvertRow(t, rate))
  }

  function Spent(c: Converted): real { c.spent }
  function EarnedCashback(c: Converted): real { c.cashback }

  /** Sum of `part` over the converted rows of one card. */
  function SumFor(conv: seq<Converted>, card: string, part: Converted -> real): real
    decreases |conv|
  {
    if conv == [] then 0.0
    else
      var last := conv[|conv| - 1];
      SumFor(conv[..|conv| - 1], card, part) + (if last.card == card then part(last) else 0.0)
  }

  /** Sum of `part` over all converted rows. */
  function SumAll(conv: seq<Converted>, part: Converted -> real): real
    decreases |conv|
  {
    if conv == [] then 0.0 else SumAll(conv[..|conv| - 1], part) + part(conv[|conv| - 1])
  }

  /** Sum over the given card keys of each card's own sum. */
  function SumOverKeys(keys: seq<string>, conv: seq<Converted>, part: Converted -> real): real
    decreases |keys|
  {
    if keys == [] then 0.0 else SumFor(conv, keys[0], part) + SumOverKeys(keys[1..], conv, part)
  }

  predicate StrictlyAscending(keys: seq<string>) {
    forall i, j :: 0 <= i < j < |keys| ==> StrLess(keys[i], keys[j])
  }

  lemma ConsAscending(h: string, s: seq<string>)
    requires StrictlyAscending(s)
    requires forall x :: x in s ==> StrLess(h, x)
    ensures StrictlyAscending([h] + s)
  {
    forall i, j | 0 <= i < j < |[h] + s|
      ensures StrLess(([h] + s)[i], ([h] + s)[j])
    {
      if i > 0 {
        assert ([h] + s)[i] == s[i - 1] && ([h] + s)[j] == s[j - 1];
      } else {
        assert ([h] + s)[j] in s;
      }
    }
  }

  /** Insertion of a key into a strictly ascending key list (a no-op when it
      is there already). */
  function InsertKey(keys: seq<string>, k: string): (r: seq<string>)
    requires StrictlyAscending(keys)
    ensures StrictlyAscending(r)
    ensures forall x :: x in r <==> x in keys || x == k
    decreases |keys|
  {
    if keys == [] then [k]
    else if keys[0] == k then keys
    else if StrLess(k, keys[0]) then
      assert keys == [keys[0]] + keys[1..];
      assert forall x :: x in keys ==> StrLess(k, x) by {
        forall x | x in keys ensures StrLess(k, x) {
          if x != keys[0] {
            var j :| 0 <= j < |keys| && keys[j] == x;
            StrLessTransitive(k, keys[0], x);
          }
        }
      }
      ConsAscending(k, keys);
      [k] + keys
    else
      StrLessTotal(k, keys[0]);
      var rest := InsertKey(keys[1..], k);
      assert forall x :: x in rest ==> StrLess(keys[0], x) by {
        forall x | x in rest ensures StrLess(keys[0], x) {
          if x != k {
            var j :| 0 <= j < |keys[1..]| && keys[1..][j] == x;
            assert keys[j + 1] == x;
          }
        }
      }
      ConsAscending(keys[0], rest);
      assert keys == [keys[0]] + keys[1..];
      [keys[0]] + rest
  }

  /** The group keys of `groupby("Номер карты")`: the distinct card numbers,
      ascending. */
  function CardKeys(conv: seq<Converted>): (keys: seq<string>)
    ensures StrictlyAscending(keys)
    decreases |conv|
  {
    if conv == [] then [] else InsertKey(CardKeys(conv[..|conv| - 1]), conv[|conv| - 1].card)
  }

  /** One `CardType` per group key, in key order. */
  function CardsOf(conv: seq<Converted>): seq<Card> {
    var keys := CardKeys(conv);
    seq(|keys|, i requires 0 <= i < |keys| =>
      Card(MaskCard(keys[i]), -SumFor(conv, keys[i], Spent), SumFor(conv, keys[i], EarnedCashback)))
  }

  /** What `get_cards_info(df, date, get_currency_rate)` returns. */
  function CardsInfo(f: Frame, date: Date, rate: RateLookup): seq<Card>
    requires Valid(date)
  {
    if !(CardColumns <= f.columns) || !DatesParse(f.rows) then []
    else
      match MonthConverted(f, date, rate)
      case None => []
      case Some(conv) => CardsOf(conv)
  }

  /** `get_cards_info`: filter, convert, group, and append one entry per card. */
  method GetCardsInfo(f: Frame, date: Date, rate: RateLookup) returns (cards: seq<Card>)
    requires Valid(date)
    ensures cards == CardsInfo(f, date, rate)
  {
    cards := [];
    if !(CardColumns <= f.columns) || !DatesParse(f.rows) {
      return;
    }
    var spending := MonthSpending(f, date);
    if spending == [] {
      return;
    }
    var converted := MonthConverted(f, date, rate);
    if converted.None? {
      return;
    }
    cards := AppendCards(converted.value);
  }

  /** The loop of `get_cards_info` that appends one entry per group. */
  method AppendCards(conv: seq<Converted>) returns (cards: seq<Card>)
    ensures cards == CardsOf(conv)
  {
    cards := [];
    var keys := CardKeys(conv);
    var i := 0;
    while i < |keys|
      invariant 0 <= i <= |keys|
      invariant cards == CardsOf(conv)[..i]
    {
      var k := keys[i];
      cards := cards + [Card(MaskCard(k), -SumFor(conv, k, Spent), SumFor(conv, k, EarnedCashback))];
      i := i + 1;
    }
  }

  /** The group keys are exactly the card numbers that occur. */
  lemma {:induction false} CardKeysMembers(conv: seq<Converted>)
    ensures forall k :: k in CardKeys(conv) <==> exists c :: c in conv && c.card == k
    decreases |conv|
  {
    if conv != [] {
      var init := conv[..|conv| - 1];
      CardKeysMembers(init);
      assert conv == init + [conv[|conv| - 1]];
    }
  }

  lemma {:induction false} SumOverKeysSnoc(keys: seq<string>, conv: seq<Converted>, c: Converted, part: Converted -> real)
    requires forall i, j :: 0 <= i < j < |keys| ==> keys[i] != keys[j]
    ensures SumOverKeys(keys, conv + [c], part)
            == SumOverKeys(keys, conv, part) + (if c.card in keys then part(c) else 0.0)
    decreases |keys|
  {
    if keys != [] {
      assert (conv + [c])[..|conv|] == conv;
      SumOverKeysSnoc(keys[1..], conv, c, part);
      if c.card == keys[0] {
        assert c.card !in keys[1..];
      }
    }
  }

  /** Summing card by card over distinct keys that cover every row gives the
      sum over all rows: no row is lost or counted twice by the grouping. */
  lemma {:induction false} SumOverKeysTotal(keys: seq<string>, conv: seq<Converted>, part: Converted -> real)
    requires forall i, j :: 0 <= i < j < |keys| ==> keys[i] != keys[j]
    requires forall c :: c in conv ==> c.card in keys
    ensures SumOverKeys(keys, conv, part) == SumAll(conv, part)
    decreases |conv|
  {
    if conv == [] {
      SumOverKeysEmpty(keys, part);
    } else {
      var init, last := conv[..|conv| - 1], conv[|conv| - 1];
      assert conv == init + [last];
      SumOverKeysTotal(keys, init, part);
      SumOverKeysSnoc(keys, init, last, part);
    }
  }

  lemma {:induction false} SumOverKeysEmpty(keys: seq<string>, part: Converted -> real)
    ensures SumOverKeys(keys, [], part) == 0.0
    decreases |keys|
  {
    if keys != [] {
      SumOverKeysEmpty(keys[1..], part);
    }
  }

  function TotalSpentOf(cards: seq<Card>): real
    decreases |cards|
  {
    if cards == [] then 0.0 else cards[0].totalSpent + TotalSpentOf(cards[1..])
  }

  function TotalCashbackOf(cards: seq<Card>): real
    decreases |cards|
  {
    if cards == [] then 0.0 else cards[0].cashback + TotalCashbackOf(cards[1..])
  }

  lemma {:induction false} CardSumsAreKeySums(cards: seq<Card>, keys: seq<string>, conv: seq<Converted>)
    requires |cards| == |keys|
    requires forall i :: 0 <= i < |cards| ==>
      cards[i].totalSpent == -SumFor(conv, keys[i], Spent) && cards[i].cashback == SumFor(conv, keys[i], EarnedCashback)
    ensures TotalSpentOf(cards) == -SumOverKeys(keys, conv, Spent)
    ensures TotalCashbackOf(cards) == SumOverKeys(keys, conv, EarnedCashback)
    decreases |cards|
  {
    if cards != [] {
      CardSumsAreKeySums(cards[1..], keys[1..], conv);
    }
  }

  /** Card totals add up: over all cards, `total_spent` sums to the negated sum
      of all converted payments and `cashback` to the sum of all converted
      cashback. */
  lemma CardsOfTotals(conv: seq<Converted>)
    ensures TotalSpentOf(CardsOf(conv)) == -SumAll(conv, Spent)
    ensures TotalCashbackOf(CardsOf(conv)) == SumAll(conv, EarnedCashback)
  {
    var keys := CardKeys(conv);
    CardKeysMembers(conv);
    forall i, j | 0 <= i < j < |keys| ensures keys[i] != keys[j] {
      if keys[i] == keys[j] {
        StrLessIrreflexive(keys[i]);
      }
    }
    CardSumsAreKeySums(CardsOf(conv), keys, conv);
    SumOverKeysTotal(keys, conv, Spent);
    SumOverKeysTotal(keys, conv, EarnedCashback);
  }

  /** `get_cards_info` has one entry per distinct card number among the month's
      completed debits, in ascending card-number order, each carrying the last
      four characters of its card number. */
  lemma CardsInfoOnePerCard(f: Frame, date: Date, rate: RateLookup)
    requires Valid(date) && CardColumns <= f.columns && DatesParse(f.rows)
    requires MonthConverted(f, date, rate).Some?
    ensures var keys := CardKeys(MonthConverted(f, date, rate).value);
            var cards := CardsInfo(f, date, rate);
      && |cards| == |keys|
      && StrictlyAscending(keys)
      && (forall k :: k in keys <==>
            exists t :: t in f.rows && IsCardSpend(t, FirstOfMonth(date), date) && t.cardNumber == k)
      && (forall i :: 0 <= i < |cards| ==> cards[i].lastDigits == MaskCard(keys[i]))
  {
    var rows := MonthSpending(f, date);
    var conv := MonthConverted(f, date, rate).value;
    CardKeysMembers(conv);
    ConvertedCards(rows, conv, rate);
    forall k ensures k in CardKeys(conv) <==> k in RowCardSet(rows) {
      assert k in CardKeys(conv) <==> k in CardSet(conv);
    }
  }

  /** The card numbers of converted rows. */
  function CardSet(conv: seq<Converted>): set<string> {
    set c | c in conv :: c.card
  }

  /** The card numbers of rows. */
  function RowCardSet(rows: seq<Transaction>): set<string> {
    set t | t in rows :: t.cardNumber
  }

  /** Converting rows keeps each row's card number. */
  lemma ConvertedCards(rows: seq<Transaction>, conv: seq<Converted>, rate: RateLookup)
    requires |conv| == |rows|
    requires forall i :: 0 <= i < |rows| ==> ConvertRow(rows[i], rate).Some? && conv[i] == ConvertRow(rows[i], rate).value
    ensures CardSet(conv) == RowCardSet(rows)
  {
    forall k | k in CardSet(conv) ensures k in RowCardSet(rows) {
      var c :| c in conv && c.card == k;
      var i :| 0 <= i < |conv| && conv[i] == c;
      assert rows[i] in rows;
    }
    forall k | k in RowCardSet(rows) ensures k in CardSet(conv) {
      var t :| t in rows && t.cardNumber == k;
      var i :| 0 <= i < |rows| && rows[i] == t;
      assert conv[i] in conv;
    }
  }

  /** Each converted row is one of the month's completed debits with its card
      number, and its payment and cashback converted into roubles at its own
      payment date. */
  lemma CardRowsAreConverted(f: Frame, date: Date, rate: RateLookup)
    requires Valid(date) && MonthConverted(f, date, rate).Some?
    ensures var rows := MonthSpending(f, date);
            var conv := MonthConverted(f, date, rate).value;
      && |conv| == |rows|
      && forall i :: 0 <= i < |rows| ==>
        && IsCardSpend(rows[i], FirstOfMonth(date), date)
        && conv[i].card == rows[i].cardNumber
        && conv[i].spent == Exchange(rows[i].paymentAmount, rows[i].paymentCurrency, GetDate(rows[i].paymentDate).value, rate).value
        && conv[i].cashback == Exchange(rows[i].cashback, rows[i].paymentCurrency, GetDate(rows[i].paymentDate).value, rate).value
  {
    var rows := MonthSpending(f, date);
    forall i | 0 <= i < |rows| ensures IsCardSpend(rows[i], FirstOfMonth(date), date) {
      assert rows[i] in rows;
    }
  }

  /** At any rates, the cards' `total_spent` add up to minus the month's
      converted payments and their `cashback` to its converted cashback. */
  lemma CardsInfoTotals(f: Frame, date: Date, rate: RateLookup)
    requires Valid(date) && CardColumns <= f.columns && DatesParse(f.rows)
    requires MonthConverted(f, date, rate).Some?
    ensures TotalSpentOf(CardsInfo(f, date, rate)) == -SumAll(MonthConverted(f, date, rate).value, Spent)
    ensures TotalCashbackOf(CardsInfo(f, date, rate)) == SumAll(MonthConverted(f, date, rate).value, EarnedCashback)
  {
    CardsOfTotals(MonthConverted(f, date, rate).value);
  }

  /** With every rate equal to 1 (the repository's own test), the cards'
      `total_spent` add up to the negated sum of the month's completed debits
      and their `cashback` to the sum of those rows' cashback. */
  lemma CardsInfoTotalsAtUnitRate(f: Frame, date: Date, rate: RateLookup)
    requires Valid(date) && CardColumns <= f.columns && DatesParse(f.rows)
    requires forall code, d :: rate(code, d) == Some(1.0)
    ensures TotalSpentOf(CardsInfo(f, date, rate)) == -RowSum(MonthSpending(f, date), true)
    ensures TotalCashbackOf(CardsInfo(f, date, rate)) == RowSum(MonthSpending(f, date), false)
  {
    var rows := MonthSpending(f, date);
    ConvertsAtUnitRate(f, date, rate);
    CardRowsAreConverted(f, date, rate);
    var conv := MonthConverted(f, date, rate).value;
    forall i | 0 <= i < |rows|
      ensures conv[i].spent == rows[i].paymentAmount && conv[i].cashback == rows[i].cashback
    {
      var d := GetDate(rows[i].paymentDate).value;
      ExchangeAtUnitRate(rows[i].paymentAmount, rows[i].paymentCurrency, d, rate);
      ExchangeAtUnitRate(rows[i].cashback, rows[i].paymentCurrency, d, rate);
    }
    CardsInfoTotals(f, date, rate);
    SumAllMatchesRows(conv, rows);
  }

  /** With every rate present, every debit of the month converts. */
  lemma ConvertsAtUnitRate(f: Frame, date: Date, rate: RateLookup)
    requires Valid(date)
    requires forall code, d :: rate(code, d) == Some(1.0)
    ensures MonthConverted(f, date, rate).Some?
  {
    var rows := MonthSpending(f, date);
    forall i | 0 <= i < |rows| ensures ConvertRow(rows[i], rate).Some? {
      assert rows[i] in rows;
    }
  }

  /** At rate 1 an amount converts to itself. */
  lemma ExchangeAtUnitRate(amount: real, code: string, on: Date, rate: RateLookup)
    requires rate(code, on) == Some(1.0)
    ensures Exchange(amount, code, on, rate) == Some(amount)
  {
  }

  /** A row whose payment date pandas reads as `NaT` drops out of the
      section: adding it to the frame leaves the card list as it was. */
  lemma CardsInfoSkipsNaT(f: Frame, t: Transaction, date: Date, rate: RateLookup)
    requires Valid(date) && t.paymentDate in NatTexts
    ensures CardsInfo(Frame(f.columns, f.rows + [t]), date, rate) == CardsInfo(f, date, rate)
  {
    var g := Frame(f.columns, f.rows + [t]);
    NaTRowParses(f.rows, t);
    SelectSkipsLast(f.rows, t, SpendMask(FirstOfMonth(date), date));
    assert MonthSpending(g, date) == MonthSpending(f, date);
  }

  /** Sum of the rows' payment amounts (`amounts`) or cashback (`!amounts`). */
  function RowSum(rows: seq<Transaction>, amounts: bool): real
    decreases |rows|
  {
    if rows == [] then 0.0
    else
      var last := rows[|rows| - 1];
      RowSum(rows[..|rows| - 1], amounts) + (if amounts then last.paymentAmount else last.cashback)
  }

  lemma {:induction false} SumAllMatchesRows(conv: seq<Converted>, rows: seq<Transaction>)
    requires |conv| == |rows|
    requires forall i :: 0 <= i < |rows| ==> conv[i].spent == rows[i].paymentAmount && conv[i].cashback == rows[i].cashback
    ensures SumAll(conv, Spent) == RowSum(rows, true)
    ensures SumAll(conv, EarnedCashback) == RowSum(rows, false)
    decreases |rows|
  {
    if rows != [] {
      SumAllMatchesRows(conv[..|conv| - 1], rows[..|rows| - 1]);
    }
  }

  // ---------------------------------------------------------------------
  // get_top_transactions
  // ---------------------------------------------------------------------

  /** The `Transaction` entry of the dashboard, with the row's own date text
      and its unconverted amount. */
  datatype TopTransaction = TopTransaction(date: string, amount: real, category: string, description: string)

  /** The columns `get_top_transactions` reads. */
  const TopColumns: set<Column> := {PaymentDate, Status, PaymentAmount, PaymentCurrency, Category, Description}

  /** `.head(5)`. */
  const TopCount: nat := 5

  /** A completed operation paid within `[start, end]`, credit or debit. */
  predicate IsTopCandidate(t: Transaction, start: Date, end: Date) {
    t.status == StatusOk && PaidWithin(t, start, end)
  }

  /** The boolean mask of `get_top_transactions`. */
  function TopMask(start: Date, end: Date): Transaction -> bool {
    t => IsTopCandidate(t, start, end)
  }

  /** The rows `get_top_transactions` ranks: completed operations of the
      month up to `date`, debits and credits alike, in order, each as often
      as in the frame. */
  function MonthOperations(f: Frame, date: Date): (rows: seq<Transaction>)
    requires Valid(date)
    ensures IsSubseq(rows, f.rows)
    ensures forall t :: t in rows <==> t in f.rows && IsTopCandidate(t, FirstOfMonth(date), date)
    ensures forall t :: multiset(rows)[t] == if IsTopCandidate(t, FirstOfMonth(date), date) then multiset(f.rows)[t] else 0
  {
    Select(f.rows, TopMask(FirstOfMonth(date), date))
  }

  /** A row with its ranking weight: the absolute value of its amount in roubles. */
  datatype Ranked = Ranked(tx: Transaction, weight: real)

  function Abs(x: real): real {
    if x < 0.0 then -x else x
  }

  function RankRow(t: Transaction, rate: RateLookup): (r: Option<Ranked>)
    ensures r.Some? ==> r.value.tx == t
  {
    match GetDate(t.paymentDate)
    case None => None
    case Some(d) =>
      match Exchange(t.paymentAmount, t.paymentCurrency, d, rate)
      case None => None
      case Some(a) => Some(Ranked(t, Abs(a)))
  }

  /** The month's operations, each ranked, or `None` when a rate is missing. */
  function MonthRanked(f: Frame, date: Date, rate: RateLookup): (r: Option<seq<Ranked>>)
    requires Valid(date)
    ensures var rows := MonthOperations(f, date);
      && (r.Some? <==> forall i :: 0 <= i < |rows| ==> RankRow(rows[i], rate).Some?)
      && (r.Some? ==> |r.value| == |rows| && forall i :: 0 <= i < |rows| ==> r.value[i] == RankRow(rows[i], rate).value)
  {
    ApplyRows(MonthOperations(f, date), t => RankRow(t, rate))
  }

  predicate ByWeightDescending(s: seq<Ranked>) {
    forall i, j :: 0 <= i < j < |s| ==> s[j].weight <= s[i].weight
  }

  /** Putting `h` in front of a sorted list keeps it sorted when `h` weighs
      at least as much as the list's head. */
  lemma ConsByWeight(h: Ranked, s: seq<Ranked>)
    requires ByWeightDescending(s)
    requires s == [] || s[0].weight <= h.weight
    ensures ByWeightDescending([h] + s)
  {
    forall i, j | 0 <= i < j < |[h] + s|
      ensures ([h] + s)[j].weight <= ([h] + s)[i].weight
    {
      if i == 0 {
        assert ([h] + s)[j] == s[j - 1];
      } else {
        assert ([h] + s)[i] == s[i - 1] && ([h] + s)[j] == s[j - 1];
      }
    }
  }

  function InsertByWeight(x: Ranked, s: seq<Ranked>): (r: seq<Ranked>)
    requires ByWeightDescending(s)
    ensures ByWeightDescending(r)
    ensures multiset(r) == multiset(s) + multiset{x}
    ensures |r| > 0 && (r[0] == x || (s != [] && r[0] == s[0]))
    decreases |s|
  {
    if s == [] then [x]
    else if s[0].weight <= x.weight then
      ConsByWeight(x, s);
      [x] + s
    else
      var rest := InsertByWeight(x, s[1..]);
      ConsByWeight(s[0], rest);
      assert s == [s[0]] + s[1..];
      [s[0]] + rest
  }

  /** `sort_values("amount_rub", ascending=False)`: a permutation ordered by
      non-increasing weight (the order among equal weights is not modelled). */
  function SortByWeight(s: seq<Ranked>): (r: seq<Ranked>)
    ensures ByWeightDescending(r)
    ensures multiset(r) == multiset(s)
    decreases |s|
  {
    if s == [] then []
    else
      assert s == [s[0]] + s[1..];
      InsertByWeight(s[0], SortByWeight(s[1..]))
  }

  /** `.sort_values("amount_rub", ascending=False).head(5)`: min(5, n) of the
      n ranked rows, by non-increasing weight, taken from the input, and no row
      left out weighs more than any row kept. */
  function TopOf(ranked: seq<Ranked>): (top: seq<Ranked>)
    ensures |top| == Min(TopCount, |ranked|)
    ensures ByWeightDescending(top)
    ensures multiset(top) <= multiset(ranked)
    ensures NoneHeavier(multiset(ranked) - multiset(top), top)
  {
    var sorted := SortByWeight(ranked);
    var n := Min(TopCount, |sorted|);
    PermutationLength(sorted, ranked);
    SortedPrefix(sorted, n);
    SortedSplit(sorted, n);
    sorted[..n]
  }

  lemma PermutationLength(s: seq<Ranked>, t: seq<Ranked>)
    requires multiset(s) == multiset(t)
    ensures |s| == |t|
  {
    assert |s| == |multiset(s)| && |t| == |multiset(t)|;
  }

  /** A prefix of a weight-sorted list is weight-sorted and drawn from it. */
  lemma SortedPrefix(sorted: seq<Ranked>, n: nat)
    requires ByWeightDescending(sorted) && n <= |sorted|
    ensures ByWeightDescending(sorted[..n])
    ensures multiset(sorted[..n]) <= multiset(sorted)
  {
    assert sorted == sorted[..n] + sorted[n..];
  }

  /** No row of `left` weighs more than any row of `kept`. */
  predicate NoneHeavier(left: multiset<Ranked>, kept: seq<Ranked>) {
    forall x, y :: x in left && y in kept ==> x.weight <= y.weight
  }

  /** Cutting a list sorted by weight after `n` entries: the entries cut off
      weigh no more than any entry kept. */
  lemma SortedSplit(sorted: seq<Ranked>, n: nat)
    requires ByWeightDescending(sorted) && n <= |sorted|
    ensures multiset(sorted) - multiset(sorted[..n]) == multiset(sorted[n..])
    ensures NoneHeavier(multiset(sorted[n..]), sorted[..n])
  {
    assert sorted == sorted[..n] + sorted[n..];
    forall x: Ranked, y: Ranked | x in multiset(sorted[n..]) && y in sorted[..n]
      ensures x.weight <= y.weight
    {
      var a :| 0 <= a < |sorted[n..]| && sorted[n..][a] == x;
      var b :| 0 <= b < n && sorted[..n][b] == y;
      assert sorted[n + a] == x && sorted[b] == y;
    }
  }

  /** The ranked rows `get_top_transactions` keeps, or `None` where it
      returns an empty list because a step failed. */
  function TopRanked(f: Frame, date: Date, rate: RateLookup): Option<seq<Ranked>>
    requires Valid(date)
  {
    if !(TopColumns <= f.columns) || !DatesParse(f.rows) then None
    else
      match MonthRanked(f, date, rate)
      case None => None
      case Some(ranked) => Some(TopOf(ranked))
  }

  /** The output entry of a row: its own date text and unconverted amount. */
  function ToTop(t: Transaction): TopTransaction {
    TopTransaction(t.paymentDate, t.paymentAmount, t.category, t.description)
  }

  function Entries(rs: seq<Ranked>): (r: seq<TopTransaction>)
    ensures |r| == |rs|
    ensures forall i :: 0 <= i < |rs| ==> r[i] == ToTop(rs[i].tx)
    decreases |rs|
  {
    if rs == [] then [] else Entries(rs[..|rs| - 1]) + [ToTop(rs[|rs| - 1].tx)]
  }

  /** What `get_top_transactions(df, date, get_currency_rate)` returns. */
  function TopTransactions(f: Frame, date: Date, rate: RateLookup): seq<TopTransaction>
    requires Valid(date)
  {
    match TopRanked(f, date, rate)
    case None => []
    case Some(top) => Entries(top)
  }

  /** `get_top_transactions`: filter, convert, rank, and append the first five. */
  method GetTopTransactions(f: Frame, date: Date, rate: RateLookup) returns (top: seq<TopTransaction>)
    requires Valid(date)
    ensures top == TopTransactions(f, date, rate)
  {
    top := [];
    if !(TopColumns <= f.columns) || !DatesParse(f.rows) {
      return;
    }
    var operations := MonthOperations(f, date);
    if operations == [] {
      assert TopTransactions(f, date, rate) == Entries(TopOf([]));
      return;
    }
    var ranked := MonthRanked(f, date, rate);
    if ranked.None? {
      return;
    }
    top := AppendEntries(TopOf(ranked.value));
  }

  /** The loop of `get_top_transactions` that appends one entry per kept row. */
  method AppendEntries(chosen: seq<Ranked>) returns (top: seq<TopTransaction>)
    ensures top == Entries(chosen)
  {
    top := [];
    var i := 0;
    while i < |chosen|
      invariant 0 <= i <= |chosen|
      invariant top == Entries(chosen[..i])
    {
      assert chosen[..i + 1][..i] == chosen[..i];
      top := top + [ToTop(chosen[i].tx)];
      i := i + 1;
    }
    assert chosen[..i] == chosen;
  }

  /** When every month operation can be converted, `get_top_transactions`
      returns min(5, n) entries for the month's n completed operations, and
      each entry is one of those operations. */
  lemma TopTransactionsFromMonth(f: Frame, date: Date, rate: RateLookup)
    requires Valid(date) && TopColumns <= f.columns && DatesParse(f.rows)
    requires MonthRanked(f, date, rate).Some?
    ensures |TopTransactions(f, date, rate)| == Min(TopCount, |MonthOperations(f, date)|)
    ensures forall e :: e in TopTransactions(f, date, rate) ==>
      exists t :: t in f.rows && IsTopCandidate(t, FirstOfMonth(date), date) && e == ToTop(t)
  {
    var rows := MonthOperations(f, date);
    TopEntriesFromRows(rows, MonthRanked(f, date, rate).value);
  }

  /** The entries kept from a ranking of `rows` are min(5, n) entries of
      those rows. */
  lemma TopEntriesFromRows(rows: seq<Transaction>, ranked: seq<Ranked>)
    requires |ranked| == |rows| && forall i :: 0 <= i < |rows| ==> ranked[i].tx == rows[i]
    ensures |Entries(TopOf(ranked))| == Min(TopCount, |rows|)
    ensures forall e :: e in Entries(TopOf(ranked)) ==> exists t :: t in rows && e == ToTop(t)
  {
    var top := TopOf(ranked);
    KeptRowsAreRanked(ranked, rows, top);
    forall e | e in Entries(top) ensures exists t :: t in rows && e == ToTop(t) {
      var i :| 0 <= i < |top| && Entries(top)[i] == e;
      assert top[i].tx in rows;
    }
  }

  /** The rows kept from a ranking are rows of the ranking. */
  lemma KeptRowsAreRanked(ranked: seq<Ranked>, rows: seq<Transaction>, top: seq<Ranked>)
    requires |ranked| == |rows| && forall i :: 0 <= i < |rows| ==> ranked[i].tx == rows[i]
    requires multiset(top) <= multiset(ranked)
    ensures forall i :: 0 <= i < |top| ==> top[i].tx in rows
  {
    forall i | 0 <= i < |top| ensures top[i].tx in rows {
      assert top[i] in multiset(ranked);
      var j :| 0 <= j < |ranked| && ranked[j] == top[i];
      assert rows[j] == top[i].tx;
    }
  }

  /** A row whose payment date pandas reads as `NaT` drops out of the
      section: adding it to the frame leaves the top list as it was. */
  lemma TopTransactionsSkipsNaT(f: Frame, t: Transaction, date: Date, rate: RateLookup)
    requires Valid(date) && t.paymentDate in NatTexts
    ensures TopTransactions(Frame(f.columns, f.rows + [t]), date, rate) == TopTransactions(f, date, rate)
  {
    var g := Frame(f.columns, f.rows + [t]);
    NaTRowParses(f.rows, t);
    SelectSkipsLast(f.rows, t, TopMask(FirstOfMonth(date), date));
    assert MonthOperations(g, date) == MonthOperations(f, date);
  }

  /** Every ranked row is a month operation weighted by its absolute amount in
      roubles, converted at its own payment date. */
  lemma RankedRowsAreConverted(f: Frame, date: Date, rate: RateLookup)
    requires Valid(date)
    requires MonthRanked(f, date, rate).Some?
    ensures var rows := MonthOperations(f, date);
            var ranked := MonthRanked(f, date, rate).value;
      forall i :: 0 <= i < |ranked| ==>
        && ranked[i].tx == rows[i]
        && IsTopCandidate(rows[i], FirstOfMonth(date), date)
        && ranked[i].weight == Abs(Exchange(rows[i].paymentAmount, rows[i].paymentCurrency, GetDate(rows[i].paymentDate).value, rate).value)
  {
    var rows := MonthOperations(f, date);
    forall i | 0 <= i < |rows| ensures IsTopCandidate(rows[i], FirstOfMonth(date), date) {
      assert rows[i] in rows;
    }
  }

  // ---------------------------------------------------------------------
  // get_user_prefer_currency_rates
  // ---------------------------------------------------------------------

  /** `Currency`: a code and its rate in roubles. */
  datatype CurrencyRate = CurrencyRate(currency: string, rate: real)

  /** `get_user_prefer_currency_rates(codes, get_currency_rate)` on day `today`:
      one entry per requested code, in request order, with 0.0 where no rate
      is found. Every code is looked up, roubles included. */
  method GetUserPreferCurrencyRates(codes: seq<string>, today: Date, rate: RateLookup) returns (rates: seq<CurrencyRate>)
    ensures |rates| == |codes|
    ensures forall i :: 0 <= i < |codes| ==> rates[i].currency == codes[i]
    ensures forall i :: 0 <= i < |codes| ==>
      rates[i].rate == match rate(codes[i], today) case Some(x) => x case None => 0.0
  {
    rates := [];
    for i := 0 to |codes|
      invariant |rates| == i
      invariant forall k :: 0 <= k < i ==> rates[k].currency == codes[k]
      invariant forall k :: 0 <= k < i ==>
        rates[k].rate == match rate(codes[k], today) case Some(x) => x case None => 0.0
    {
      var found := rate(codes[i], today);
      var value := 0.0;
      if found.Some? {
        value := found.value;
      }
      rates := rates + [CurrencyRate(codes[i], value)];
    }
  }
}
