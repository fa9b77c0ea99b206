/** src/reports.py: the spending report of one category over the three months
    that end on a given day, and the name of the JSON file the report
    decorator writes it to. */
module Reports {
  import opened Common
  import opened Calendar
  import opened Utils
  import opened Transactions

  // ---------------------------------------------------------------------
  // the reporting window
  // ---------------------------------------------------------------------

  /** The last day of the report: the given `dd.mm.yyyy` day, or `today` when
      no day is given or it does not parse (the failure is only logged). */
  function ReportEnd(date: Option<string>, today: Date): (end: Date)
    requires Valid(today)
    ensures Valid(end)
    ensures date.None? ==> end == today
    ensures date.Some? && GetDate(date.value).None? ==> end == today
    ensures date.Some? && GetDate(date.value).Some? ==> end == GetDate(date.value).value
  {
    match date
    case None => today
    case Some(s) => GetDate(s).GetOr(today)
  }

  /** The first day of the report window, computed as the source does: step
      back one day, set the month to `(month + 9) % 12`, and if that lands
      after the end day, move it to the previous year. `None` where one of
      these steps raises (`OverflowError` or `ValueError`), which propagates
      out of the report. */
  function WindowStart(end: Date): Option<Date>
    requires Valid(end)
  {
    match PrevDay(end)
    case None => None
    case Some(p) =>
      match ReplaceMonth(p, (p.month + 9) % 12)
      case None => None
      case Some(s) => if Before(end, s) then ReplaceYear(s, end.year - 1) else Some(s)
  }

  /** The month `(m + 9) % 12` names: three months back, except that March
      gives 0. */
  lemma TargetMonth(m: int)
    requires 1 <= m <= 12
    ensures (m + 9) % 12 == if m <= 2 then m + 9 else m - 3
  {
  }

  /** The months elapsed since January of year 0. */
  function MonthIndex(d: Date): int {
    d.year * 12 + d.month - 1
  }

  /** The end days for which the window computation raises, stated on the day
      before the end: that day is in March (month 0 does not exist); in May
      with a day February of its year does not have; on the 31st of July or
      December (April and September have 30 days); in January or February of
      year 1 (year 0 does not exist); or there is no day before the end. */
  predicate WindowRaises(end: Date)
    requires Valid(end)
  {
    match PrevDay(end)
    case None => true
    case Some(p) =>
      || p.month == 3
      || (p.month == 5 && p.day > DaysInMonth(p.year, 2))
      || ((p.month == 7 || p.month == 12) && p.day == 31)
      || (p.month <= 2 && p.year == MinYear)
  }

  /** The window computation fails exactly on the days `WindowRaises` lists. */
  lemma WindowStartFails(end: Date)
    requires Valid(end)
    ensures WindowStart(end).None? <==> WindowRaises(end)
  {
    if PrevDay(end).Some? {
      if PrevDay(end).value.month <= 2 {
        WindowStartWinter(end);
      } else {
        WindowStartLater(end);
      }
    }
  }

  /** A day before the end in January or February is moved to October or
      November of the year before, which exists unless that is year 0. */
  lemma WindowStartWinter(end: Date)
    requires Valid(end) && PrevDay(end).Some? && PrevDay(end).value.month <= 2
    ensures WindowStart(end).None? <==> PrevDay(end).value.year == MinYear
  {
    var p := PrevDay(end).value;
    PrevDayInYear(end);
    TargetMonth(p.month);
    assert end.year == p.year;
    assert p.day <= DaysInMonth(p.year, p.month + 9) && p.day <= DaysInMonth(p.year - 1, p.month + 9);
    var s := ReplaceMonth(p, p.month + 9).value;
    assert Before(end, s);
  }

  /** A day before the end from March on is moved three months back in its
      own year, which fails for March (month 0) and for days the target
      month does not have. */
  lemma WindowStartLater(end: Date)
    requires Valid(end) && PrevDay(end).Some? && PrevDay(end).value.month > 2
    ensures var p := PrevDay(end).value;
      WindowStart(end).None? <==> p.month == 3 || p.day > DaysInMonth(p.year, p.month - 3)
  {
    var p := PrevDay(end).value;
    PrevDayInYear(end);
    TargetMonth(p.month);
    if ReplaceMonth(p, p.month - 3).Some? {
      assert !Before(end, ReplaceMonth(p, p.month - 3).value);
    }
  }

  /** The day before the end falls in the end's own year unless the end is
      the first of January. */
  lemma PrevDayInYear(end: Date)
    requires Valid(end) && PrevDay(end).Some?
    ensures var p := PrevDay(end).value;
      && (p.year == end.year || (end.month == 1 && end.day == 1 && p.year == end.year - 1 && p.month == 12 && p.day == 31))
      && (p.year == end.year ==> p.month == end.month || (p.month == end.month - 1 && end.day == 1))
  {
  }

  /** When the window exists it starts exactly three calendar months before
      the day preceding the end, on the same day of the month, and strictly
      before the end. */
  lemma WindowIsThreeMonths(end: Date)
    requires Valid(end) && WindowStart(end).Some?
    ensures var p := PrevDay(end).value;
            var s := WindowStart(end).value;
      && Valid(s)
      && s.day == p.day
      && MonthIndex(s) == MonthIndex(p) - 3
      && Before(s, end)
  {
    var p := PrevDay(end).value;
    PrevDayInYear(end);
    TargetMonth(p.month);
    var s := WindowStart(end).value;
    assert Before(s, p);
    BeforeIsOrdinalOrder(p, end);
  }

  /** Every report whose end day falls between the 2nd of March and the 1st
      of April (after year 1) raises. */
  lemma WindowRaisesInMarch(end: Date)
    requires Valid(end) && end.year > MinYear
    requires (end.month == 3 && end.day >= 2) || (end.month == 4 && end.day == 1)
    ensures WindowStart(end).None?
  {
    WindowStartFails(end);
  }

  /** The repository's own cases: an ISO-written day is not `dd.mm.yyyy`,
      so the report falls back to today ... */
  lemma ReportEndFallsBack(today: Date)
    requires Valid(today)
    ensures ReportEnd(Some("2025-01-21"), today) == today
  {
    var iso := "2025-01-21";
    assert forall i :: 0 <= i < |iso| ==> iso[i] != '.';
  }

  /** ... while `21.01.2025` is read as written. */
  lemma ReportEndParses(today: Date)
    requires Valid(today)
    ensures ReportEnd(Some(FormatDMY(Date(2025, 1, 21))), today) == Date(2025, 1, 21)
  {
    GetDateExact(Date(2025, 1, 21));
  }

  /** A report ending on 21.01.2025 covers 20.10.2024 to 21.01.2025. */
  lemma WindowExample()
    ensures WindowStart(Date(2025, 1, 21)) == Some(Date(2024, 10, 20))
  {
    assert PrevDay(Date(2025, 1, 21)) == Some(Date(2025, 1, 20));
    assert ReplaceMonth(Date(2025, 1, 20), 10) == Some(Date(2025, 10, 20));
    assert ReplaceYear(Date(2025, 10, 20), 2024) == Some(Date(2024, 10, 20));
  }

  // ---------------------------------------------------------------------
  // spending_by_category
  // ---------------------------------------------------------------------

  /** The columns `spending_by_category` reads. */
  const ReportColumns: set<Column> := {PaymentDate, Status, PaymentAmount, Category}

  /** What a call of `spending_by_category` ends in: an exception escaping it,
      or a returned frame. */
  datatype Outcome = Raised | Returned(frame: Frame)

  /** The empty `pd.DataFrame()` returned when a step fails. */
  const EmptyFrame: Frame := Frame({}, [])

  /** A completed debit of `category` paid within `[start, end]`. */
  predicate InReport(t: Transaction, category: string, start: Date, end: Date) {
    t.status == StatusOk && t.paymentAmount < 0.0 && t.category == category && PaidWithin(t, start, end)
  }

  /** The boolean mask of `spending_by_category`. */
  function ReportMask(category: string, start: Date, end: Date): Transaction -> bool {
    t => InReport(t, category, start, end)
  }

  /** `spending_by_category(transactions, category, date)` run on day `today`. */
  function SpendingByCategory(f: Frame, category: string, date: Option<string>, today: Date): Outcome
    requires Valid(today)
  {
    var end := ReportEnd(date, today);
    match WindowStart(end)
    case None => Raised
    case Some(start) =>
      if !(ReportColumns <= f.columns) || !DatesParse(f.rows) then Returned(EmptyFrame)
      else Returned(Frame(f.columns, Select(f.rows, ReportMask(category, start, end))))
  }

  /** The report raises exactly when its window does, and otherwise returns
      the input's columns and, in their original order and each as often as
      in the input, exactly the completed debits of the category paid within
      the window that ends on the given day (or today); a missing column or a
      payment date the column parse refuses gives the empty frame instead. */
  lemma SpendingByCategoryRows(f: Frame, category: string, date: Option<string>, today: Date)
    requires Valid(today)
    ensures var end := ReportEnd(date, today);
            var out := SpendingByCategory(f, category, date, today);
      && (out.Raised? <==> WindowRaises(end))
      && (out.Returned? && !(ReportColumns <= f.columns && DatesParse(f.rows)) ==> out.frame == EmptyFrame)
      && (out.Returned? && ReportColumns <= f.columns && DatesParse(f.rows) ==>
            var start := WindowStart(end).value;
            && out.frame.columns == f.columns
            && IsSubseq(out.frame.rows, f.rows)
            && MonthIndex(start) == MonthIndex(PrevDay(end).value) - 3
            && (forall t :: t in out.frame.rows <==> t in f.rows && InReport(t, category, start, end))
            && forall t :: multiset(out.frame.rows)[t] == if InReport(t, category, start, end) then multiset(f.rows)[t] else 0)
  {
    var end := ReportEnd(date, today);
    WindowStartFails(end);
    if WindowStart(end).Some? {
      WindowIsThreeMonths(end);
    }
  }

  /** A row whose payment date pandas reads as `NaT` drops out of the
      report: adding it to the frame leaves the outcome as it was. */
  lemma SpendingByCategorySkipsNaT(f: Frame, t: Transaction, category: string, date: Option<string>, today: Date)
    requires Valid(today) && t.paymentDate in NatTexts
    ensures SpendingByCategory(Frame(f.columns, f.rows + [t]), category, date, today) == SpendingByCategory(f, category, date, today)
  {
    var end := ReportEnd(date, today);
    NaTRowParses(f.rows, t);
    if WindowStart(end).Some? {
      var start := WindowStart(end).value;
      SelectSkipsLast(f.rows, t, ReportMask(category, start, end));
      var g := Frame(f.columns, f.rows + [t]);
      assert SpendingByCategory(g, category, date, today) ==
        if !(ReportColumns <= f.columns) || !DatesParse(f.rows) then Returned(EmptyFrame)
        else Returned(Frame(f.columns, Select(f.rows, ReportMask(category, start, end))));
    }
  }

  // ---------------------------------------------------------------------
  // write_report
  // ---------------------------------------------------------------------

  /** `date.strftime("%Y-%m-%d")`. */
  function IsoDate(d: Date): (s: string)
    requires Valid(d)
    ensures |s| == 10 && s[4] == '-' && s[7] == '-'
    ensures AllDigits(s[..4]) && AllDigits(s[5..7]) && AllDigits(s[8..])
  {
    Pad4(d.year) + "-" + Pad2(d.month) + "-" + Pad2(d.day)
  }

  /** The written date reads back as the same year, month and day. */
  lemma IsoDateRoundTrip(d: Date)
    requires Valid(d)
    ensures var s := IsoDate(d);
      DigitsValue(s[..4]) == d.year && DigitsValue(s[5..7]) == d.month && DigitsValue(s[8..]) == d.day
  {
    var s := IsoDate(d);
    assert s[..4] == Pad4(d.year);
    assert s[5..7] == Pad2(d.month);
    assert s[8..] == Pad2(d.day);
    Pad4Value(d.year);
    Pad2Value(d.month);
    Pad2Value(d.day);
  }

  /** The file `write_report(filename)` writes the result of function `name`
      to, on day `today`. */
  function ReportFilename(name: string, filename: Option<string>, today: Date): (path: string)
    requires Valid(today)
    ensures filename.Some? ==> path == filename.value
    ensures filename.None? ==>
      && |path| == |name| + 21
      && path[..5] == "data/"
      && path[5..5 + |name|] == name
      && path[5 + |name|] == '_'
      && path[6 + |name|..16 + |name|] == IsoDate(today)
      && path[16 + |name|..] == ".json"
  {
    match filename
    case Some(given) => given
    case None => "data/" + name + "_" + IsoDate(today) + ".json"
  }
}
