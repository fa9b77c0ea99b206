/** The transaction export as the views and the report see it: a pandas
    DataFrame becomes a set of column names and a sequence of rows, and a
    boolean-mask `df.loc[...]` becomes `Select`, a stable filter. */
module Transactions {
  import opened Common
  import opened Calendar
  import opened Utils

  /** The columns of the export that the core reads. */
  datatype Column =
    | PaymentDate      // "Дата платежа"
    | CardNumber       // "Номер карты"
    | Status           // "Статус"
    | PaymentAmount    // "Сумма платежа"
    | PaymentCurrency  // "Валюта платежа"
    | Cashback         // "Кэшбэк"
    | Category         // "Категория"
    | Description      // "Описание"

  /** One row of the export; a field whose column the frame lacks is never read. */
  datatype Transaction = Transaction(
    paymentDate: string,
    cardNumber: string,
    status: string,
    paymentAmount: real,
    paymentCurrency: string,
    cashback: real,
    category: string,
    description: string)

  /** A DataFrame: the columns it has and its rows in order. */
  datatype Frame = Frame(columns: set<Column>, rows: seq<Transaction>)

  /** The status value of a completed operation. */
  const StatusOk: string := "OK"

  /** One value of the column `pd.to_datetime(df["Дата платежа"],
      format="%d.%m.%Y")` returns: a missing date (`NaT`) or a day. */
  datatype Stamp = NaT | Day(date: Date)

  /** The texts pandas reads as a missing date instead of parsing them; an
      empty cell of the sheet is the empty text. */
  const NatTexts: set<string> := {"", "NaT", "nat", "NAT", "nan", "NaN", "NAN"}

  /** The days a nanosecond `Timestamp` can hold at midnight: from 1677-09-22
      to 2262-04-11. */
  predicate InTimestampRange(d: Date) {
    AtOrBefore(Date(1677, 9, 22), d) && AtOrBefore(d, Date(2262, 4, 11))
  }

  /** How the column parse reads one payment date: `NaT` for a missing-date
      text, the day `strptime` reads, or `None` where pandas raises for the
      whole column (a text `strptime` refuses, or a day outside the
      `Timestamp` range, `OutOfBoundsDatetime`). */
  function ColumnDate(s: string): (r: Option<Stamp>)
    ensures r == Some(NaT) <==> s in NatTexts
    ensures r.Some? && r.value.Day? <==> s !in NatTexts && GetDate(s).Some? && InTimestampRange(GetDate(s).value)
    ensures r.Some? && r.value.Day? ==> r.value.date == GetDate(s).value && Valid(r.value.date)
  {
    if s in NatTexts then Some(NaT)
    else
      match GetDate(s)
      case None => None
      case Some(d) => if InTimestampRange(d) then Some(Day(d)) else None
  }

  /** The column parse succeeds: it raises for the whole column as soon as
      one value does. */
  predicate DatesParse(rows: seq<Transaction>) {
    forall i :: 0 <= i < |rows| ==> ColumnDate(rows[i].paymentDate).Some?
  }

  /** A `NaT` row leaves the column parse as it was. */
  lemma NaTRowParses(rows: seq<Transaction>, t: Transaction)
    requires t.paymentDate in NatTexts
    ensures DatesParse(rows + [t]) <==> DatesParse(rows)
  {
    assert forall i :: 0 <= i < |rows| ==> (rows + [t])[i] == rows[i];
    assert ColumnDate((rows + [t])[|rows|].paymentDate).Some?;
  }

  /** The row's parsed payment date lies in `[start, end]`, both ends
      included; a `NaT` compares false both ways, so its row is never kept. */
  predicate PaidWithin(t: Transaction, start: Date, end: Date) {
    match ColumnDate(t.paymentDate)
    case Some(Day(d)) => AtOrBefore(start, d) && AtOrBefore(d, end)
    case _ => false
  }

  /** `frame.loc[mask]`: the rows for which `keep` holds, in their original
      order, each as often as in the frame. */
  function Select(rows: seq<Transaction>, keep: Transaction -> bool): (r: seq<Transaction>)
    ensures IsSubseq(r, rows)
    ensures forall t :: t in r <==> t in rows && keep(t)
    ensures forall t :: multiset(r)[t] == if keep(t) then multiset(rows)[t] else 0
    decreases |rows|
  {
    if rows == [] then []
    else
      var init, last := rows[..|rows| - 1], rows[|rows| - 1];
      assert rows == init + [last];
      var kept := Select(init, keep);
      if keep(last) then
        SubseqKeep(kept, init, last);
        kept + [last]
      else
        SubseqSkip(kept, init, last);
        kept
  }

  /** A row the mask rejects, appended to a frame, changes no selection. */
  lemma SelectSkipsLast(rows: seq<Transaction>, t: Transaction, keep: Transaction -> bool)
    requires !keep(t)
    ensures Select(rows + [t], keep) == Select(rows, keep)
  {
    assert (rows + [t])[..|rows|] == rows;
  }

  /** `frame.apply(f, axis=1)` for a row function that can fail: the values
      row by row, or `None` as soon as one row fails. */
  function ApplyRows<B>(rows: seq<Transaction>, f: Transaction -> Option<B>): (r: Option<seq<B>>)
    ensures r.Some? <==> forall i :: 0 <= i < |rows| ==> f(rows[i]).Some?
    ensures r.Some? ==> |r.value| == |rows| && forall i :: 0 <= i < |rows| ==> r.value[i] == f(rows[i]).value
    decreases |rows|
  {
    if rows == [] then Some([])
    else
      var init := rows[..|rows| - 1];
      match ApplyRows(init, f)
      case None =>
        assert exists i :: 0 <= i < |init| && f(init[i]).None?;
        None
      case Some(vs) =>
        match f(rows[|rows| - 1])
        case None => None
        case Some(b) => Some(vs + [b])
  }
}
