/** The operations table the reports and views receive as a pandas DataFrame: one row per
    operation with its date, card, amount, cashback, category and description. The date column
    holds either timestamps (after `pd.to_datetime`) or the raw texts read from the spreadsheet. */
module Frames {
  import opened Wrappers
  import opened Calendar
  import opened Lists
  import CalendarFacts
  import Grouping

  /** A cell of the `Дата операции` column. */
  datatype DateCell = Stamp(at: Timestamp) | Text(text: string)

  /** One operation; `amount` (`Сумма операции`) and `cashback` (`Кэшбэк`) in kopecks, a missing
      card number (`Номер карты`) as None. */
  datatype Row = Row(date: DateCell, card: Option<string>, amount: int, cashback: int,
                     category: string, description: string)

  function Dates(rows: seq<Row>): (r: seq<DateCell>)
    ensures |r| == |rows| && forall i :: 0 <= i < |rows| ==> r[i] == rows[i].date
  {
    seq(|rows|, i requires 0 <= i < |rows| => rows[i].date)
  }

  predicate AllStamps(cells: seq<DateCell>)
  {
    forall i :: 0 <= i < |cells| ==> cells[i].Stamp?
  }

  // ---------------------------------------------------------------- parsing the date column

  /** `to_datetime(..., format="%Y-%m-%d")` on one text: the start of that day. */
  function IsoAtMidnight(s: string): (r: Option<Timestamp>)
    ensures r.Some? ==> ValidStamp(r.value) && r.value.hour == 0 && r.value.minute == 0 && r.value.second == 0
  {
    match ParseIso(s)
    case Some(d) => Some(Midnight(d))
    case None => None
  }

  /** Parses every text cell with `parse`; timestamp cells are kept. The whole column fails as
      soon as one text cell fails. */
  function ParseCells(cells: seq<DateCell>, parse: string -> Option<Timestamp>): (r: Option<seq<Timestamp>>)
  {
    if cells == [] then Some([])
    else
      var last := cells[|cells| - 1];
      match (ParseCells(cells[..|cells| - 1], parse), if last.Stamp? then Some(last.at) else parse(last.text))
      case (Some(ts), Some(t)) => Some(ts + [t])
      case _ => None
  }

  /** The date column read as in `spending_by_weekday`: the whole column with `%Y-%m-%d`, and
      only if that raises, the whole column with `%d.%m.%Y %H:%M:%S`. The same reading stands for
      `pd.to_datetime` without a format, which pandas instead infers from the first text and reads
      month first. */
  function ParseDateColumn(cells: seq<DateCell>): Option<seq<Timestamp>>
  {
    match ParseCells(cells, IsoAtMidnight)
    case Some(ts) => Some(ts)
    case None => ParseCells(cells, ParseDayFirst)
  }

  /** The rows with their date column replaced by the parsed timestamps. */
  function WithStamps(rows: seq<Row>, ts: seq<Timestamp>): (r: seq<Row>)
    requires |ts| == |rows|
  {
    seq(|rows|, i requires 0 <= i < |rows| => rows[i].(date := Stamp(ts[i])))
  }

  /** `frame["Дата операции"] = pd.to_datetime(frame["Дата операции"])`; None where it raises. */
  function ConvertedRows(rows: seq<Row>): Option<seq<Row>>
  {
    match ParseDateColumn(Dates(rows))
    case Some(ts) => if |ts| == |rows| then Some(WithStamps(rows, ts)) else None
    case None => None
  }

  /** A DataFrame whose date column the reports and views overwrite in place. */
  class Frame {
    var rows: seq<Row>

    constructor(rows: seq<Row>)
      ensures this.rows == rows
    {
      this.rows := rows;
    }

    /** Converts the date column in place; when parsing raises, the frame is left as it was. */
    method ConvertDates() returns (ok: bool)
      modifies this
      ensures ok == ConvertedRows(old(rows)).Some?
      ensures ok ==> rows == ConvertedRows(old(rows)).value
      ensures !ok ==> rows == old(rows)
    {
      var converted := ConvertedRows(rows);
      if converted.Some? {
        rows := converted.value;
      }
      ok := converted.Some?;
    }
  }

  // ---------------------------------------------------------------- the data window

  function FirstDay(): Timestamp
  {
    Midnight(Date(2018, 1, 1))
  }

  /** `pd.to_datetime("2021-12-31")`: midnight at the start of the last day. */
  function LastDay(): Timestamp
  {
    Midnight(Date(2021, 12, 31))
  }

  /** `start_date <= date <= end_date` with the bounds 2018-01-01 and 2021-12-31. */
  predicate InWindow(t: Timestamp)
  {
    NotAfter(FirstDay(), t) && NotAfter(t, LastDay())
  }

  predicate InWindowRow(r: Row)
  {
    r.date.Stamp? && InWindow(r.date.at)
  }

  /** The `Сумма операции` column. */
  function Amounts(rows: seq<Row>): (r: seq<int>)
    ensures |r| == |rows| && forall i :: 0 <= i < |rows| ==> r[i] == rows[i].amount
  {
    seq(|rows|, i requires 0 <= i < |rows| => rows[i].amount)
  }

  /** Every timestamp in the column is a real moment, as every pandas Timestamp is. */
  predicate ValidDates(rows: seq<Row>)
  {
    forall r :: r in rows ==> r.date.Stamp? ==> ValidStamp(r.date.at)
  }

  // ---------------------------------------------------------------- grouped columns

  /** `ps` pairs some key with the amount of each row, in row order. */
  predicate KeysAmounts<K>(ps: seq<(K, int)>, rows: seq<Row>)
  {
    |ps| == |rows| && forall i :: 0 <= i < |rows| ==> ps[i].1 == rows[i].amount
  }

  /** Grouping a column by a key and summing: the sum and count of the pairs with key `k` are
      the sum and count of the rows `sel` picks, when `sel` picks exactly the rows keyed `k`. */
  lemma {:induction false} SelectedGroup<K(!new)>(ps: seq<(K, int)>, rows: seq<Row>, k: K, sel: Row -> bool)
    requires KeysAmounts(ps, rows)
    requires forall i :: 0 <= i < |rows| ==> (ps[i].0 == k <==> sel(rows[i]))
    ensures Grouping.SumFor(ps, k) == Sum(Amounts(Filter(rows, sel)))
    ensures Grouping.CountFor(ps, k) == |Filter(rows, sel)|
  {
    if rows != [] {
      var n := |rows| - 1;
      var init := rows[..n];
      SelectedGroup(ps[..n], init, k, sel);
      FilterSnoc(init, rows[n], sel);
      assert init + [rows[n]] == rows;
      var f := Filter(init, sel);
      assert Grouping.SumFor(ps, k) == Grouping.SumFor(ps[..n], k) + (if ps[n].0 == k then rows[n].amount else 0);
      if sel(rows[n]) {
        assert Filter(rows, sel) == f + [rows[n]];
        assert Amounts(f + [rows[n]]) == Amounts(f) + [rows[n].amount];
        SumSnoc(Amounts(f), rows[n].amount);
      } else {
        assert Filter(rows, sel) == f;
      }
    }
  }

  /** The sum of all paired amounts is the sum of the column. */
  lemma {:induction false} PairedTotal<K(!new)>(ps: seq<(K, int)>, rows: seq<Row>)
    requires KeysAmounts(ps, rows)
    ensures Grouping.Total(ps) == Sum(Amounts(rows))
  {
    if rows != [] {
      var n := |rows| - 1;
      PairedTotal(ps[..n], rows[..n]);
      assert Amounts(rows)[..n] == Amounts(rows[..n]);
    }
  }

  // ---------------------------------------------------------------- properties

  /** Parsing succeeds exactly when every text cell parses, keeps the column's length, and keeps
      every timestamp cell as it is. */
  lemma {:induction false} ParseCellsSpec(cells: seq<DateCell>, parse: string -> Option<Timestamp>)
    ensures ParseCells(cells, parse).Some? <==>
              forall i :: 0 <= i < |cells| ==> cells[i].Stamp? || parse(cells[i].text).Some?
    ensures ParseCells(cells, parse).Some? ==>
              |ParseCells(cells, parse).value| == |cells| &&
              forall i :: 0 <= i < |cells| ==>
                ParseCells(cells, parse).value[i] ==
                  (if cells[i].Stamp? then cells[i].at else parse(cells[i].text).value)
  {
    if cells != [] {
      var init := cells[..|cells| - 1];
      ParseCellsSpec(init, parse);
      assert forall i :: 0 <= i < |init| ==> init[i] == cells[i];
    }
  }

  /** A column that already holds timestamps comes back unchanged, and so does the frame. */
  lemma {:induction false} StampsConvertToThemselves(rows: seq<Row>)
    requires AllStamps(Dates(rows))
    ensures ConvertedRows(rows) == Some(rows)
  {
    ParseCellsSpec(Dates(rows), IsoAtMidnight);
    assert WithStamps(rows, ParseDateColumn(Dates(rows)).value) == rows;
  }

  /** Conversion leaves every other column as it was and turns every date cell into a timestamp. */
  lemma {:induction false} ConversionKeepsOtherColumns(rows: seq<Row>)
    requires ConvertedRows(rows).Some?
    ensures var c := ConvertedRows(rows).value;
      |c| == |rows| && AllStamps(Dates(c)) &&
      forall i :: 0 <= i < |rows| ==> c[i].(date := rows[i].date) == rows[i]
  {
  }

  /** A column of `%Y-%m-%d` texts reads back as the midnights of those dates. */
  lemma {:induction false} IsoColumnReadsBack(rows: seq<Row>, days: seq<Date>)
    requires |days| == |rows|
    requires forall i :: 0 <= i < |rows| ==> ValidDate(days[i]) && rows[i].date == Text(FormatIso(days[i]))
    ensures ConvertedRows(rows).Some?
    ensures forall i :: 0 <= i < |rows| ==> ConvertedRows(rows).value[i].date == Stamp(Midnight(days[i]))
  {
    forall i | 0 <= i < |rows| ensures IsoAtMidnight(rows[i].date.text) == Some(Midnight(days[i])) {
      CalendarFacts.IsoRoundTrip(days[i]);
    }
    ParseCellsSpec(Dates(rows), IsoAtMidnight);
  }

  /** Conversion turns every cell into a real moment: parsed texts are real dates, and
      timestamps are kept. */
  lemma {:induction false} ConvertedDatesValid(rows: seq<Row>)
    requires ValidDates(rows) && ConvertedRows(rows).Some?
    ensures ValidDates(ConvertedRows(rows).value)
  {
    var c, cells := ConvertedRows(rows).value, Dates(rows);
    var ts := ParseDateColumn(cells).value;
    if ParseCells(cells, IsoAtMidnight).Some? {
      ParsedValid(cells, IsoAtMidnight);
    } else {
      ParsedValid(cells, ParseDayFirst);
    }
    forall r | r in c ensures r.date.Stamp? && ValidStamp(r.date.at) {
      var i :| 0 <= i < |c| && c[i] == r;
      assert rows[i] in rows;
    }
  }

  /** A parser that yields only real moments, applied to a column whose timestamps are real
      moments, yields a column of real moments. */
  lemma {:induction false} ParsedValid(cells: seq<DateCell>, parse: string -> Option<Timestamp>)
    requires forall i :: 0 <= i < |cells| ==> cells[i].Stamp? ==> ValidStamp(cells[i].at)
    requires forall s :: parse(s).Some? ==> ValidStamp(parse(s).value)
    requires ParseCells(cells, parse).Some?
    ensures |ParseCells(cells, parse).value| == |cells|
    ensures forall i :: 0 <= i < |cells| ==> ValidStamp(ParseCells(cells, parse).value[i])
  {
    ParseCellsSpec(cells, parse);
  }

  /** The window is inclusive at both ends, but its upper bound is midnight, so operations later
      on 2021-12-31 fall outside it. */
  lemma {:induction false} LastDayOnlyAtMidnight(t: Timestamp)
    requires t.date == Date(2021, 12, 31) && 0 <= t.hour && 0 <= t.minute && 0 <= t.second
    ensures InWindow(t) <==> t.hour == 0 && t.minute == 0 && t.second == 0
  {
  }

  /** The window is the years 2018 to 2021 as seen at day resolution. */
  lemma {:induction false} WindowByDate(t: Timestamp)
    requires ValidStamp(t) && t.date != Date(2021, 12, 31)
    ensures InWindow(t) <==> 2018 <= t.date.year <= 2021
  {
  }
}
