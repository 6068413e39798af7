/** The spending reports: spend per calendar month for one category, mean spend per weekday
    name and per workday/weekend bucket, all inside the fixed window 2018-01-01 .. 2021-12-31, and
    the `report_to_file` wrapper that saves a report's result under a file name. */
module Reports {
  import opened Wrappers
  import opened Calendar
  import opened Lists
  import opened Grouping
  import opened Frames
  import CalendarFacts

  datatype ReportError =
    | DateParse       // `pd.to_datetime` raises: a date text in none of the accepted formats
    | Incomparable    // a text date is compared with a Timestamp, which raises TypeError
    | DirectoryFailed // creating the reports directory raises

  /** Every row's date is a timestamp. */
  predicate Stamped(rows: seq<Row>)
  {
    forall i :: 0 <= i < |rows| ==> rows[i].date.Stamp?
  }

  /** A filter that keeps only timestamp-dated rows leaves a timestamp-dated table. */
  lemma {:induction false} FilterStamped(rows: seq<Row>, keep: Row -> bool)
    requires forall r :: keep(r) ==> r.date.Stamp?
    ensures Stamped(Filter(rows, keep))
  {
    var f := Filter(rows, keep);
    forall i | 0 <= i < |f| ensures f[i].date.Stamp? {
      assert f[i] in f;
    }
  }

  /** The (key of its date, amount) pair of each row: the two columns `groupby` works on. */
  function DatedPairs<K>(rows: seq<Row>, key: Timestamp -> K): (ps: seq<(K, int)>)
    requires Stamped(rows)
    ensures KeysAmounts(ps, rows)
    ensures forall i :: 0 <= i < |rows| ==> ps[i].0 == key(rows[i].date.at)
  {
    seq(|rows|, i requires 0 <= i < |rows| => (key(rows[i].date.at), rows[i].amount))
  }

  /** The rows dated by a timestamp whose key is `k`. */
  function DatedAs<K(==)>(key: Timestamp -> K, k: K): Row -> bool
  {
    (r: Row) => r.date.Stamp? && key(r.date.at) == k
  }

  /** `(date >= start_date) & (date <= ref_date)`: the rows inside the window, all of them
      dated by timestamps. */
  function InWindowRows(rows: seq<Row>): (r: seq<Row>)
    ensures Stamped(r)
    ensures forall row :: row in r <==> row in rows && InWindowRow(row)
  {
    FilterStamped(rows, InWindowRow);
    Filter(rows, InWindowRow)
  }

  // ---------------------------------------------------------------- spending_by_category

  /** `dt.to_period("M")`: the calendar month of a timestamp. */
  datatype Period = Period(year: int, month: int)

  function MonthOf(t: Timestamp): Period
  {
    Period(t.date.year, t.date.month)
  }

  /** Chronological order of months, the order the groups come in. */
  predicate PeriodLess(a: Period, b: Period)
  {
    a.year < b.year || (a.year == b.year && a.month < b.month)
  }

  lemma PeriodOrder()
    ensures StrictTotalOrder(PeriodLess)
  {
  }

  /** `Категория == category` and the date inside the window. */
  function CategoryTest(category: string): Row -> bool
  {
    (r: Row) => r.category == category && InWindowRow(r)
  }

  function CategoryRows(rows: seq<Row>, category: string): (r: seq<Row>)
    ensures Stamped(r)
  {
    FilterStamped(rows, CategoryTest(category));
    Filter(rows, CategoryTest(category))
  }

  /** The report on the caller's rows: the date column converted, the matching rows grouped by
      month and summed; an error where the conversion raises. */
  function CategorySpending(rows: seq<Row>, category: string): Result<seq<(Period, int)>, ReportError>
  {
    match ConvertedRows(rows)
    case None => Err(DateParse)
    case Some(converted) => Ok(GroupSums(DatedPairs(CategoryRows(converted, category), MonthOf), PeriodLess))
  }

  /** `spending_by_category`: converts the caller's date column in place, then reports. The
      `date` argument is accepted and ignored. */
  method SpendingByCategory(frame: Frame, category: string, date: Option<string>)
    returns (r: Result<seq<(Period, int)>, ReportError>)
    modifies frame
    ensures r == CategorySpending(old(frame.rows), category)
    ensures frame.rows == (if ConvertedRows(old(frame.rows)).Some? then ConvertedRows(old(frame.rows)).value
                           else old(frame.rows))
  {
    var ok := frame.ConvertDates();
    if !ok {
      return Err(DateParse);
    }
    var filtered := CategoryRows(frame.rows, category);
    if filtered == [] {
      return Ok([]);
    }
    r := Ok(GroupSums(DatedPairs(filtered, MonthOf), PeriodLess));
  }

  /** Once the dates convert, the report lists the months of the matching rows in chronological
      order, each month once, with the sum of that month's matching amounts; the months add up to
      the sum of all matching amounts, and no matching row gives an empty report. */
  lemma {:induction false} CategorySpendingSpec(rows: seq<Row>, category: string)
    requires ConvertedRows(rows).Some?
    ensures var m := CategoryRows(ConvertedRows(rows).value, category);
      var r := CategorySpending(rows, category);
      && r.Ok?
      && (forall row :: row in m <==> row in ConvertedRows(rows).value && row.category == category && InWindowRow(row))
      && (forall i, j :: 0 <= i < j < |r.value| ==> PeriodLess(r.value[i].0, r.value[j].0))
      && (forall p :: (exists i :: 0 <= i < |r.value| && r.value[i].0 == p) <==> Filter(m, DatedAs(MonthOf, p)) != [])
      && (forall i :: 0 <= i < |r.value| ==> r.value[i].1 == Sum(Amounts(Filter(m, DatedAs(MonthOf, r.value[i].0)))))
      && Total(r.value) == Sum(Amounts(m))
      && (r.value == [] <==> m == [])
  {
    MonthlySums(CategoryRows(ConvertedRows(rows).value, category));
  }

  /** Rows with timestamps, grouped by month and summed: the months in chronological order, each
      month of a row once, each with the sum of its rows; the months add up to all the rows. */
  lemma {:induction false} MonthlySums(m: seq<Row>)
    requires Stamped(m)
    ensures var r := GroupSums(DatedPairs(m, MonthOf), PeriodLess);
      && (forall i, j :: 0 <= i < j < |r| ==> PeriodLess(r[i].0, r[j].0))
      && (forall p :: (exists i :: 0 <= i < |r| && r[i].0 == p) <==> Filter(m, DatedAs(MonthOf, p)) != [])
      && (forall i :: 0 <= i < |r| ==> r[i].1 == Sum(Amounts(Filter(m, DatedAs(MonthOf, r[i].0)))))
      && Total(r) == Sum(Amounts(m))
      && (r == [] <==> m == [])
  {
    var ps := DatedPairs(m, MonthOf);
    var r := GroupSums(ps, PeriodLess);
    PeriodOrder();
    GroupSumsSpec(ps, PeriodLess);
    GroupedByKey(ps, m, MonthOf);
    forall i | 0 <= i < |r| ensures r[i].1 == Sum(Amounts(Filter(m, DatedAs(MonthOf, r[i].0)))) {
      assert r[i].1 == SumFor(ps, r[i].0);
    }
    forall p ensures (exists i :: 0 <= i < |r| && r[i].0 == p) <==> Filter(m, DatedAs(MonthOf, p)) != [] {
      assert HasKey(ps, p) <==> Filter(m, DatedAs(MonthOf, p)) != [];
    }
    PairedTotal(ps, m);
    if m != [] {
      assert HasKey(ps, ps[0].0) by { assert ps[0] in ps; }
    }
  }

  /** The pairs carrying key `k` are exactly the rows dated as `k`: their sum and count are the
      sum and count of those rows, and the key occurs exactly when such a row exists. */
  lemma {:induction false} GroupedByKey<K(!new)>(ps: seq<(K, int)>, rows: seq<Row>, key: Timestamp -> K)
    requires Stamped(rows) && ps == DatedPairs(rows, key)
    ensures forall k :: SumFor(ps, k) == Sum(Amounts(Filter(rows, DatedAs(key, k))))
    ensures forall k :: CountFor(ps, k) == |Filter(rows, DatedAs(key, k))|
    ensures forall k :: HasKey(ps, k) <==> Filter(rows, DatedAs(key, k)) != []
  {
    forall k
      ensures SumFor(ps, k) == Sum(Amounts(Filter(rows, DatedAs(key, k))))
      ensures CountFor(ps, k) == |Filter(rows, DatedAs(key, k))|
      ensures HasKey(ps, k) <==> Filter(rows, DatedAs(key, k)) != []
    {
      SelectedGroup(ps, rows, k, DatedAs(key, k));
      CountPositive(ps, k);
    }
  }

  // ---------------------------------------------------------------- spending_by_weekday / _workday

  /** `dt.day_name()`. */
  function DayNameOf(t: Timestamp): string
  {
    DayName(t.date)
  }

  /** `"Выходной" if dayofweek >= 5 else "Рабочий"`. */
  function DayKind(t: Timestamp): string
  {
    if Weekday(t.date) >= 5 then "Выходной" else "Рабочий"
  }

  /** The mean amount per day key of the in-window rows. The column is parsed first (ISO for
      the whole column, else day-first); the window is then checked against the column as it was,
      which raises unless it holds timestamps. The parsed column then equals the column itself,
      so each row is keyed by its own date. */
  function MeanByDay(rows: seq<Row>, key: Timestamp -> string): Result<seq<(string, real)>, ReportError>
  {
    if ParseDateColumn(Dates(rows)).None? then Err(DateParse)
    else if !AllStamps(Dates(rows)) then Err(Incomparable)
    else Ok(GroupMeans(DatedPairs(InWindowRows(rows), key), StrLess))
  }

  /** `spending_by_weekday`; its `date` argument is ignored. */
  function SpendingByWeekday(rows: seq<Row>): Result<seq<(string, real)>, ReportError>
  {
    MeanByDay(rows, DayNameOf)
  }

  /** `spending_by_workday`; its `date` argument is ignored. */
  function SpendingByWorkday(rows: seq<Row>): Result<seq<(string, real)>, ReportError>
  {
    MeanByDay(rows, DayKind)
  }

  /** The day reports succeed exactly on a date column of timestamps; then the column parses to
      itself, so keying rows by the parsed dates and by their own dates agree. */
  lemma {:induction false} MeanByDayFails(rows: seq<Row>, key: Timestamp -> string)
    ensures MeanByDay(rows, key).Ok? <==> AllStamps(Dates(rows))
    ensures AllStamps(Dates(rows)) ==>
              ParseDateColumn(Dates(rows)).Some? && |ParseDateColumn(Dates(rows)).value| == |rows| &&
              forall i :: 0 <= i < |rows| ==> ParseDateColumn(Dates(rows)).value[i] == rows[i].date.at
  {
    ParseCellsSpec(Dates(rows), IsoAtMidnight);
  }

  lemma {:induction false} MeanByDayValue(rows: seq<Row>, key: Timestamp -> string)
    requires AllStamps(Dates(rows))
    ensures MeanByDay(rows, key) == Ok(GroupMeans(DatedPairs(InWindowRows(rows), key), StrLess))
  {
    MeanByDayFails(rows, key);
  }

  /** Grouping timestamp-dated rows by a text key and averaging: one entry per key present,
      keys ascending, each with the arithmetic mean of its rows' amounts; no rows, no entries. */
  lemma {:induction false} GroupMeansOfRows(rows: seq<Row>, key: Timestamp -> string)
    requires Stamped(rows)
    ensures var r := GroupMeans(DatedPairs(rows, key), StrLess);
      && (forall i, j :: 0 <= i < j < |r| ==> StrLess(r[i].0, r[j].0))
      && (forall k :: (exists i :: 0 <= i < |r| && r[i].0 == k) <==> Filter(rows, DatedAs(key, k)) != [])
      && (forall i :: 0 <= i < |r| ==>
            |Filter(rows, DatedAs(key, r[i].0))| > 0 &&
            r[i].1 == Sum(Amounts(Filter(rows, DatedAs(key, r[i].0)))) as real / |Filter(rows, DatedAs(key, r[i].0))| as real)
      && (r == [] <==> rows == [])
  {
    var ps := DatedPairs(rows, key);
    var r := GroupMeans(ps, StrLess);
    GroupMeansByText(ps);
    GroupedByKey(ps, rows, key);
    forall i | 0 <= i < |r|
      ensures |Filter(rows, DatedAs(key, r[i].0))| > 0
      ensures r[i].1 == Sum(Amounts(Filter(rows, DatedAs(key, r[i].0)))) as real / |Filter(rows, DatedAs(key, r[i].0))| as real
    {
      var k := r[i].0;
      assert CountFor(ps, k) == |Filter(rows, DatedAs(key, k))|;
      assert SumFor(ps, k) == Sum(Amounts(Filter(rows, DatedAs(key, k))));
      assert r[i].1 == SumFor(ps, k) as real / CountFor(ps, k) as real;
    }
    if rows != [] {
      assert HasKey(ps, ps[0].0) by { assert ps[0] in ps; }
    }
  }

  /** On timestamps, the report has one entry per key present among the in-window rows, keys
      ascending, each with the arithmetic mean of those rows' amounts; no in-window row gives
      an empty report. */
  lemma {:induction false} MeanByDaySpec(rows: seq<Row>, key: Timestamp -> string)
    requires AllStamps(Dates(rows))
    ensures var w := InWindowRows(rows);
      var r := MeanByDay(rows, key);
      && r.Ok?
      && (forall i, j :: 0 <= i < j < |r.value| ==> StrLess(r.value[i].0, r.value[j].0))
      && (forall k :: (exists i :: 0 <= i < |r.value| && r.value[i].0 == k) <==> Filter(w, DatedAs(key, k)) != [])
      && (forall i :: 0 <= i < |r.value| ==>
            |Filter(w, DatedAs(key, r.value[i].0))| > 0 &&
            r.value[i].1 ==
              Sum(Amounts(Filter(w, DatedAs(key, r.value[i].0)))) as real / |Filter(w, DatedAs(key, r.value[i].0))| as real)
      && (r.value == [] <==> w == [])
  {
    MeanByDayValue(rows, key);
    GroupMeansOfRows(InWindowRows(rows), key);
  }

  /** Averaging by a key whose values lie in `range` gives at most `|range|` entries, each keyed
      by a member of `range`. */
  lemma {:induction false} KeysWithin(ps: seq<(string, int)>, range: set<string>)
    requires forall p :: p in ps ==> p.0 in range
    ensures |GroupMeans(ps, StrLess)| <= |range|
    ensures forall i :: 0 <= i < |GroupMeans(ps, StrLess)| ==> GroupMeans(ps, StrLess)[i].0 in range
  {
    StrLessOrder();
    KeysSortedExact(ps, StrLess);
    GroupCountBound(ps, StrLess, range);
    var ks := Keys(ps, StrLess);
    forall i | 0 <= i < |ks| ensures ks[i] in range {
      assert ks[i] in ks;
      var p :| p in ps && p.0 == ks[i];
    }
  }

  /** The names `day_name()` produces. */
  function DayNames(): (names: set<string>)
    ensures |names| <= 7
  {
    var names := {"Monday", "Tuesday", "Wednesday", "Thursday", "Friday", "Saturday", "Sunday"};
    assert |{"Monday", "Tuesday", "Wednesday"}| <= 3;
    names
  }

  /** The weekday report has at most seven entries, all of them weekday names. */
  lemma {:induction false} WeekdayReportBounds(rows: seq<Row>)
    requires SpendingByWeekday(rows).Ok?
    ensures |SpendingByWeekday(rows).value| <= 7
    ensures forall i :: 0 <= i < |SpendingByWeekday(rows).value| ==> SpendingByWeekday(rows).value[i].0 in DayNames()
  {
    MeanByDayFails(rows, DayNameOf);
    MeanByDayValue(rows, DayNameOf);
    KeysWithin(DatedPairs(InWindowRows(rows), DayNameOf), DayNames());
  }

  /** The workday report emits only the buckets present: at most two, named "Выходной" and
      "Рабочий". */
  lemma {:induction false} WorkdayReportBounds(rows: seq<Row>)
    requires SpendingByWorkday(rows).Ok?
    ensures |SpendingByWorkday(rows).value| <= 2
    ensures forall i :: 0 <= i < |SpendingByWorkday(rows).value| ==>
              SpendingByWorkday(rows).value[i].0 in {"Выходной", "Рабочий"}
  {
    MeanByDayFails(rows, DayKind);
    MeanByDayValue(rows, DayKind);
    KeysWithin(DatedPairs(InWindowRows(rows), DayKind), {"Выходной", "Рабочий"});
  }

  // ---------------------------------------------------------------- report_to_file

  /** `filename or f"report_{func.__name__}_{datetime.now().strftime('%Y%m%d_%H%M%S')}.json"`. */
  function ReportName(filename: Option<string>, funcName: string, now: Timestamp): (name: string)
    requires ValidStamp(now)
    ensures filename.Some? && filename.value != "" ==> name == filename.value
  {
    if filename.Some? && filename.value != "" then filename.value
    else "report_" + funcName + "_" + FormatCompact(now) + ".json"
  }

  /** Without an explicit name, the file name starts with `report_` and the function's name and
      ends with `.json`, and the time of the call can be read back from it. */
  lemma {:induction false} DefaultNameReadsBack(filename: Option<string>, funcName: string, now: Timestamp)
    requires ValidStamp(now) && (filename.None? || filename == Some(""))
    ensures var name := ReportName(filename, funcName, now);
      && |name| == |funcName| + 28
      && name[..7] == "report_" && name[7..7 + |funcName|] == funcName && name[|name| - 5..] == ".json"
      && ParseCompact(name[8 + |funcName|..|name| - 5]) == Some(now)
  {
    var name := ReportName(filename, funcName, now);
    var stamp := FormatCompact(now);
    CalendarFacts.CompactRoundTrip(now);
    assert name == "report_" + funcName + "_" + stamp + ".json";
    assert name[8 + |funcName|..|name| - 5] == stamp;
  }

  /** Two calls of the same report at different times write different default files. */
  lemma {:induction false} DefaultNamesDiffer(funcName: string, t1: Timestamp, t2: Timestamp)
    requires ValidStamp(t1) && ValidStamp(t2) && t1 != t2
    ensures ReportName(None, funcName, t1) != ReportName(None, funcName, t2)
  {
    DefaultNameReadsBack(None, funcName, t1);
    DefaultNameReadsBack(None, funcName, t2);
  }

  /** What the decorated call returns, and the file it leaves behind (None when none). */
  datatype Saved<T> = Saved(result: Result<T, ReportError>, file: Option<string>)

  /** The wrapper around a report: a failing report propagates its error and writes nothing; a
      failure to create the directory propagates; a failure to write is swallowed. Otherwise the
      report's result is returned unchanged and the file carries the report's name. The directory
      creation and the write are given as their outcomes. */
  function ReportToFile<T>(call: Result<T, ReportError>, filename: Option<string>, funcName: string,
                           now: Timestamp, dirCreated: bool, written: bool): (s: Saved<T>)
    requires ValidStamp(now)
    ensures call.Err? ==> s == Saved(call, None)
    ensures call.Ok? && !dirCreated ==> s == Saved(Err(DirectoryFailed), None)
    ensures call.Ok? && dirCreated ==> s.result == call && (s.file.Some? <==> written)
    ensures s.file.Some? ==> s.file.value == ReportName(filename, funcName, now)
  {
    if call.Err? then Saved(call, None)
    else if !dirCreated then Saved(Err(DirectoryFailed), None)
    else Saved(call, if written then Some(ReportName(filename, funcName, now)) else None)
  }

  /** The three reports as decorated: the category and weekday reports under default names,
      the workday report under its fixed name. */
  function SavedCategoryReport(frame: seq<Row>, category: string, now: Timestamp, dirCreated: bool, written: bool)
    : (s: Saved<seq<(Period, int)>>)
    requires ValidStamp(now)
    ensures s.file.Some? ==> s.file.value == ReportName(None, "spending_by_category", now)
  {
    ReportToFile(CategorySpending(frame, category), None, "spending_by_category", now, dirCreated, written)
  }

  function SavedWeekdayReport(frame: seq<Row>, now: Timestamp, dirCreated: bool, written: bool)
    : (s: Saved<seq<(string, real)>>)
    requires ValidStamp(now)
    ensures s.file.Some? ==> s.file.value == ReportName(None, "spending_by_weekday", now)
  {
    ReportToFile(SpendingByWeekday(frame), None, "spending_by_weekday", now, dirCreated, written)
  }

  function SavedWorkdayReport(frame: seq<Row>, now: Timestamp, dirCreated: bool, written: bool)
    : (s: Saved<seq<(string, real)>>)
    requires ValidStamp(now)
    ensures s.file.Some? ==> s.file.value == "workday_spending_report.json"
  {
    ReportToFile(SpendingByWorkday(frame), Some("workday_spending_report.json"), "spending_by_workday", now,
                 dirCreated, written)
  }

  // ---------------------------------------------------------------- the test fixture

  /** Five operations on 2021-01-01, 2021-01-15, 2021-02-01, 2021-05-30 and 2020-12-31 with the
      amounts 1000, 500, 1500, 2000 and 800 roubles. */
  function FixtureRows(): seq<Row>
  {
    [ Row(Stamp(Midnight(Date(2021, 1, 1))), None, 100000, 0, "Еда", ""),
      Row(Stamp(Midnight(Date(2021, 1, 15))), None, 50000, 0, "Транспорт", ""),
      Row(Stamp(Midnight(Date(2021, 2, 1))), None, 150000, 0, "Еда", ""),
      Row(Stamp(Midnight(Date(2021, 5, 30))), None, 200000, 0, "Развлечения", ""),
      Row(Stamp(Midnight(Date(2020, 12, 31))), None, 80000, 0, "Еда", "") ]
  }

  lemma FixtureInWindow()
    ensures InWindowRows(FixtureRows()) == FixtureRows()
  {
    var rows := FixtureRows();
    assert InWindowRow(rows[0]) && InWindowRow(rows[1]) && InWindowRow(rows[2]);
    assert InWindowRow(rows[3]) && InWindowRow(rows[4]);
    FilterAll(rows, InWindowRow);
  }

  /** Four of the fixture's dates are working days and 2021-05-30 is a weekend day. */
  lemma FixtureKinds()
    ensures DayKind(Midnight(Date(2021, 1, 1))) == "Рабочий" && DayKind(Midnight(Date(2021, 1, 15))) == "Рабочий"
    ensures DayKind(Midnight(Date(2021, 2, 1))) == "Рабочий" && DayKind(Midnight(Date(2021, 5, 30))) == "Выходной"
    ensures DayKind(Midnight(Date(2020, 12, 31))) == "Рабочий"
  {
    CalendarFacts.NewYear2021IsFriday();
    CalendarFacts.MidJanuary2021IsFriday();
    CalendarFacts.February2021StartsOnMonday();
    CalendarFacts.May30th2021IsSunday();
    CalendarFacts.NewYearsEve2020IsThursday();
  }

  lemma FixtureBuckets()
    ensures DatedPairs(FixtureRows(), DayKind) ==
              [("Рабочий", 100000), ("Рабочий", 50000), ("Рабочий", 150000), ("Выходной", 200000), ("Рабочий", 80000)]
  {
    FixtureKinds();
  }

  lemma {:induction false} FixtureGroups(ps: seq<(string, int)>)
    requires ps == [("Рабочий", 100000), ("Рабочий", 50000), ("Рабочий", 150000), ("Выходной", 200000), ("Рабочий", 80000)]
    ensures GroupMeans(ps, StrLess) == [("Выходной", 200000.0), ("Рабочий", 95000.0)]
  {
    var work, rest := "Рабочий", "Выходной";
    assert StrLess(rest, work) && !StrLess(work, rest);
    var s1, s2, s3, s4 := ps[..1], ps[..2], ps[..3], ps[..4];
    assert s4[..3] == s3 && s3[..2] == s2 && s2[..1] == s1 && s1[..0] == [];
    assert Keys(s1, StrLess) == [work];
    assert Keys(s2, StrLess) == [work];
    assert Keys(s3, StrLess) == [work];
    assert Keys(s4, StrLess) == [rest, work];
    assert Keys(ps, StrLess) == [rest, work];
    assert SumFor(s1, work) == 100000 && CountFor(s1, work) == 1;
    assert SumFor(s2, work) == 150000 && CountFor(s2, work) == 2;
    assert SumFor(s3, work) == 300000 && CountFor(s3, work) == 3;
    assert SumFor(ps, work) == 380000 && CountFor(ps, work) == 4;
    assert SumFor(s1, rest) == 0 && CountFor(s1, rest) == 0;
    assert SumFor(s2, rest) == 0 && CountFor(s2, rest) == 0;
    assert SumFor(s3, rest) == 0 && CountFor(s3, rest) == 0;
    assert SumFor(ps, rest) == 200000 && CountFor(ps, rest) == 1;
  }

  /** The workday report on the fixture has exactly two rows: weekends with a mean of 2000
      roubles and working days with a mean of 950. */
  lemma WorkdayFixture()
    ensures SpendingByWorkday(FixtureRows()) == Ok([("Выходной", 200000.0), ("Рабочий", 95000.0)])
  {
    var rows := FixtureRows();
    assert AllStamps(Dates(rows));
    MeanByDayValue(rows, DayKind);
    FixtureInWindow();
    FixtureBuckets();
    FixtureGroups(DatedPairs(InWindowRows(rows), DayKind));
  }
}
