/** The transaction services: each walks a list of operation records (dictionaries as read from
    JSON or a spreadsheet) and accumulates a result, skipping any record that lacks a key or holds
    an unreadable date or number. */
module Services {
  import opened Wrappers
  import opened Calendar
  import opened Lists
  import CalendarFacts
  import Text
  import Patterns

  /** A value passed through `float()`: its amount in kopecks, or the ValueError `float()` raises. */
  datatype Number = Number(minor: int) | NotANumber

  /** An operation record; a key the dictionary lacks is None. The keys are `Дата операции`,
      `Категория`, `Сумма операции`, `Кэшбэк` and `Описание`. */
  datatype Record = Record(date: Option<string>, category: Option<string>, amount: Option<Number>,
                           cashback: Option<Number>, description: Option<string>)

  /** The operation date of a record, read as `%Y-%m-%d`; None where the key is missing or
      `strptime` raises. */
  function OperationDate(t: Record): Option<Date>
  {
    if t.date.None? then None else ParseIso(t.date.value)
  }

  predicate InMonth(t: Record, year: int, month: int)
  {
    OperationDate(t).Some? && OperationDate(t).value.year == year && OperationDate(t).value.month == month
  }

  // ---------------------------------------------------------------- profitable_cashback_categories

  /** What one record adds to the cashback totals: its category and cashback when it lies in the
      month, has a category, and its cashback (0 when the key is missing) reads as a positive
      number. None when the record adds nothing or is skipped. */
  function CashbackEntry(t: Record, year: int, month: int): Option<(string, int)>
  {
    if !InMonth(t, year, month) || t.category.None? then None
    else match (if t.cashback.None? then Number(0) else t.cashback.value)
      case NotANumber => None
      case Number(c) => if c > 0 then Some((t.category.value, c)) else None
  }

  /** The dictionary after one more record: its cashback added to its category's sum. */
  function AddCashback(acc: map<string, int>, e: Option<(string, int)>): map<string, int>
  {
    match e
    case None => acc
    case Some(e) => acc[e.0 := (if e.0 in acc then acc[e.0] else 0) + e.1]
  }

  /** The cashback dictionary after the records of `ts`, in order. */
  function CashbackTotals(ts: seq<Record>, year: int, month: int): map<string, int>
  {
    if ts == [] then map[]
    else AddCashback(CashbackTotals(ts[..|ts| - 1], year, month), CashbackEntry(ts[|ts| - 1], year, month))
  }

  /** The total cashback of category `c` in the month: an independent reference for the
      dictionary the loop builds. */
  function CategoryCashback(ts: seq<Record>, year: int, month: int, c: string): int
  {
    if ts == [] then 0
    else
      var e := CashbackEntry(ts[|ts| - 1], year, month);
      CategoryCashback(ts[..|ts| - 1], year, month, c) + (if e.Some? && e.value.0 == c then e.value.1 else 0)
  }

  method ProfitableCashbackCategories(ts: seq<Record>, year: int, month: int) returns (r: map<string, int>)
    ensures r == CashbackTotals(ts, if 2018 <= year <= 2021 then year else 2021,
                                    if 1 <= month <= 12 then month else 12)
  {
    var y, m := year, month;
    if !(2018 <= y <= 2021) {
      y := 2021;
    }
    if !(1 <= m <= 12) {
      m := 12;
    }
    r := map[];
    for i := 0 to |ts|
      invariant r == CashbackTotals(ts[..i], y, m)
    {
      r := AddRecordCashback(r, ts[i], y, m);
      assert ts[..i + 1][..i] == ts[..i];
    }
    assert ts[..|ts|] == ts;
  }

  /** One pass of the loop: the record's cashback added to its category when it lies in the
      month, has a category and a positive cashback. */
  method AddRecordCashback(acc: map<string, int>, t: Record, y: int, m: int) returns (r: map<string, int>)
    ensures r == AddCashback(acc, CashbackEntry(t, y, m))
  {
    r := acc;
    if t.date.Some? {
      var opDate := ParseIso(t.date.value);
      if opDate.Some? && opDate.value.year == y && opDate.value.month == m && t.category.Some? {
        var cashback := if t.cashback.Some? then t.cashback.value else Number(0);
        if cashback.Number? && cashback.minor > 0 {
          var category := t.category.value;
          r := r[category := (if category in r then r[category] else 0) + cashback.minor];
        }
      }
    }
  }

  /** A category is in the result exactly when its cashback in the month adds up to more than
      zero, and then it maps to that sum: every value in the result is positive. */
  lemma {:induction false} CashbackTotalsByCategory(ts: seq<Record>, year: int, month: int)
    ensures forall c :: CategoryCashback(ts, year, month, c) >= 0
    ensures forall c :: c in CashbackTotals(ts, year, month) <==> CategoryCashback(ts, year, month, c) > 0
    ensures forall c :: c in CashbackTotals(ts, year, month) ==>
              CashbackTotals(ts, year, month)[c] == CategoryCashback(ts, year, month, c)
  {
    if ts != [] {
      CashbackTotalsByCategory(ts[..|ts| - 1], year, month);
    }
  }

  /** A record that contributes nothing (skipped, out of the month, or without positive cashback)
      can be removed from anywhere in the list without changing the result. */
  lemma {:induction false} CashbackIgnoresInert(a: seq<Record>, t: Record, b: seq<Record>, year: int, month: int)
    requires CashbackEntry(t, year, month).None?
    ensures CashbackTotals(a + [t] + b, year, month) == CashbackTotals(a + b, year, month)
    decreases |b|
  {
    var with, without := a + [t] + b, a + b;
    if b == [] {
      assert with[..|with| - 1] == a && with[|with| - 1] == t;
      assert without == a;
    } else {
      var b0, x := b[..|b| - 1], b[|b| - 1];
      CashbackIgnoresInert(a, t, b0, year, month);
      assert with[..|with| - 1] == a + [t] + b0 && with[|with| - 1] == x;
      assert without[..|without| - 1] == a + b0 && without[|without| - 1] == x;
    }
  }

  // ---------------------------------------------------------------- investment_bank

  datatype BankError =
    | MalformedMonth   // the month is not two dash-separated integers
    | MonthOutOfRange  // the month number is outside 1..12
    | NonPositiveLimit // the rounding limit is not positive

  /** `s.split(sep)`: the pieces between the separators, at least one. */
  function SplitOn(s: string, sep: char): (parts: seq<string>)
    ensures |parts| >= 1
    decreases |s|
  {
    match SplitFirst(s, sep)
    case None => [s]
    case Some(halves) => [halves.0] + SplitOn(halves.1, sep)
  }

  function DigitsValue(s: string): int
    requires forall i :: 0 <= i < |s| ==> IsDigit(s[i])
  {
    if s == [] then 0 else 10 * DigitsValue(s[..|s| - 1]) + DigitValue(s[|s| - 1])
  }

  predicate AllDigits(s: string)
  {
    s != [] && forall i :: 0 <= i < |s| ==> IsDigit(s[i])
  }

  /** `int(s)` for an optional sign followed by decimal digits; None where it raises. */
  function ParseInt(s: string): Option<int>
  {
    if |s| > 0 && (s[0] == '+' || s[0] == '-') then
      if AllDigits(s[1..]) then Some(if s[0] == '-' then -DigitsValue(s[1..]) else DigitsValue(s[1..]))
      else None
    else if AllDigits(s) then Some(DigitsValue(s))
    else None
  }

  /** What one record adds to the round-up savings: for an in-month operation with a readable
      positive amount, the distance from the amount up to the next multiple of the limit (in
      kopecks: the limit is in roubles); zero otherwise. */
  function RoundUp(t: Record, year: int, month: int, limit: int): int
    requires limit > 0
  {
    if !InMonth(t, year, month) || t.amount.None? || t.amount.value.NotANumber? then 0
    else
      var a := t.amount.value.minor;
      var step := limit * 100;
      if a > 0 && a % step > 0 then step - a % step else 0
  }

  function Savings(ts: seq<Record>, year: int, month: int, limit: int): int
    requires limit > 0
  {
    if ts == [] then 0 else Savings(ts[..|ts| - 1], year, month, limit) + RoundUp(ts[|ts| - 1], year, month, limit)
  }

  method InvestmentBank(month: string, ts: seq<Record>, limit: int) returns (r: Result<int, BankError>)
    ensures var parts := SplitOn(month, '-');
      if |parts| != 2 || ParseInt(parts[0]).None? || ParseInt(parts[1]).None? then r == Err(MalformedMonth)
      else
        var year, m := ParseInt(parts[0]).value, ParseInt(parts[1]).value;
        if !(1 <= m <= 12) then r == Err(MonthOutOfRange)
        else if limit <= 0 then r == Err(NonPositiveLimit)
        else r == Ok(Savings(ts, if 2018 <= year <= 2021 then year else 2021, m, limit))
  {
    var parts := SplitOn(month, '-');
    if |parts| != 2 {
      return Err(MalformedMonth);
    }
    var y, m := ParseInt(parts[0]), ParseInt(parts[1]);
    if y.None? || m.None? {
      return Err(MalformedMonth);
    }
    var year := y.value;
    if !(2018 <= year <= 2021) {
      year := 2021;
    }
    if !(1 <= m.value <= 12) {
      return Err(MonthOutOfRange);
    }
    if limit <= 0 {
      return Err(NonPositiveLimit);
    }
    var total := 0;
    for i := 0 to |ts|
      invariant total == Savings(ts[..i], year, m.value, limit)
    {
      var t := ts[i];
      assert ts[..i + 1][..i] == ts[..i];
      if t.date.Some? {
        var opDate := ParseIso(t.date.value);
        if opDate.Some? && opDate.value.year == year && opDate.value.month == m.value
           && t.amount.Some? && t.amount.value.Number? {
          var amount := t.amount.value.minor;
          if amount > 0 {
            var remainder := amount % (limit * 100);
            if remainder > 0 {
              total := total + (limit * 100 - remainder);
            }
          }
        }
      }
    }
    assert ts[..|ts|] == ts;
    return Ok(total);
  }

  /** Adding `step - a % step` to an amount that is not a multiple of `step` reaches the next
      multiple. */
  lemma {:induction false} UpToNextMultiple(a: int, step: int)
    requires step > 0 && a % step > 0
    ensures 0 < step - a % step < step
    ensures a + (step - a % step) == (a / step + 1) * step
  {
    var q := a / step;
    assert a == q * step + a % step;
    assert (q + 1) * step == q * step + step;
  }

  /** Each operation adds strictly between 0 and the limit, and exactly when it is an in-month
      expense that is not already a multiple of the limit; the amount plus what it adds is then the
      next multiple of the limit. */
  lemma {:induction false} RoundUpBounds(t: Record, year: int, month: int, limit: int)
    requires limit > 0
    ensures 0 <= RoundUp(t, year, month, limit) < limit * 100
    ensures RoundUp(t, year, month, limit) > 0 <==>
              InMonth(t, year, month) && t.amount.Some? && t.amount.value.Number? &&
              t.amount.value.minor > 0 && t.amount.value.minor % (limit * 100) != 0
    ensures RoundUp(t, year, month, limit) > 0 ==>
              t.amount.value.minor + RoundUp(t, year, month, limit) ==
                (t.amount.value.minor / (limit * 100) + 1) * (limit * 100)
  {
    var step := limit * 100;
    if InMonth(t, year, month) && t.amount.Some? && t.amount.value.Number? {
      var a := t.amount.value.minor;
      if a > 0 && a % step > 0 {
        UpToNextMultiple(a, step);
      }
    }
  }

  /** The savings are never negative, at most one limit per operation, and zero for a month
      without operations. */
  lemma {:induction false} SavingsBounds(ts: seq<Record>, year: int, month: int, limit: int)
    requires limit > 0
    ensures 0 <= Savings(ts, year, month, limit) <= |ts| * (limit * 100)
    ensures (forall i :: 0 <= i < |ts| ==> !InMonth(ts[i], year, month)) ==> Savings(ts, year, month, limit) == 0
  {
    if ts != [] {
      var init, step := ts[..|ts| - 1], limit * 100;
      SavingsBounds(init, year, month, limit);
      RoundUpBounds(ts[|ts| - 1], year, month, limit);
      assert |ts| * step == |init| * step + step;
      if forall i :: 0 <= i < |ts| ==> !InMonth(ts[i], year, month) {
        assert forall i :: 0 <= i < |init| ==> init[i] == ts[i];
      }
    }
  }

  /** The value of a two- and of a four-digit text, digit by digit. */
  lemma {:induction false} DigitsValueOfFour(c0: char, c1: char, c2: char, c3: char)
    requires IsDigit(c0) && IsDigit(c1) && IsDigit(c2) && IsDigit(c3)
    ensures DigitsValue([c0, c1]) == 10 * DigitValue(c0) + DigitValue(c1)
    ensures DigitsValue([c0, c1, c2, c3]) ==
              1000 * DigitValue(c0) + 100 * DigitValue(c1) + 10 * DigitValue(c2) + DigitValue(c3)
  {
    var s1, s2, s3, s4 := [c0], [c0, c1], [c0, c1, c2], [c0, c1, c2, c3];
    assert s1[..0] == [] && s2[..1] == s1 && s3[..2] == s2 && s4[..3] == s3;
    assert DigitsValue(s1) == DigitValue(c0);
    assert DigitsValue(s2) == 10 * DigitValue(c0) + DigitValue(c1);
    assert DigitsValue(s3) == 100 * DigitValue(c0) + 10 * DigitValue(c1) + DigitValue(c2);
  }

  lemma {:induction false} DigitsValueOfPad(n: int)
    requires 0 <= n < 10000
    ensures AllDigits(Pad4(n)) && DigitsValue(Pad4(n)) == n
    ensures n < 100 ==> AllDigits(Pad2(n)) && DigitsValue(Pad2(n)) == n
  {
    var d0, d1, d2, d3 := n / 1000, n / 100 % 10, n / 10 % 10, n % 10;
    CalendarFacts.DigitRoundTrip(d0);
    CalendarFacts.DigitRoundTrip(d1);
    CalendarFacts.DigitRoundTrip(d2);
    CalendarFacts.DigitRoundTrip(d3);
    DigitsValueOfFour(DigitChar(d0), DigitChar(d1), DigitChar(d2), DigitChar(d3));
    DigitsValueOfFour(DigitChar(d2), DigitChar(d3), DigitChar(d2), DigitChar(d3));
    DecimalDigits(n);
    assert Pad4(n) == [DigitChar(d0), DigitChar(d1), DigitChar(d2), DigitChar(d3)];
  }

  lemma {:induction false} DecimalDigits(n: int)
    requires 0 <= n < 10000
    ensures n == 1000 * (n / 1000) + 100 * (n / 100 % 10) + 10 * (n / 10 % 10) + n % 10
    ensures n < 100 ==> n / 10 % 10 == n / 10
  {
    var a, b, c := n / 10, n / 100, n / 1000;
    assert n == 10 * a + n % 10;
    assert a == 10 * b + a % 10;
    assert b == 10 * c + b % 10;
    assert a / 10 == b && b / 10 == c;
  }

  /** A `YYYY-MM` month argument, as the source's callers print it, reads back as its year and
      month. */
  lemma {:induction false} MonthArgumentReadsBack(year: int, month: int)
    requires 0 <= year < 10000 && 0 <= month < 100
    ensures SplitOn(Pad4(year) + "-" + Pad2(month), '-') == [Pad4(year), Pad2(month)]
    ensures ParseInt(Pad4(year)) == Some(year) && ParseInt(Pad2(month)) == Some(month)
  {
    var y, m := Pad4(year), Pad2(month);
    DigitsValueOfPad(year);
    DigitsValueOfPad(month);
    CalendarFacts.Pad2NoSeparator(month, '-');
    assert '-' !in y by {
      CalendarFacts.DigitRoundTrip(year / 1000);
      CalendarFacts.DigitRoundTrip(year / 100 % 10);
      CalendarFacts.DigitRoundTrip(year / 10 % 10);
      CalendarFacts.DigitRoundTrip(year % 10);
    }
    CalendarFacts.SplitFirstGlued(y, m, '-');
    assert y + "-" + m == y + ['-'] + m;
  }

  // ---------------------------------------------------------------- simple_search

  /** The text a search compares: the text itself, or its lower-case form. */
  function Folded(s: string, caseSensitive: bool): string
  {
    if caseSensitive then s else Text.LowerStr(s)
  }

  /** The record has a description and a category, and the (folded) query occurs in one of them. */
  predicate Mentions(query: string, caseSensitive: bool, t: Record)
  {
    t.description.Some? && t.category.Some? &&
    (Text.IsInfix(Folded(query, caseSensitive), Folded(t.description.value, caseSensitive)) ||
     Text.IsInfix(Folded(query, caseSensitive), Folded(t.category.value, caseSensitive)))
  }

  function MentionTest(query: string, caseSensitive: bool): Record -> bool
  {
    (t: Record) => Mentions(query, caseSensitive, t)
  }

  method SimpleSearch(query: string, ts: seq<Record>, caseSensitive: bool) returns (r: seq<Record>)
    ensures query == "" ==> r == []
    ensures query != "" ==> r == Filter(ts, MentionTest(query, caseSensitive))
  {
    if query == "" {
      return [];
    }
    var searchQuery := if caseSensitive then query else Text.LowerStr(query);
    r := [];
    for i := 0 to |ts|
      invariant r == Filter(ts[..i], MentionTest(query, caseSensitive))
    {
      var t := ts[i];
      assert ts[..i + 1][..i] == ts[..i];
      if t.description.Some? && t.category.Some? {
        var description, category := t.description.value, t.category.value;
        if !caseSensitive {
          description := Text.LowerStr(description);
          category := Text.LowerStr(category);
        }
        if Text.IsInfix(searchQuery, description) || Text.IsInfix(searchQuery, category) {
          r := r + [t];
        }
      }
    }
    assert ts[..|ts|] == ts;
  }

  /** A record is found exactly when it is in the list, has both fields, and the folded query is
      a slice of its folded description or category. */
  lemma {:induction false} MentionsMeansOccurs(query: string, caseSensitive: bool, t: Record)
    ensures Mentions(query, caseSensitive, t) <==>
              t.description.Some? && t.category.Some? &&
              (Text.Occurs(Folded(query, caseSensitive), Folded(t.description.value, caseSensitive)) ||
               Text.Occurs(Folded(query, caseSensitive), Folded(t.category.value, caseSensitive)))
  {
    if t.description.Some? && t.category.Some? {
      Text.IsInfixMeansOccurs(Folded(query, caseSensitive), Folded(t.description.value, caseSensitive));
      Text.IsInfixMeansOccurs(Folded(query, caseSensitive), Folded(t.category.value, caseSensitive));
    }
  }

  /** A case-insensitive search gives the same answer for a query and its lower-case form. */
  lemma {:induction false} CaseInsensitiveIgnoresQueryCase(query: string, t: Record)
    ensures Mentions(Text.LowerStr(query), false, t) == Mentions(query, false, t)
  {
    Text.LowerStrIdempotent(query);
  }

  // ---------------------------------------------------------------- pattern searches

  /** `re.compile(pattern or default)`: a missing or empty pattern falls back to the default. */
  function Compiled(custom: Option<string>, default: Patterns.Pattern): (p: Patterns.Pattern)
    ensures custom.None? ==> p == default
  {
    Patterns.Effective(if custom.None? then "" else custom.value, default)
  }

  predicate DescriptionMatches(p: Patterns.Pattern, t: Record)
  {
    t.description.Some? && Patterns.Search(p, t.description.value)
  }

  function PhoneTest(p: Patterns.Pattern): Record -> bool
  {
    (t: Record) => DescriptionMatches(p, t)
  }

  /** `Категория == "Переводы"` and the pattern is found in the description. */
  function TransferTest(p: Patterns.Pattern): Record -> bool
  {
    (t: Record) => t.category == Some("Переводы") && DescriptionMatches(p, t)
  }

  method PhoneNumberSearch(ts: seq<Record>, phonePattern: Option<string>) returns (r: seq<Record>)
    ensures r == Filter(ts, PhoneTest(Compiled(phonePattern, Patterns.PhonePattern())))
  {
    var pattern := Compiled(phonePattern, Patterns.PhonePattern());
    r := [];
    for i := 0 to |ts|
      invariant r == Filter(ts[..i], PhoneTest(pattern))
    {
      var t := ts[i];
      assert ts[..i + 1][..i] == ts[..i];
      if t.description.Some? && Patterns.Search(pattern, t.description.value) {
        r := r + [t];
      }
    }
    assert ts[..|ts|] == ts;
  }

  method PersonTransfersSearch(ts: seq<Record>, namePattern: Option<string>) returns (r: seq<Record>)
    ensures r == Filter(ts, TransferTest(Compiled(namePattern, Patterns.NamePattern())))
  {
    var pattern := Compiled(namePattern, Patterns.NamePattern());
    r := [];
    for i := 0 to |ts|
      invariant r == Filter(ts[..i], TransferTest(pattern))
    {
      var t := ts[i];
      assert ts[..i + 1][..i] == ts[..i];
      if t.category.Some? && t.category.value == "Переводы" && t.description.Some?
         && Patterns.Search(pattern, t.description.value) {
        r := r + [t];
      }
    }
    assert ts[..|ts|] == ts;
  }

  /** A custom pattern given as plain text, free of metacharacters, finds exactly the
      descriptions that contain it. */
  lemma {:induction false} CustomPatternIsSubstring(custom: string, t: Record)
    requires custom != "" && Patterns.PlainText(custom)
    ensures PhoneTest(Compiled(Some(custom), Patterns.PhonePattern()))(t) <==>
              t.description.Some? && Text.Occurs(custom, t.description.value)
  {
    if t.description.Some? {
      Patterns.LiteralSearch(custom, t.description.value);
      Text.IsInfixMeansOccurs(custom, t.description.value);
    }
  }

  /** An empty pattern behaves as no pattern. */
  lemma {:induction false} EmptyPatternIsDefault(default: Patterns.Pattern)
    ensures Compiled(Some(""), default) == Compiled(None, default)
  {
  }

  // ---------------------------------------------------------------- the source's test records

  /** A record whose date is a `%Y-%m-%d` text falls on the date that text was printed from. */
  lemma {:induction false} DatedBy(t: Record, s: string, d: Date)
    requires ValidDate(d) && s == FormatIso(d) && t.date == Some(s)
    ensures OperationDate(t) == Some(d)
  {
    CalendarFacts.IsoRoundTrip(d);
  }

  /** A purchase in the month with a positive cashback enters the dictionary under its category,
      and its amount is rounded up by what it lacks of the next multiple of the limit. */
  lemma {:induction false} PurchaseInMonth(t: Record, year: int, month: int, limit: int,
                                           category: string, amount: int, cashback: int)
    requires InMonth(t, year, month) && limit > 0 && cashback > 0
    requires t.category == Some(category) && t.amount == Some(Number(amount)) && t.cashback == Some(Number(cashback))
    ensures CashbackEntry(t, year, month) == Some((category, cashback))
    ensures RoundUp(t, year, month, limit) ==
              if amount > 0 && amount % (limit * 100) > 0 then limit * 100 - amount % (limit * 100) else 0
  {
  }

  /** A record outside the month adds neither cashback nor savings. */
  lemma {:induction false} OutsideMonth(t: Record, year: int, month: int, limit: int)
    requires !InMonth(t, year, month) && limit > 0
    ensures CashbackEntry(t, year, month).None? && RoundUp(t, year, month, limit) == 0
  {
  }

  /** The supermarket purchase of 2021-01-15: 1000.50 spent, 50.25 cashback. */
  lemma {:induction false} FirstPurchase(t: Record)
    requires t.date == Some("2021-01-15") && t.category == Some("Супермаркеты")
    requires t.amount == Some(Number(100050)) && t.cashback == Some(Number(5025))
    ensures CashbackEntry(t, 2021, 1) == Some(("Супермаркеты", 5025))
    ensures RoundUp(t, 2021, 1, 100) == 9950
  {
    DatedBy(t, "2021-01-15", Date(2021, 1, 15));
    assert 100050 % (100 * 100) == 50;
    PurchaseInMonth(t, 2021, 1, 100, "Супермаркеты", 100050, 5025);
  }

  /** The restaurant dinner of 2021-01-20: 2000.75 spent, 100.50 cashback. */
  lemma {:induction false} Dinner(t: Record)
    requires t.date == Some("2021-01-20") && t.category == Some("Рестораны")
    requires t.amount == Some(Number(200075)) && t.cashback == Some(Number(10050))
    ensures CashbackEntry(t, 2021, 1) == Some(("Рестораны", 10050))
    ensures RoundUp(t, 2021, 1, 100) == 9925
  {
    DatedBy(t, "2021-01-20", Date(2021, 1, 20));
    assert 200075 % (100 * 100) == 75;
    PurchaseInMonth(t, 2021, 1, 100, "Рестораны", 200075, 10050);
  }

  /** The supermarket purchase of 2021-02-10 lies outside January. */
  lemma {:induction false} FebruaryPurchase(t: Record)
    requires t.date == Some("2021-02-10")
    ensures CashbackEntry(t, 2021, 1).None?
    ensures RoundUp(t, 2021, 1, 100) == 0
  {
    DatedBy(t, "2021-02-10", Date(2021, 2, 10));
    OutsideMonth(t, 2021, 1, 100);
  }

  /** A record without the `Кэшбэк` key adds no cashback. */
  lemma {:induction false} NoCashbackKey(t: Record, year: int, month: int)
    requires t.cashback.None?
    ensures CashbackEntry(t, year, month).None?
  {
  }

  /** An amount that is already a whole number of limits is not rounded up. */
  lemma {:induction false} WholeLimits(t: Record, year: int, month: int, limit: int)
    requires limit > 0 && t.amount.Some? && t.amount.value.Number? && t.amount.value.minor % (limit * 100) == 0
    ensures RoundUp(t, year, month, limit) == 0
  {
  }

  /** One more record at the end adds its entry to the cashback dictionary. */
  lemma {:induction false} CashbackSnoc(ts: seq<Record>, t: Record, year: int, month: int)
    ensures CashbackTotals(ts + [t], year, month) ==
              AddCashback(CashbackTotals(ts, year, month), CashbackEntry(t, year, month))
  {
    assert (ts + [t])[..|ts|] == ts;
  }

  /** One more record at the end adds its rounding-up to the savings. */
  lemma {:induction false} SavingsSnoc(ts: seq<Record>, t: Record, year: int, month: int, limit: int)
    requires limit > 0
    ensures Savings(ts + [t], year, month, limit) == Savings(ts, year, month, limit) + RoundUp(t, year, month, limit)
  {
    assert (ts + [t])[..|ts|] == ts;
  }

  /** Six records of which only the first two add cashback. */
  lemma {:induction false} CashbackOfSix(t0: Record, t1: Record, t2: Record, t3: Record, t4: Record, t5: Record)
    requires CashbackEntry(t0, 2021, 1) == Some(("Супермаркеты", 5025))
    requires CashbackEntry(t1, 2021, 1) == Some(("Рестораны", 10050))
    requires CashbackEntry(t2, 2021, 1).None? && CashbackEntry(t3, 2021, 1).None?
    requires CashbackEntry(t4, 2021, 1).None? && CashbackEntry(t5, 2021, 1).None?
    ensures CashbackTotals([t0, t1, t2, t3, t4, t5], 2021, 1) == map["Супермаркеты" := 5025, "Рестораны" := 10050]
  {
    var both := map["Супермаркеты" := 5025, "Рестораны" := 10050];
    var s0: seq<Record> := [];
    CashbackSnoc(s0, t0, 2021, 1);
    var s1 := s0 + [t0];
    assert CashbackTotals(s1, 2021, 1) == map["Супермаркеты" := 5025];
    CashbackSnoc(s1, t1, 2021, 1);
    var s2 := s1 + [t1];
    assert CashbackTotals(s2, 2021, 1) == both;
    CashbackSnoc(s2, t2, 2021, 1);
    var s3 := s2 + [t2];
    CashbackSnoc(s3, t3, 2021, 1);
    var s4 := s3 + [t3];
    CashbackSnoc(s4, t4, 2021, 1);
    var s5 := s4 + [t4];
    CashbackSnoc(s5, t5, 2021, 1);
    assert s5 + [t5] == [t0, t1, t2, t3, t4, t5];
  }

  /** Six records of which only the first two are rounded up. */
  lemma {:induction false} SavingsOfSix(t0: Record, t1: Record, t2: Record, t3: Record, t4: Record, t5: Record)
    requires RoundUp(t0, 2021, 1, 100) == 9950 && RoundUp(t1, 2021, 1, 100) == 9925
    requires RoundUp(t2, 2021, 1, 100) == 0 && RoundUp(t3, 2021, 1, 100) == 0
    requires RoundUp(t4, 2021, 1, 100) == 0 && RoundUp(t5, 2021, 1, 100) == 0
    ensures Savings([t0, t1, t2, t3, t4, t5], 2021, 1, 100) == 19875
  {
    var s0: seq<Record> := [];
    SavingsSnoc(s0, t0, 2021, 1, 100);
    var s1 := s0 + [t0];
    SavingsSnoc(s1, t1, 2021, 1, 100);
    var s2 := s1 + [t1];
    SavingsSnoc(s2, t2, 2021, 1, 100);
    var s3 := s2 + [t2];
    SavingsSnoc(s3, t3, 2021, 1, 100);
    var s4 := s3 + [t3];
    SavingsSnoc(s4, t4, 2021, 1, 100);
    var s5 := s4 + [t4];
    SavingsSnoc(s5, t5, 2021, 1, 100);
    assert s5 + [t5] == [t0, t1, t2, t3, t4, t5];
  }

  /** The two transfers and the taxi ride carry no cashback and are whole hundreds of roubles. */
  lemma {:induction false} TestTransfersAndTaxi(t3: Record, t4: Record, t5: Record)
    requires t3.cashback.None? && t4.cashback.None? && t5.cashback.None?
    requires t3.amount == Some(Number(500000)) && t4.amount == Some(Number(50000)) && t5.amount == Some(Number(300000))
    ensures CashbackEntry(t3, 2021, 1).None? && CashbackEntry(t4, 2021, 1).None? && CashbackEntry(t5, 2021, 1).None?
    ensures RoundUp(t3, 2021, 1, 100) == 0 && RoundUp(t4, 2021, 1, 100) == 0 && RoundUp(t5, 2021, 1, 100) == 0
  {
    NoCashbackKey(t3, 2021, 1);
    NoCashbackKey(t4, 2021, 1);
    NoCashbackKey(t5, 2021, 1);
    WholeLimits(t3, 2021, 1, 100);
    WholeLimits(t4, 2021, 1, 100);
    WholeLimits(t5, 2021, 1, 100);
  }

  /** The six records of the source's tests: in January 2021 the cashback is 50.25 for
      supermarkets and 100.50 for restaurants and nothing else, and rounding up to 100 roubles
      saves 198.75 (the transfers and the taxi ride are whole hundreds or carry no cashback). */
  lemma {:induction false} TestRecords(t0: Record, t1: Record, t2: Record, t3: Record, t4: Record, t5: Record)
    requires t0 == Record(Some("2021-01-15"), Some("Супермаркеты"), Some(Number(100050)), Some(Number(5025)),
                          Some("Покупка в Пятерочке"))
    requires t1 == Record(Some("2021-01-20"), Some("Рестораны"), Some(Number(200075)), Some(Number(10050)),
                          Some("Ужин в ресторане"))
    requires t2 == Record(Some("2021-02-10"), Some("Супермаркеты"), Some(Number(150000)), Some(Number(7500)),
                          Some("Покупка в Магните"))
    requires t3 == Record(Some("2021-01-05"), Some("Переводы"), Some(Number(500000)), None,
                          Some("Перевод Иванову А.А. +7 999 123-45-67"))
    requires t4 == Record(Some("2021-01-25"), Some("Транспорт"), Some(Number(50000)), None, Some("Такси домой"))
    requires t5 == Record(Some("2021-01-30"), Some("Переводы"), Some(Number(300000)), None, Some("Перевод Петрову С.И."))
    ensures CashbackTotals([t0, t1, t2, t3, t4, t5], 2021, 1) == map["Супермаркеты" := 5025, "Рестораны" := 10050]
    ensures Savings([t0, t1, t2, t3, t4, t5], 2021, 1, 100) == 19875
  {
    FirstPurchase(t0);
    Dinner(t1);
    FebruaryPurchase(t2);
    TestTransfersAndTaxi(t3, t4, t5);
    CashbackOfSix(t0, t1, t2, t3, t4, t5);
    SavingsOfSix(t0, t1, t2, t3, t4, t5);
  }

  /** The month argument `"2021-01"` reads as January 2021. */
  lemma {:induction false} JanuaryArgument(month: string)
    requires month == "2021-01"
    ensures SplitOn(month, '-') == ["2021", "01"]
    ensures ParseInt("2021") == Some(2021) && ParseInt("01") == Some(1)
  {
    MonthArgumentReadsBack(2021, 1);
    assert Pad4(2021) == "2021" && Pad2(1) == "01";
    assert month == Pad4(2021) + "-" + Pad2(1);
  }
}
