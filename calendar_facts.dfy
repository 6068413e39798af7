/** Properties of the calendar model: every text the source prints with a given format is read
    back by the parser for that format (the print/parse round trips), and the weekday anchors the
    source's tests rely on. */
module CalendarFacts {
  import opened Wrappers
  import opened Calendar

  lemma {:induction false} DigitRoundTrip(n: int)
    requires 0 <= n < 10
    ensures IsDigit(DigitChar(n)) && DigitValue(DigitChar(n)) == n
  {
  }

  /** A zero-padded two-digit field reads back as its value whenever the value is in range. */
  lemma {:induction false} Pad2Field(n: int, lo: int, hi: int, spacePadded: bool)
    requires 0 <= n < 100 && 9 <= hi && (spacePadded ==> lo <= 1) && lo <= n <= hi
    ensures NumField(Pad2(n), lo, hi, spacePadded) == Some(n)
  {
    DigitRoundTrip(n / 10);
    DigitRoundTrip(n % 10);
  }

  lemma {:induction false} Pad4Field(n: int)
    requires 0 <= n < 10000
    ensures YearField(Pad4(n)) == Some(n)
  {
    var t := Pad4(n);
    DigitRoundTrip(n / 1000);
    DigitRoundTrip(n / 100 % 10);
    DigitRoundTrip(n / 10 % 10);
    DigitRoundTrip(n % 10);
    assert n / 100 == 10 * (n / 1000) + n / 100 % 10;
    assert n / 10 == 10 * (n / 100) + n / 10 % 10;
    assert n == 10 * (n / 10) + n % 10;
    assert DigitValue(t[0]) == n / 1000 && DigitValue(t[1]) == n / 100 % 10;
    assert DigitValue(t[2]) == n / 10 % 10 && DigitValue(t[3]) == n % 10;
  }

  lemma {:induction false} Pad2NoSeparator(n: int, c: char)
    requires 0 <= n < 100 && !IsDigit(c)
    ensures c !in Pad2(n) && !IsSpace(Pad2(n)[0])
  {
    DigitRoundTrip(n / 10);
    DigitRoundTrip(n % 10);
  }

  /** Splitting a text glued around its first separator gives back the two halves. */
  lemma {:induction false} SplitFirstGlued(a: string, b: string, sep: char)
    requires sep !in a
    ensures SplitFirst(a + [sep] + b, sep) == Some((a, b))
  {
    if a != [] {
      SplitFirstGlued(a[1..], b, sep);
      assert (a + [sep] + b)[0] == a[0] != sep;
      assert (a + [sep] + b)[1..] == a[1..] + [sep] + b;
      assert [a[0]] + a[1..] == a;
    } else {
      assert (a + [sep] + b)[1..] == b;
    }
  }

  lemma {:induction false} DropSpacesKeeps(s: string)
    requires s != [] && !IsSpace(s[0])
    ensures DropSpaces(s) == s
  {
  }

  lemma {:induction false} ClockRoundTrip(t: Timestamp)
    requires ValidStamp(t)
    ensures ParseClock(FormatClock(t)) == Some((t.hour, t.minute, t.second))
  {
    var h, m, s := Pad2(t.hour), Pad2(t.minute), Pad2(t.second);
    Pad2NoSeparator(t.hour, ':');
    Pad2NoSeparator(t.minute, ':');
    assert FormatClock(t) == h + [':'] + (m + [':'] + s);
    SplitFirstGlued(h, m + [':'] + s, ':');
    SplitFirstGlued(m, s, ':');
    Pad2Field(t.hour, 0, 23, false);
    Pad2Field(t.minute, 0, 59, false);
    Pad2Field(t.second, 0, 61, false);
  }

  /** What `strftime("%Y-%m-%d")` prints, `strptime(_, "%Y-%m-%d")` reads back. */
  lemma {:induction false} IsoRoundTrip(d: Date)
    requires ValidDate(d)
    ensures ParseIso(FormatIso(d)) == Some(d)
  {
    var s := FormatIso(d);
    var y, m, dd := Pad4(d.year), Pad2(d.month), Pad2(d.day);
    assert s == y + ['-'] + (m + ['-'] + dd);
    assert s[..4] == y;
    assert s[5..] == m + ['-'] + dd;
    Pad4Field(d.year);
    Pad2NoSeparator(d.month, '-');
    SplitFirstGlued(m, dd, '-');
    Pad2Field(d.month, 1, 12, false);
    Pad2Field(d.day, 1, 31, true);
  }

  /** The part after the second dot of a `%d.%m.%Y %H:%M:%S` text: the four-digit year, the
      space, and the clock. */
  lemma {:induction false} DayFirstTail(t: Timestamp)
    requires ValidStamp(t)
    ensures var rest := Pad4(t.date.year) + [' '] + FormatClock(t);
      |rest| >= 5 && IsSpace(rest[4]) && YearField(rest[..4]) == Some(t.date.year)
      && ParseClock(DropSpaces(rest[4..])) == Some((t.hour, t.minute, t.second))
  {
    var clock := FormatClock(t);
    var rest := Pad4(t.date.year) + [' '] + clock;
    assert rest[..4] == Pad4(t.date.year) && rest[4] == ' ' && rest[4..] == [' '] + clock;
    Pad4Field(t.date.year);
    Pad2NoSeparator(t.hour, ':');
    assert clock[0] == Pad2(t.hour)[0];
    DropSpacesKeeps(clock);
    assert DropSpaces(rest[4..]) == DropSpaces(clock);
    ClockRoundTrip(t);
  }

  /** What `strftime("%d.%m.%Y %H:%M:%S")` prints, the day-first parser reads back. */
  lemma {:induction false} DayFirstRoundTrip(t: Timestamp)
    requires ValidStamp(t)
    ensures ParseDayFirst(FormatDayFirst(t)) == Some(t)
  {
    var d := t.date;
    var dd, m, rest := Pad2(d.day), Pad2(d.month), Pad4(d.year) + [' '] + FormatClock(t);
    var s := FormatDayFirst(t);
    assert s == dd + ['.'] + (m + ['.'] + rest);
    Pad2NoSeparator(d.day, '.');
    Pad2NoSeparator(d.month, '.');
    SplitFirstGlued(dd, m + ['.'] + rest, '.');
    SplitFirstGlued(m, rest, '.');
    DayFirstTail(t);
    Pad2Field(d.month, 1, 12, false);
    Pad2Field(d.day, 1, 31, true);
    assert MakeDate(d.year, d.month, d.day) == Some(d);
  }

  /** The part after the second dash of a `%Y-%m-%d %H:%M:%S` text: a two-character day, the
      space, and the clock. */
  lemma {:induction false} IsoStampTail(t: Timestamp)
    requires ValidStamp(t)
    ensures var rest := Pad2(t.date.day) + [' '] + FormatClock(t);
      |rest| > 2 && (rest[0] == ' ' || (IsDigit(rest[0]) && IsDigit(rest[1]))) && IsSpace(rest[2])
      && rest[..2] == Pad2(t.date.day)
      && ParseClock(DropSpaces(rest[2..])) == Some((t.hour, t.minute, t.second))
  {
    var clock := FormatClock(t);
    var rest := Pad2(t.date.day) + [' '] + clock;
    DigitRoundTrip(t.date.day / 10);
    DigitRoundTrip(t.date.day % 10);
    assert rest[..2] == Pad2(t.date.day) && rest[2] == ' ' && rest[2..] == [' '] + clock;
    Pad2NoSeparator(t.hour, ':');
    assert clock[0] == Pad2(t.hour)[0];
    DropSpacesKeeps(clock);
    assert DropSpaces(rest[2..]) == DropSpaces(clock);
    ClockRoundTrip(t);
  }

  /** What `strftime("%Y-%m-%d %H:%M:%S")` prints, `home_page` reads back. */
  lemma {:induction false} IsoStampRoundTrip(t: Timestamp)
    requires ValidStamp(t)
    ensures ParseIsoStamp(FormatIsoStamp(t)) == Some(t)
  {
    var d := t.date;
    var rest := Pad2(d.day) + [' '] + FormatClock(t);
    IsoStampHead(t);
    IsoStampTail(t);
    Pad2Field(d.month, 1, 12, false);
    Pad2Field(d.day, 1, 31, true);
    assert NumField(rest[..2], 1, 31, true) == Some(d.day);
    assert MakeDate(d.year, d.month, d.day) == Some(d);
  }

  /** The part of a `%Y-%m-%d %H:%M:%S` text up to the second dash: the year and the month. */
  lemma {:induction false} IsoStampHead(t: Timestamp)
    requires ValidStamp(t)
    ensures var s := FormatIsoStamp(t);
      |s| >= 5 && s[4] == '-' && YearField(s[..4]) == Some(t.date.year)
      && SplitFirst(s[5..], '-') == Some((Pad2(t.date.month), Pad2(t.date.day) + [' '] + FormatClock(t)))
  {
    var d := t.date;
    var y, m := Pad4(d.year), Pad2(d.month);
    var rest := Pad2(d.day) + [' '] + FormatClock(t);
    var s := FormatIsoStamp(t);
    assert s == y + ['-'] + (m + ['-'] + rest);
    assert s[..4] == y && s[4] == '-';
    assert s[5..] == m + ['-'] + rest;
    Pad4Field(d.year);
    Pad2NoSeparator(d.month, '-');
    SplitFirstGlued(m, rest, '-');
  }

  /** The compact `%Y%m%d_%H%M%S` stamp determines the time it was printed from. */
  lemma {:induction false} CompactRoundTrip(t: Timestamp)
    requires ValidStamp(t)
    ensures ParseCompact(FormatCompact(t)) == Some(t)
  {
    var s := FormatCompact(t);
    var d := t.date;
    var y, mo, dd, h, mi, se := Pad4(d.year), Pad2(d.month), Pad2(d.day), Pad2(t.hour), Pad2(t.minute), Pad2(t.second);
    assert s == y + mo + dd + "_" + h + mi + se;
    assert s[..4] == y && s[4..6] == mo && s[6..8] == dd && s[8] == '_';
    assert s[9..11] == h && s[11..13] == mi && s[13..] == se;
    Pad4Field(d.year);
    Pad2Value(d.month);
    Pad2Value(d.day);
    Pad2Value(t.hour);
    Pad2Value(t.minute);
    Pad2Value(t.second);
  }

  /** A zero-padded two-digit field reads back as its value. */
  lemma {:induction false} Pad2Value(n: int)
    requires 0 <= n < 100
    ensures TwoDigits(Pad2(n)) == Some(n)
  {
    DigitRoundTrip(n / 10);
    DigitRoundTrip(n % 10);
  }

  lemma {:induction false} CompactInjective(t1: Timestamp, t2: Timestamp)
    requires ValidStamp(t1) && ValidStamp(t2) && FormatCompact(t1) == FormatCompact(t2)
    ensures t1 == t2
  {
    CompactRoundTrip(t1);
    CompactRoundTrip(t2);
  }

  /** The weekdays of the dates in the source's report tests: 2021-01-01 and 2021-01-15 were
      Fridays, 2021-02-01 a Monday, 2021-05-30 a Sunday and 2020-12-31 a Thursday. */
  lemma NewYear2021IsFriday()
    ensures Weekday(Date(2021, 1, 1)) == 4
  {
    assert 2020 / 400 == 5;
  }

  lemma MidJanuary2021IsFriday()
    ensures Weekday(Date(2021, 1, 15)) == 4
  {
    assert 2020 / 400 == 5;
  }

  lemma February2021StartsOnMonday()
    ensures Weekday(Date(2021, 2, 1)) == 0
  {
    assert 2020 / 400 == 5;
  }

  lemma May30th2021IsSunday()
    ensures Weekday(Date(2021, 5, 30)) == 6
  {
    assert 2021 / 400 == 5;
  }

  lemma NewYearsEve2020IsThursday()
    ensures Weekday(Date(2020, 12, 31)) == 3
  {
    assert 2020 / 400 == 5;
  }
}
