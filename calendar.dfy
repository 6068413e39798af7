/** Calendar dates and timestamps as the source sees them through Python's `datetime` and pandas
    `Timestamp`: validity, chronological order, weekday, and the text formats the source parses
    (`%Y-%m-%d`, `%d.%m.%Y %H:%M:%S`, `%Y-%m-%d %H:%M:%S`) and prints (`%d.%m.%Y`, `%Y%m%d_%H%M%S`).

    Parsing follows the strptime grammar: `%Y` is exactly four digits; `%m`, `%H`, `%M`, `%S` are
    one digit or two digits in range; `%d` may also be a space followed by a non-zero digit; a space
    in the format stands for one or more whitespace characters; the whole text must be consumed;
    and the fields must form a real date (`datetime` rejects day 30 of February, second 60, year 0). */
module Calendar {
  import opened Wrappers

  datatype Date = Date(year: int, month: int, day: int)

  datatype Timestamp = Timestamp(date: Date, hour: int, minute: int, second: int)

  predicate IsLeapYear(y: int)
  {
    y % 4 == 0 && (y % 100 != 0 || y % 400 == 0)
  }

  function DaysInMonth(year: int, month: int): int
    requires 1 <= month <= 12
  {
    if month == 2 then (if IsLeapYear(year) then 29 else 28)
    else if month == 4 || month == 6 || month == 9 || month == 11 then 30
    else 31
  }

  /** A date `datetime.date` accepts (years 1 to 9999). */
  predicate ValidDate(d: Date)
  {
    1 <= d.year <= 9999 && 1 <= d.month <= 12 && 1 <= d.day <= DaysInMonth(d.year, d.month)
  }

  predicate ValidStamp(t: Timestamp)
  {
    ValidDate(t.date) && 0 <= t.hour < 24 && 0 <= t.minute < 60 && 0 <= t.second < 60
  }

  /** `pd.to_datetime("YYYY-MM-DD")`: the start of that day. */
  function Midnight(d: Date): Timestamp
  {
    Timestamp(d, 0, 0, 0)
  }

  /** Chronological order: `a <= b`. */
  predicate NotAfter(a: Timestamp, b: Timestamp)
  {
    if a.date.year != b.date.year then a.date.year < b.date.year
    else if a.date.month != b.date.month then a.date.month < b.date.month
    else if a.date.day != b.date.day then a.date.day < b.date.day
    else if a.hour != b.hour then a.hour < b.hour
    else if a.minute != b.minute then a.minute < b.minute
    else a.second <= b.second
  }

  /** Days since 1970-01-01 in the proleptic Gregorian calendar. Dafny's `/` with a positive
      divisor rounds down, which is what the era computation needs for years before 1. */
  function DaysSinceEpoch(d: Date): int
  {
    var y := if d.month <= 2 then d.year - 1 else d.year;
    var era := y / 400;
    var yoe := y - era * 400;
    var mp := (d.month + 9) % 12;
    var doy := (153 * mp + 2) / 5 + d.day - 1;
    var doe := yoe * 365 + yoe / 4 - yoe / 100 + doy;
    era * 146097 + doe - 719468
  }

  /** pandas `dayofweek`: Monday is 0 and Sunday is 6 (1970-01-01 was a Thursday). */
  function Weekday(d: Date): int
  {
    (DaysSinceEpoch(d) + 3) % 7
  }

  /** pandas `day_name()`. */
  function DayName(d: Date): string
  {
    var w := Weekday(d);
    if w == 0 then "Monday" else if w == 1 then "Tuesday" else if w == 2 then "Wednesday"
    else if w == 3 then "Thursday" else if w == 4 then "Friday" else if w == 5 then "Saturday"
    else "Sunday"
  }

  // ---------------------------------------------------------------- digits and fields

  predicate IsDigit(c: char)
  {
    '0' <= c <= '9'
  }

  /** The characters Python's `\s` matches in the ASCII range. */
  predicate IsSpace(c: char)
  {
    c == ' ' || c == '\t' || c == '\n' || c == '\r' || c == '\U{000B}' || c == '\U{000C}'
  }

  function DigitValue(c: char): int
    requires IsDigit(c)
  {
    c as int - '0' as int
  }

  function DigitChar(n: int): char
    requires 0 <= n < 10
  {
    ('0' as int + n) as char
  }

  /** Zero-padded two-digit rendering, as `strftime` prints `%m`, `%d`, `%H`, `%M`, `%S`. */
  function Pad2(n: int): string
    requires 0 <= n < 100
  {
    [DigitChar(n / 10), DigitChar(n % 10)]
  }

  /** Zero-padded four-digit rendering of `%Y`. */
  function Pad4(n: int): string
    requires 0 <= n < 10000
  {
    [DigitChar(n / 1000), DigitChar(n / 100 % 10), DigitChar(n / 10 % 10), DigitChar(n % 10)]
  }

  /** `%Y`: exactly four digits. */
  function YearField(t: string): Option<int>
  {
    if |t| == 4 && IsDigit(t[0]) && IsDigit(t[1]) && IsDigit(t[2]) && IsDigit(t[3]) then
      Some(1000 * DigitValue(t[0]) + 100 * DigitValue(t[1]) + 10 * DigitValue(t[2]) + DigitValue(t[3]))
    else None
  }

  /** A one- or two-character numeric field with value in [lo, hi]; `spacePadded` admits the
      extra `%d` alternative of a space followed by a non-zero digit. */
  function NumField(t: string, lo: int, hi: int, spacePadded: bool): (r: Option<int>)
    requires 9 <= hi && (spacePadded ==> lo <= 1)
    ensures r.Some? ==> lo <= r.value <= hi
  {
    if |t| == 1 && IsDigit(t[0]) && lo <= DigitValue(t[0]) then Some(DigitValue(t[0]))
    else if |t| == 2 && spacePadded && t[0] == ' ' && IsDigit(t[1]) && 1 <= DigitValue(t[1]) then
      Some(DigitValue(t[1]))
    else if |t| == 2 && IsDigit(t[0]) && IsDigit(t[1]) && lo <= 10 * DigitValue(t[0]) + DigitValue(t[1]) <= hi then
      Some(10 * DigitValue(t[0]) + DigitValue(t[1]))
    else None
  }

  /** Splits at the first occurrence of `sep`. */
  function SplitFirst(s: string, sep: char): (r: Option<(string, string)>)
    ensures r.None? <==> sep !in s
    ensures r.Some? ==> s == r.value.0 + [sep] + r.value.1 && sep !in r.value.0
  {
    if s == [] then None
    else if s[0] == sep then Some(([], s[1..]))
    else match SplitFirst(s[1..], sep)
      case None => None
      case Some(parts) => Some(([s[0]] + parts.0, parts.1))
  }

  function DropSpaces(s: string): (r: string)
    ensures |r| <= |s| && (r != [] ==> !IsSpace(r[0]))
  {
    if s != [] && IsSpace(s[0]) then DropSpaces(s[1..]) else s
  }

  /** The date `datetime` builds from the parsed fields, if it exists. */
  function MakeDate(y: int, m: int, d: int): (r: Option<Date>)
    ensures r.Some? ==> ValidDate(r.value)
  {
    if 1 <= y <= 9999 && 1 <= m <= 12 && 1 <= d <= DaysInMonth(y, m) then Some(Date(y, m, d)) else None
  }

  /** `%H:%M:%S` up to the end of the text (seconds 60 and 61 pass the pattern, not `datetime`). */
  function ParseClock(s: string): (r: Option<(int, int, int)>)
    ensures r.Some? ==> 0 <= r.value.0 < 24 && 0 <= r.value.1 < 60 && 0 <= r.value.2 < 60
  {
    match SplitFirst(s, ':')
    case None => None
    case Some(p1) =>
      match SplitFirst(p1.1, ':')
      case None => None
      case Some(p2) =>
        match (NumField(p1.0, 0, 23, false), NumField(p2.0, 0, 59, false), NumField(p2.1, 0, 61, false))
        case (Some(h), Some(mi), Some(sec)) => if sec <= 59 then Some((h, mi, sec)) else None
        case _ => None
  }

  // ---------------------------------------------------------------- the three parsers

  /** `datetime.strptime(s, "%Y-%m-%d")`; None where it raises ValueError. */
  function ParseIso(s: string): (r: Option<Date>)
    ensures r.Some? ==> ValidDate(r.value)
  {
    if |s| < 5 || s[4] != '-' then None
    else match (YearField(s[..4]), SplitFirst(s[5..], '-'))
      case (Some(y), Some(md)) =>
        (match (NumField(md.0, 1, 12, false), NumField(md.1, 1, 31, true))
         case (Some(m), Some(d)) => MakeDate(y, m, d)
         case _ => None)
      case _ => None
  }

  /** `strptime(s, "%d.%m.%Y %H:%M:%S")`, the day-first format with a time of day. */
  function ParseDayFirst(s: string): (r: Option<Timestamp>)
    ensures r.Some? ==> ValidStamp(r.value)
  {
    match SplitFirst(s, '.')
    case None => None
    case Some(p1) =>
      match SplitFirst(p1.1, '.')
      case None => None
      case Some(p2) =>
        var rest := p2.1;
        if |rest| < 5 || !IsSpace(rest[4]) then None
        else match (NumField(p1.0, 1, 31, true), NumField(p2.0, 1, 12, false), YearField(rest[..4]),
                    ParseClock(DropSpaces(rest[4..])))
          case (Some(d), Some(m), Some(y), Some(clock)) =>
            (match MakeDate(y, m, d)
             case Some(date) => Some(Timestamp(date, clock.0, clock.1, clock.2))
             case None => None)
          case _ => None
  }

  /** `strptime(s, "%Y-%m-%d %H:%M:%S")`, as `home_page` reads its argument. */
  function ParseIsoStamp(s: string): (r: Option<Timestamp>)
    ensures r.Some? ==> ValidStamp(r.value)
  {
    if |s| < 5 || s[4] != '-' then None
    else match (YearField(s[..4]), SplitFirst(s[5..], '-'))
      case (Some(y), Some(md)) =>
        var rest := md.1;
        // %d is two characters when it is space-padded or two digits, otherwise one
        var dayLen := if |rest| >= 2 && (rest[0] == ' ' || (IsDigit(rest[0]) && IsDigit(rest[1]))) then 2 else 1;
        if |rest| <= dayLen || !IsSpace(rest[dayLen]) then None
        else
          (match (NumField(md.0, 1, 12, false), NumField(rest[..dayLen], 1, 31, true),
                  ParseClock(DropSpaces(rest[dayLen..])))
           case (Some(m), Some(d), Some(clock)) =>
             (match MakeDate(y, m, d)
              case Some(date) => Some(Timestamp(date, clock.0, clock.1, clock.2))
              case None => None)
           case _ => None)
      case _ => None
  }

  // ---------------------------------------------------------------- printing

  /** `strftime("%Y-%m-%d")`. */
  function FormatIso(d: Date): string
    requires ValidDate(d)
  {
    Pad4(d.year) + "-" + Pad2(d.month) + "-" + Pad2(d.day)
  }

  /** `strftime("%d.%m.%Y")`, the date shown for a top transaction. */
  function FormatDayMonthYear(d: Date): string
    requires ValidDate(d)
  {
    Pad2(d.day) + "." + Pad2(d.month) + "." + Pad4(d.year)
  }

  function FormatClock(t: Timestamp): string
    requires ValidStamp(t)
  {
    Pad2(t.hour) + ":" + Pad2(t.minute) + ":" + Pad2(t.second)
  }

  /** `strftime("%d.%m.%Y %H:%M:%S")`. */
  function FormatDayFirst(t: Timestamp): string
    requires ValidStamp(t)
  {
    FormatDayMonthYear(t.date) + " " + FormatClock(t)
  }

  /** `strftime("%Y-%m-%d %H:%M:%S")`, the form in which the command-line driver hands the
      current time to `home_page`. */
  function FormatIsoStamp(t: Timestamp): string
    requires ValidStamp(t)
  {
    FormatIso(t.date) + " " + FormatClock(t)
  }

  /** `strftime("%Y%m%d_%H%M%S")`, the time stamp in a default report file name. */
  function FormatCompact(t: Timestamp): string
    requires ValidStamp(t)
  {
    Pad4(t.date.year) + Pad2(t.date.month) + Pad2(t.date.day) + "_" + Pad2(t.hour) + Pad2(t.minute) + Pad2(t.second)
  }

  /** Reads a `%Y%m%d_%H%M%S` stamp back; used to show that a report file name determines the time
      it was written. */
  ghost function ParseCompact(s: string): Option<Timestamp>
  {
    if |s| == 15 && s[8] == '_' then
      match (YearField(s[..4]), TwoDigits(s[4..6]), TwoDigits(s[6..8]), TwoDigits(s[9..11]),
             TwoDigits(s[11..13]), TwoDigits(s[13..]))
      case (Some(y), Some(mo), Some(d), Some(h), Some(mi), Some(se)) => Some(Timestamp(Date(y, mo, d), h, mi, se))
      case _ => None
    else None
  }

  /** Exactly two digits, read as a number. */
  ghost function TwoDigits(t: string): Option<int>
  {
    if |t| == 2 && IsDigit(t[0]) && IsDigit(t[1]) then Some(10 * DigitValue(t[0]) + DigitValue(t[1])) else None
  }
}
