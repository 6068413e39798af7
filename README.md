# Personal-finance toolkit: a verified model of its transaction layer

The toolkit reads a bank's operation export (date, card number, amount, cashback, category and
description per operation) and offers three layers on top of it. This project models all three
in Dafny.

- **Services** (`src/services.py`) walk a list of operation records:
  - cashback per category for one month;
  - round-up savings ("investment bank");
  - a case-insensitive text search;
  - a phone-number search;
  - a search for transfers to people.
- **Reports** (`src/reports.py`) aggregate the operations table inside the window 2018-01-01 to
  2021-12-31:
  - the spending of one category per month;
  - the mean spending per weekday name;
  - the mean spending on workdays and on weekends.

  A decorator saves each report to a JSON file and returns the report unchanged.
- **Views** (`src/views.py`) assemble two pages:
  - the home page: a greeting, per-card sums, the top five operations and the quotes;
  - the events page: the expense categories (top seven plus a remainder), the income categories,
    a fixed cash and transfers stub, and the quotes.

  The helpers they use (`src/utils.py`) give the greeting for an hour of the day and shape the
  currency-rate and stock-price lists.

## Representation

- **Amounts** are whole kopecks (`int`).
  - A mean is an exact `real`.
  - Python's `round(x)` of a rouble amount is `Views.RoundRoubles`, rounding half to even.
- **Records** (`Services.Record`) carry `Option` fields, so a missing dictionary key is `None`.
  - A value that `float()` rejects is `NotANumber`.
  - A record the source skips (because of a `KeyError` or `ValueError`) contributes nothing.
- **The operations table** is a sequence of `Frames.Row`.
  - Its date column holds either timestamps or the raw texts (`Frames.DateCell`).
  - `Frames.Frame` is the DataFrame the reports and the events page receive. Its date column is
    overwritten in place by `pd.to_datetime`, which is `Frames.Frame.ConvertDates`.
- **Dates** are `Calendar.Date` and `Calendar.Timestamp`. They are parsed with the strptime
  grammar of the three formats the source uses, and printed with the formats it prints.
  - Weekdays are computed from days since 1970-01-01.
- **Group-bys** (`Grouping.GroupSums` and `Grouping.GroupMeans`) list each distinct key once, in
  ascending key order, as pandas does.
- **`nlargest(n)`** (`Grouping.NLargest`) repeatedly takes the first entry with the largest
  score, so ties keep the original order.
- **The regular expressions** are a small pattern language (`Patterns.Pattern`).
  - The two default patterns of the searches are written out in it.
  - A caller's custom pattern is read as literal text.
- **Outside inputs are parameters**:
  - the environment variables;
  - the user's currencies and stocks;
  - the quote providers' answers;
  - the current time, and whether the report directory and file could be written.
- **Errors**: each operation that raises in the source returns an error value (`Result`), one
  error per cause.

### Where the model follows the code rather than the description

- **`events_page` filters once for nothing.** It first filters the raw column on both bounds of
  the range (src/views.py:112-115). It then converts the column and keeps only
  `date >= start` (src/views.py:118).
  - `Views.EventsPage` computes the first filter and discards it, as the code does.
  - `Views.EventsSpec` keeps only what that filter can do to the result: if the raw column holds
    text, the first comparison raises, and both return `Incomparable`.
  - Operations after 2021-12-31 are counted (`Views.LaterOperationCounts`).
- **The home page's warning is unreachable.** It sits under `not filtered.empty`, and a
  non-empty window means a non-empty table (src/views.py:63-84). `Views.Assemble` keeps the
  branch; `Views.HomeNeverWarns` proves that it is never taken.
- **`spending_by_workday` lists only the day kinds present**, at most two, not always two.
- **`events_page` ignores `date_str`**, and **`spending_by_category` ignores `date`**.
- **An unknown range code selects 2021-12-25**, and no error is raised.

## Model

| member | source | states |
|---|---|---|
| Services.ProfitableCashbackCategories | src/services.py:11-47 | The loop's dictionary is the month's cashback totals, with the year clamped to 2021 outside 2018-2021 and the month clamped to 12 outside 1-12. So an out-of-range call equals the clamped call. |
| Services.AddRecordCashback | src/services.py:34-45 | One loop step adds the record's positive in-month cashback to its category's total, and changes nothing for a skipped record. |
| Services.CashbackSnoc | src/services.py:33-45 | Processing one more record adds exactly that record's cashback entry to the totals so far. |
| Services.CashbackTotalsByCategory | src/services.py:33-45 | A category is in the result exactly when its positive cashbacks in the month add up to more than zero, and then it maps to that sum (an independent per-category reference). |
| Services.CashbackIgnoresInert | src/services.py:43-45 | A record that is skipped (missing key, unreadable date or number, other month, no positive cashback) can be removed from anywhere in the list without changing the result. |
| Services.InvestmentBank | src/services.py:50-92 | Each of the following is an error: a month text that is not two dash-separated integers, a month number outside 1-12, and a limit ≤ 0. Otherwise the result is the sum of the round-ups of the month's operations, with the year clamped to 2021. |
| Services.UpToNextMultiple | src/services.py:84-86 | `limit - amount % limit` lies strictly between 0 and the limit and takes the amount to the next multiple of the limit. |
| Services.RoundUpBounds | src/services.py:80-87 | An operation adds strictly between 0 and the limit. It adds something exactly when it is an in-month expense that is not already a multiple of the limit, and then amount plus round-up is the next multiple. |
| Services.SavingsBounds | src/services.py:76-92 | The savings are ≥ 0, at most one limit per operation, and 0 for a month without operations. |
| Services.SavingsSnoc | src/services.py:78-90 | Processing one more record adds exactly that record's round-up to the savings so far. |
| Services.DatedBy | src/services.py:35 | A record whose date text is the `%Y-%m-%d` print of a date is dated on that date. |
| Services.PurchaseInMonth | src/services.py:36-45 | An in-month record with a positive cashback contributes its category and cashback, and a round-up of `limit - amount % limit` for a positive amount that is not already a multiple (0 otherwise). |
| Services.OutsideMonth | src/services.py:36 | A record outside the month contributes neither cashback nor a round-up. |
| Services.NoCashbackKey | src/services.py:38-40 | A record without a cashback field contributes no cashback (`get("Кэшбэк", 0)` is not above 0). |
| Services.WholeLimits | src/services.py:84-85 | An amount that is already a multiple of the limit adds no round-up. |
| Services.SplitOn | src/services.py:65 | `split("-")` yields at least one piece. |
| Services.MonthArgumentReadsBack | src/services.py:65 | A `YYYY-MM` argument splits into its two fields, and they read back as the year and the month. |
| Services.DigitsValueOfPad | src/services.py:65 | A zero-padded number reads back through `int()` as itself. |
| Services.JanuaryArgument | tests/test_services.py:91-95 | `"2021-01"` reads as year 2021, month 1. |
| Services.TestRecords | tests/test_services.py:9-66 | On the six test records, January 2021 gives exactly {Супермаркеты: 50.25, Рестораны: 100.50} of cashback, and rounding up to 100 roubles saves 198.75 (tests/test_services.py:91-95). |
| Services.FirstPurchase | tests/test_services.py:11-17 | The 2021-01-15 purchase adds 50.25 of cashback and a 99.50 round-up. |
| Services.Dinner | tests/test_services.py:18-24 | The 2021-01-20 dinner adds 100.50 of cashback and a 99.25 round-up. |
| Services.FebruaryPurchase | tests/test_services.py:25-31 | The February purchase adds nothing to January. |
| Services.TestTransfersAndTaxi | tests/test_services.py:32-49 | The two transfers and the taxi ride, which have no cashback and whole amounts, add neither cashback nor round-ups. |
| Services.CashbackOfSix | tests/test_services.py:59-66 | Six records whose entries are those of the test data give exactly {Супермаркеты: 50.25, Рестораны: 100.50}. |
| Services.SavingsOfSix | tests/test_services.py:10-50 | Six records whose round-ups are those of the test data save 198.75. |
| Services.SimpleSearch | src/services.py:95-130 | An empty query gives []. Otherwise the result is the order-preserving sub-list of records that have both fields and in which the (lower-cased, unless case-sensitive) query occurs in the description or the category. |
| Services.MentionsMeansOccurs | src/services.py:119-123 | The search's scan finds the query exactly when it is a contiguous slice of the description or of the category. |
| Services.CaseInsensitiveIgnoresQueryCase | src/services.py:111 | A case-insensitive search gives the same answer for a query and for its lower-case form. |
| Services.Compiled | src/services.py:145 | A missing pattern falls back to the default. |
| Services.EmptyPatternIsDefault | src/services.py:145 | An empty pattern behaves as a missing one (`or`). |
| Services.PhoneNumberSearch | src/services.py:133-157 | The result is the order-preserving sub-list of records that have a description in which the pattern (the default phone pattern unless one is given) is found. |
| Services.PersonTransfersSearch | src/services.py:160-184 | The result is the order-preserving sub-list of records whose category is exactly "Переводы" and whose description contains a match of the name pattern. |
| Services.CustomPatternIsSubstring | tests/test_services.py:150-154 | A non-empty custom pattern free of regular-expression metacharacters finds exactly the descriptions that contain it. |
| Patterns.Literal | src/services.py:145 | A plain text is the pattern that matches each of its characters in turn. |
| Patterns.Effective | src/services.py:145 | An empty custom pattern means the default pattern, and a non-empty one means its literal text. |
| Patterns.LiteralPrefix | src/services.py:151 | A literal pattern matches at the start of a text exactly when the text starts with it. |
| Patterns.LiteralSearch | src/services.py:151 | `re.search` with a literal pattern is the substring test. |
| Patterns.SearchSomeSuffix | src/services.py:151 | A search succeeds exactly when a match starts at some position of the text. |
| Patterns.PhoneSearchNeedsPlus | src/services.py:145 | Whatever the default phone pattern finds contains `+`. |
| Patterns.PhoneFoundInTransfer | tests/test_services.py:142-147 | The default phone pattern finds `+7 999 123-45-67` in the transfer description of the tests. |
| Patterns.PhoneNumberMatches | tests/test_services.py:142-147 | The default phone pattern matches `+7 999 123-45-67` from its first character. |
| Patterns.AtomwiseMatch | src/services.py:145 | A pattern of single-character atoms matches a text of its length whose every character lies in the atom's class. |
| Patterns.NameFoundAfterPrefix | src/services.py:172 | The default name pattern finds `<Surname> <Initial>.` after an 8-character prefix such as `Перевод `. |
| Text.Lower | src/services.py:120-121 | Latin and Cyrillic capitals (and Ё) become lower case, and every other character is kept. |
| Text.LowerStr | src/services.py:111 | Lower-casing a text lower-cases each character and keeps the length. |
| Text.LowerStrIdempotent | src/services.py:111 | Lower-casing twice is lower-casing once. |
| Text.IsInfixMeansOccurs | src/services.py:123 | The `in` scan succeeds exactly when the needle is a contiguous slice of the text. |
| Text.EmptyOccurs | src/services.py:108-109 | The empty query occurs in every text, which is why the source returns [] for it before searching. |
| Calendar.ParseIso | src/services.py:35 | `strptime(s, "%Y-%m-%d")` succeeds only with a real date. |
| Calendar.ParseDayFirst | src/reports.py:105 | `%d.%m.%Y %H:%M:%S` succeeds only with a real moment. |
| Calendar.ParseIsoStamp | src/views.py:20 | `%Y-%m-%d %H:%M:%S` succeeds only with a real moment. |
| Calendar.NumField | src/services.py:35 | A numeric field that parses lies within its bounds. |
| Calendar.SplitFirst | src/services.py:35 | Splitting at the first separator gives two halves that glue back into the text, the first free of the separator, and fails exactly when the separator is absent. |
| Calendar.MakeDate | src/services.py:35 | Only real dates are built. |
| Calendar.ParseClock | src/reports.py:105 | A parsed time of day is within 0-23:0-59:0-59. |
| Calendar.DropSpaces | src/reports.py:105 | Dropping leading whitespace leaves no leading whitespace. |
| CalendarFacts.IsoRoundTrip | src/services.py:35 | What `strftime("%Y-%m-%d")` prints, `strptime` reads back. |
| CalendarFacts.DayFirstRoundTrip | src/reports.py:105 | What `%d.%m.%Y %H:%M:%S` prints, the day-first parser reads back. |
| CalendarFacts.IsoStampRoundTrip | src/views.py:20 | What `%Y-%m-%d %H:%M:%S` prints, `home_page` reads back. |
| CalendarFacts.ClockRoundTrip | src/reports.py:105 | A printed time of day reads back. |
| CalendarFacts.CompactRoundTrip | src/reports.py:29 | The `%Y%m%d_%H%M%S` stamp determines the moment. |
| CalendarFacts.CompactInjective | src/reports.py:29 | Different moments print different stamps. |
| CalendarFacts.SplitFirstGlued | src/services.py:65 | Splitting `a + sep + b` at its first separator gives `a` and `b`. |
| CalendarFacts.Pad2Field | src/services.py:35 | A two-digit field reads back. |
| CalendarFacts.Pad4Field | src/services.py:35 | A four-digit year reads back. |
| CalendarFacts.Pad2Value | src/services.py:35 | A zero-padded two-digit number reads back as itself. |
| CalendarFacts.DayFirstTail | src/reports.py:105 | After the day and month, a printed `%Y %H:%M:%S` tail reads back as the year and the time of day. |
| CalendarFacts.IsoStampHead | src/views.py:20 | A printed `%Y-%m-%d %H:%M:%S` text starts with the year field, and the rest splits at its first dash into the month and the remainder. |
| CalendarFacts.IsoStampTail | src/views.py:20 | After the month, the day field and the printed time of day read back. |
| CalendarFacts.NewYear2021IsFriday | tests/test_reports.py:19-28 | 2021-01-01 was a Friday. |
| CalendarFacts.MidJanuary2021IsFriday | tests/test_reports.py:19-28 | 2021-01-15 was a Friday. |
| CalendarFacts.February2021StartsOnMonday | tests/test_reports.py:19-28 | 2021-02-01 was a Monday. |
| CalendarFacts.May30th2021IsSunday | tests/test_reports.py:19-28 | 2021-05-30 was a Sunday. |
| CalendarFacts.NewYearsEve2020IsThursday | tests/test_reports.py:19-28 | 2020-12-31 was a Thursday. |
| Lists.Filter | src/services.py:113-130 | A filtered list is no longer than its input and holds exactly the input's elements that pass the test. |
| Lists.FilterIsOrderedSelection | src/services.py:113-130 | The filtered list is the passing elements at ascending positions, so order is kept. |
| Lists.SelectedIndicesExact | src/services.py:113-130 | The selected positions are ascending, in range, and are exactly those that pass. |
| Lists.FilterAtIndices | src/services.py:113-130 | The k-th kept element is the input's element at the k-th selected position. |
| Lists.FilterAll | src/services.py:124 | A list whose every element passes is kept whole. |
| Lists.FilterSnoc | src/services.py:124 | Appending a record appends it to the result or appends nothing. |
| Frames.Frame.ConvertDates | src/views.py:117 | The date column is replaced by its parsed timestamps when every text parses, and the frame is left as it was when parsing raises. |
| Frames.IsoAtMidnight | src/reports.py:103 | A `%Y-%m-%d` text becomes the start of that day. |
| Frames.ParseCellsSpec | src/reports.py:102-105 | A column parses exactly when every text cell parses. The result keeps the column's length and every timestamp. |
| Frames.StampsConvertToThemselves | src/views.py:117 | Converting a column that already holds timestamps changes nothing. |
| Frames.ConversionKeepsOtherColumns | src/reports.py:71 | Conversion changes only the date column and leaves only timestamps there. |
| Frames.IsoColumnReadsBack | src/reports.py:102-103 | A column of `%Y-%m-%d` texts reads back as the midnights of those dates. |
| Frames.ConvertedDatesValid | src/views.py:38 | Conversion yields real moments only. |
| Frames.ParsedValid | src/reports.py:102-105 | Parsing a column of real moments with a parser that yields only real moments keeps the length and yields only real moments. |
| Frames.LastDayOnlyAtMidnight | src/reports.py:65-75 | The window ends at midnight of 2021-12-31, so later operations that day fall outside it. |
| Frames.WindowByDate | src/views.py:39-44 | Apart from that last day, the window is the years 2018-2021. |
| Frames.SelectedGroup | src/views.py:51-53 | A key's group sum and count are the sum and count of the rows with that key. |
| Frames.PairedTotal | src/reports.py:83-85 | The grouped values add up to the column's sum. |
| Frames.Dates | src/views.py:117 | The date column has one cell per row. |
| Frames.Amounts | src/views.py:52 | The amount column has one entry per row. |
| Grouping.GroupSums | src/reports.py:83-85 | `groupby().sum()` has one entry per distinct key, in key order, carrying that key's sum. |
| Grouping.GroupMeans | src/reports.py:113 | `groupby().mean()` has one entry per distinct key, in key order. |
| Grouping.GroupSumsSpec | src/reports.py:83-85 | Keys ascending and distinct, exactly the keys that occur, each with its sum; the sums add up to the total. |
| Grouping.GroupMeansSpec | src/reports.py:113 | Keys ascending and distinct, exactly the keys that occur, each with sum divided by count. |
| Grouping.GroupMeansKeys | src/reports.py:113 | The mean keys are ascending and are exactly the keys that occur. |
| Grouping.GroupMeansValues | src/reports.py:113 | Each mean is its key's sum over its key's (positive) count. |
| Grouping.KeysSortedExact | src/reports.py:83-85 | The key list is ascending and repeat-free and holds exactly the keys that occur. |
| Grouping.InsertKeepsOrder | src/reports.py:83-85 | Inserting a key keeps the list ascending, and adds that key and nothing else. |
| Grouping.TotalOverAll | src/reports.py:83-85 | Over the distinct keys, the per-key sums add up to the total. |
| Grouping.CountPositive | src/reports.py:113 | A key's count is positive exactly when it occurs, so no mean divides by zero. |
| Grouping.GroupCountBound | src/reports.py:137-141 | A key function with k possible values yields at most k groups. |
| Grouping.StrLessOrder | src/reports.py:113 | Text order by code point is a strict total order. |
| Grouping.GroupMeansByText | src/reports.py:113 | The group means with text keys come in code-point order. |
| Grouping.FirstMaxIndex | src/views.py:64 | This is the first position holding the largest score. |
| Grouping.NLargestLength | src/views.py:64 | `nlargest(n)` keeps min(n, len) entries. |
| Grouping.NLargestDescending | src/views.py:64 | The kept entries come largest first. |
| Grouping.NLargestPartition | src/views.py:130 | Kept and left-out entries together are the input, as multisets. |
| Grouping.NLargestSumSplit | src/views.py:131 | Kept and left-out scores add up to the total. |
| Grouping.NLargestMembers | src/views.py:64 | Kept and left-out entries come from the input. |
| Grouping.OmittedBelowKept | src/views.py:130 | No left-out entry scores above a kept one. |
| Reports.FilterStamped | src/reports.py:72-76 | A filter that requires a timestamp keeps only timestamped rows. |
| Reports.DatedPairs | src/reports.py:83-85 | Each row is paired with the key of its date and with its amount. |
| Reports.InWindowRows | src/reports.py:72-76 | The rows kept are exactly the rows dated in [2018-01-01, 2021-12-31]. |
| Reports.PeriodOrder | src/reports.py:84 | Months sort chronologically. |
| Reports.MonthlySums | src/reports.py:83-85 | Grouping by month gives the months present in chronological order, each with its rows' sum, adding up to the total, and nothing exactly when there are no rows. |
| Reports.CategoryRows | src/reports.py:72-76 | The category filter keeps only timestamped rows. |
| Reports.SpendingByCategory | src/reports.py:59-91 | The caller's date column is converted in place. The result is the month-by-month report, or the parsing error. |
| Reports.CategorySpendingSpec | src/reports.py:71-87 | The kept rows are exactly those with the category, dated in the window. There is one entry per month with such rows, in order, with that month's sum. The months add up to the total, and no matching row gives an empty report. |
| Reports.GroupedByKey | src/reports.py:83-85 | Each key's group sum and count are those of the rows dated with that key. |
| Reports.MeanByDayFails | src/reports.py:107-110 | The weekday and workday reports fail exactly when the raw column holds a text (which cannot be compared with a timestamp). |
| Reports.MeanByDayValue | src/reports.py:102-113 | On timestamps, the report is the mean per key of the in-window rows. |
| Reports.GroupMeansOfRows | src/reports.py:112-113 | Keys ascending, exactly those present, each with the arithmetic mean of its rows. |
| Reports.MeanByDaySpec | src/reports.py:94-116 | There is one entry per weekday name present among the in-window rows, each holding the arithmetic mean of those rows' amounts. No in-window row gives an empty report. |
| Reports.KeysWithin | src/reports.py:137-141 | Averaging by a key with values in a range gives at most that many entries, each in the range. |
| Reports.DayNames | src/reports.py:112 | There are at most seven day names. |
| Reports.WeekdayReportBounds | src/reports.py:112-113 | The weekday report has at most 7 entries, each keyed by a day name. |
| Reports.WorkdayReportBounds | src/reports.py:137-141 | The workday report has at most 2 entries, keyed "Выходной" or "Рабочий". |
| Reports.WorkdayFixture | tests/test_reports.py:144-150 | The five-row fixture gives exactly two entries: Выходной with mean 2000.00 and Рабочий with mean 950.00. |
| Reports.FixtureInWindow | tests/test_reports.py:19-28 | Every fixture row lies in the window. |
| Reports.FixtureKinds | tests/test_reports.py:19-28 | 2021-01-01, 2021-01-15, 2021-02-01 and 2020-12-31 are workdays and 2021-05-30 is a weekend day. |
| Reports.FixtureBuckets | src/reports.py:137-139 | The fixture's dates fall on four workdays and one weekend day. |
| Reports.FixtureGroups | src/reports.py:141 | Those buckets average to 2000.00 and 950.00. |
| Reports.ReportName | src/reports.py:29 | An explicit non-empty file name is used verbatim. |
| Reports.DefaultNameReadsBack | src/reports.py:29 | Without one, the name is `report_<function>_<YYYYmmdd_HHMMSS>.json`, and the time reads back from it. |
| Reports.DefaultNamesDiffer | src/reports.py:29 | Two calls at different times write different default files. |
| Reports.ReportToFile | src/reports.py:17-56 | A failing report propagates and writes nothing, and a failing `mkdir` propagates. Otherwise the report's result is returned unchanged, whether or not the write succeeds, and the file carries the report's name. |
| Reports.SavedCategoryReport | src/reports.py:59 | The category report is saved under a default name. |
| Reports.SavedWeekdayReport | src/reports.py:94 | The weekday report is saved under a default name. |
| Reports.SavedWorkdayReport | src/reports.py:119 | The workday report is saved as `workday_spending_report.json`. |
| Utils.Greeting | src/utils.py:43-52 | Hours 5-11 give "Доброе утро", 12-16 "Добрый день", 17-22 "Добрый вечер", and every other hour "Доброй ночи", each in both directions. |
| Utils.ApiKey | src/utils.py:61-64 | A key is present exactly when the variable is set and non-empty. |
| Utils.RatesFrom | src/utils.py:69-77 | There is one entry per requested code, in order, with the provider's rate, or 0.0 where the provider does not list the code. |
| Utils.CurrencyRates | src/utils.py:55-80 | Test mode gives rate 1.0 per code. A missing key is an error, never an empty list. Otherwise there is one entry per code in request order, and an error exactly when the request fails. |
| Utils.LivePricesSpec | src/utils.py:94-107 | The live prices fail exactly when some ticker's request fails. Otherwise there is one entry per ticker in order, with its price or 0.0. |
| Utils.StockPrices | src/utils.py:83-112 | Test mode gives price 100.0 per ticker in request order. A missing key is an error. |
| Views.FetchQuotes | src/views.py:26-27 | The quotes succeed exactly when both lists do, and in test mode they always do, with one entry per request. |
| Views.RoundRoubles | src/views.py:133 | `round()` to whole roubles is within half a rouble, and a tie goes to the even rouble. |
| Views.RoundRoublesExact | src/views.py:133 | Whole roubles are kept. |
| Views.LastDigits | src/views.py:50 | The last four characters of a longer card number, and the whole number otherwise. |
| Views.CardSummaries | src/views.py:46-60 | The loop builds one summary per distinct card, in first-appearance order. |
| Views.CardsOf | src/views.py:48 | There is one summary per distinct card. |
| Views.SummaryOf | src/views.py:50 | The shown digits are at most four characters. |
| Views.DistinctCardsSpec | src/views.py:48 | The cards are distinct, they are exactly the non-null card numbers present, and they come in order of first appearance. |
| Views.DistinctCardsUnique | src/views.py:48 | `unique()` lists no card twice. |
| Views.DistinctCardsMembers | src/views.py:48 | A card is listed exactly when some row carries it (`dropna()` drops the rows without one). |
| Views.DistinctCardsOrder | src/views.py:48 | Cards are listed in the order of their first appearance. |
| Views.DistinctCardsSnoc | src/views.py:48 | A further operation adds its card to the distinct cards exactly when it has a card not seen before. |
| Views.CardEntries | src/views.py:49-58 | Each summary holds its card's last digits and the sums of that card's amounts and cashbacks over exactly that card's rows. |
| Views.CardTotals | src/views.py:46-60 | The card totals plus the amounts of rows without a card add up to the window's total. |
| Views.Listed | src/views.py:66-71 | A top entry shows a ten-character `dd.mm.yyyy` date and the operation's amount. |
| Views.TopTransactions | src/views.py:62-73 | The top list shows the `nlargest(5)` operations, in that order. |
| Views.TopTransactionsShape | src/views.py:64 | There are min(5, n) entries, in non-increasing amount order. |
| Views.TopTransactionsFromRows | src/views.py:64-72 | Every entry shows an operation of the window. |
| Views.TopTransactionsCutoff | src/views.py:64 | No operation left out is larger than one listed, and listed and left out together make up the window. |
| Views.Assemble | src/views.py:75-92 | The warning appears exactly when the window is non-empty and the table empty. Otherwise the page is greeting, cards, top list and quotes. |
| Views.HomePage | src/views.py:17-95 | The page is `HomeSpec`: a bad date argument, failing quotes or an unparsable column are errors; otherwise the page is built from the window of the converted table. |
| Views.HomeNeverWarns | src/views.py:75-84 | A built page never carries the warning. Its greeting is that of the argument's hour, it has one card per distinct card of the window, and it has min(5, window) top entries. |
| Views.HomeFromNeverWarns | src/views.py:46-92 | On a converted table, the page has no warning, the hour's greeting, one card per distinct card of the window, and min(5, window) top entries which, for a non-empty window, are the window's top list. |
| Views.RangeStart | src/views.py:102-110 | ALL starts at 2018-01-01, Y at 2021-01-01, M at 2021-12-01, and any other code at 2021-12-25. Every start is a real moment in the window. |
| Views.RangesNest | src/views.py:102-110 | ALL starts no later than Y, Y no later than M, and M no later than any other code. |
| Views.EventsPage | src/views.py:98-166 | The page is `EventsSpec` of the caller's table. The caller's table comes back unchanged: it already holds timestamps whenever the page succeeds. |
| Views.EventsSelection | src/views.py:112-118 | The page fails exactly when the raw column holds a text or the quotes fail. The rows counted are exactly those dated no earlier than the start, including those after 2021-12-31. |
| Views.EventsOnEmptyTable | tests/test_views.py:110-122 | An empty table gives zero totals, empty category lists and the fixed cash and transfers entries. |
| Views.CategoryPairs | src/views.py:129 | Each row is paired with its category and its amount. |
| Views.CategorySumsSpec | src/views.py:129 | The category sums come in ascending category order, one per category present, each with that category's sum. They add up to the sum of the amounts. |
| Views.CategorySumsSign | src/views.py:127-129 | The sums of positive amounts are positive, and the sums of negative amounts are negative. |
| Views.CategorySumsTotal | src/views.py:129-131 | The category sums add up to the sum of the amounts. |
| Views.ExpensesTotal | src/views.py:127-133 | The expense total is the rounded sum of the positive amounts. Every category sum is positive, and the cash and transfers stub is fixed. |
| Views.ExpensesRanked | src/views.py:130 | At most seven category sums are listed, largest first, and none left out exceeds a listed one. |
| Views.TopRanked | src/views.py:130 | `nlargest(n)` of the category sums keeps min(n, len) of them, largest first, and none left out exceeds a kept one. |
| Views.RestAboveZero | src/views.py:140 | The remainder is above zero exactly when there are more than seven categories. |
| Views.ExpensesRest | src/views.py:130-143 | Listed sums plus the remainder equal the total. "Остальное" is appended exactly when the remainder is above zero. The main list is the rounded listed sums followed by that entry. |
| Views.FillExpenses | src/views.py:120-143 | The `expenses_data` built step by step equals the expense section of the page: the stub for an empty window, otherwise that of the window's positive amounts. |
| Views.FillSpending | src/views.py:127-143 | The spending section of the positive amounts: the stub when there are none, otherwise the rounded total, the top seven and the remainder. |
| Views.Magnitudes | src/views.py:149 | `abs()` keeps the categories and yields the magnitude of each sum. |
| Views.Buckets | src/views.py:135-138 | Each entry carries its category and its sum rounded to within half a rouble. |
| Views.IncomeTotal | src/views.py:150 | The income total is the rounded magnitude of the sum of the negative amounts. |
| Views.ReceivedIncomeTotal | src/views.py:147-150 | The income total is the rounded magnitude of the sum of the window's negative amounts. |
| Views.IncomeFromTotal | src/views.py:149-150 | For negative amounts, the income total is the rounded magnitude of their sum. |
| Views.MagnitudesTotal | src/views.py:149-150 | For negative amounts, the magnitudes of the category sums add up to the magnitude of the total. |
| Views.CategoriesAscending | src/views.py:149 | The categories come in ascending order. |
| Views.IncomeBuckets | src/views.py:151-153 | Each income entry carries the rounded magnitude of its category's sum. |
| Views.IncomeEntries | src/views.py:145-153 | There is one income entry per category, in ascending order, each with the rounded magnitude of its (negative) sum. |
| Views.FillIncome | src/views.py:145-153 | The `income_data` built step by step equals the income section of the page. |
| Views.OneOperationSums | src/views.py:129 | One operation groups into its own category with its own amount. |
| Views.OneEntryExpenses | src/views.py:130-131 | A single category sum is kept whole by `nlargest(7)`, so nothing is left for the remainder. |
| Views.OneOperationExpenses | src/views.py:126-143 | One expense gives a total and a single entry equal to its rounded amount. |
| Views.LaterOperationCounts | src/views.py:118 | An expense dated after 2021-12-31 lies outside the reports' window yet is counted by the events page. |
| Views.TestTableInWindow | tests/test_views.py:20-30 | The four test operations, dated 2021-01-01 to 2021-01-04, all lie in the data window and in the ALL range. |
| Views.TestTableCards | tests/test_views.py:24 | The card column lists two distinct cards, in order of appearance, and one operation without a card. |
| Views.TestTableFirstCard | tests/test_views.py:69-71 | The first card ends in 3456 and has 3001.25 spent (1000.50 + 2000.75). |
| Views.HomeOnTestTable | tests/test_views.py:51-77 | At noon the home page of the test table has no warning, the afternoon greeting, two cards (the first ending in 3456 with 3001.25 spent), and all four operations, largest amount first. |
| Views.FourSpent | src/views.py:127 | With three positive amounts and one negative, the spending is the sum of the three. |
| Views.FourReceived | src/views.py:147 | With the same amounts, the income is the negative amount alone. |
| Views.EventsOnTestTable | tests/test_views.py:84-104 | Over the ALL range the events page of the test table spends 6002 (6001.50 rounded) and receives 500. |

## Left out

- Loading the Excel export (`load_transactions`) and reading `user_settings.json`. Both are
  file I/O. The table and the settings (currencies, stocks) are inputs.
- The HTTP requests to the rate and quote providers are network I/O. Their answers are
  parameters (`Views.Outside`), and the per-ticker request loop of `get_stock_prices` is taken as
  a function from ticker to answer.
- The report directory creation and the file write are file I/O. Their outcomes are flags of
  `Reports.ReportToFile`, and the JSON serialisation is not modelled.
- Logging, `print`, and the command-line driver `src/main.py`.
- Custom patterns are read as literal text, because Python's `re` engine is not part of this model.
  - The model covers only the two default patterns.
  - `\s` and `\d` are limited to their ASCII members, in the default patterns and in the date
    parsers (`Calendar.IsDigit`, `Calendar.IsSpace`). strptime's `\d` and `\s` also accept other
    Unicode decimal digits and whitespace.
- `str.lower()` covers only the Latin and Cyrillic capitals and Ё, not all of Unicode.
- Frames.ConvertedRows: `pd.to_datetime` without a format (src/reports.py:71, src/views.py:38,
  src/views.py:117) is read as the whole column in `%Y-%m-%d`, or else the whole column in
  `%d.%m.%Y %H:%M:%S`, or else an error. This differs from pandas in both directions.
  - pandas admits texts that neither format covers, where the model reports an error.
  - pandas reads without `dayfirst`, and from version 2.0 it infers one format from the first text.
    So pandas reads `01.02.2021 10:00:00` as 2 January where the model reads 1 February, and
    pandas 2.0 raises on `["01.12.2021 10:00:00", "15.12.2021 10:00:00"]`, which the model accepts.
  - `spending_by_category` and `home_page` inherit this difference for day-first texts. The
    explicit formats of `spending_by_weekday` (src/reports.py:102-105) are read as written.
- Comparing a date text with a timestamp raises in pandas. The model reports that as an error
  rather than following pandas' dtype rules for mixed columns.
- Amounts are whole kopecks, so float rounding and NaN/NaT are not modelled.
  - `round(x, 2)` of a kopeck amount is the amount itself.
  - `float()` of an unreadable value is the single value `NotANumber`.
- `Services.ParseInt` takes an optional sign and ASCII decimal digits. It does not accept the
  surrounding whitespace, the digit-group underscores or the non-ASCII decimal digits (such as
  `٢٠٢١`) that `int()` also accepts.
- Years below 1000, which `%Y` does not print as four digits, are outside the round-trip lemmas.
- A non-string description or category raises `TypeError`/`AttributeError` in the source. Record
  fields are texts here, so that case does not arise.
- The `isinstance` and missing-column checks of `home_page` (src/views.py:30-36). The rows always
  have every column.
- Reports.GroupMeansOfRows: each mean is stated as the exact quotient of the sum by the count,
  not as the float pandas computes.
- Views.HomePage: requires every timestamp in the table to be a real moment. Every pandas
  Timestamp is one.
- Views.EventsPage: `date_str` is accepted and ignored, as in the source.
