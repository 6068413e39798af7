/** The two pages the application serves. The home page greets the user for the hour, sums the
    operations of each card, lists the five largest operations and adds the currency rates and
    stock prices. The events page splits the operations from the start of a chosen range into
    spending and income by category. Amounts are in kopecks; the pages round them to roubles. */
module Views {
  import opened Wrappers
  import opened Calendar
  import opened Lists
  import opened Grouping
  import opened Frames
  import Reports
  import Utils

  datatype PageError =
    | BadDate                                // `date_str` is not `%Y-%m-%d %H:%M:%S`
    | DateParse                              // `pd.to_datetime` raises on the date column
    | Incomparable                           // a text date is compared with a timestamp
    | QuoteFailed(reason: Utils.QuoteError)  // the rates or the prices could not be fetched

  /** What a page takes from outside the table: the environment, the currency codes and tickers
      of `user_settings.json`, and the providers' answers. */
  datatype Outside = Outside(env: Utils.Env, currencies: seq<string>, stocks: seq<string>,
                             ratesReply: Result<Option<map<string, real>>, Utils.QuoteError>,
                             quote: string -> Result<Option<real>, Utils.QuoteError>)

  datatype Quotes = Quotes(rates: seq<Utils.CurrencyRate>, prices: seq<Utils.StockPrice>)

  /** `get_currency_rates(...)` and then `get_stock_prices(...)`: whichever raises first decides. */
  function FetchQuotes(o: Outside): (r: Result<Quotes, PageError>)
    ensures r.Ok? <==>
              Utils.CurrencyRates(o.env, o.currencies, o.ratesReply).Ok? && Utils.StockPrices(o.env, o.stocks, o.quote).Ok?
    ensures Utils.Testing(o.env) ==>
              r.Ok? && |r.value.rates| == |o.currencies| && |r.value.prices| == |o.stocks|
  {
    match Utils.CurrencyRates(o.env, o.currencies, o.ratesReply)
    case Err(e) => Err(QuoteFailed(e))
    case Ok(rates) =>
      match Utils.StockPrices(o.env, o.stocks, o.quote)
      case Err(e) => Err(QuoteFailed(e))
      case Ok(prices) => Ok(Quotes(rates, prices))
  }

  /** `round(float(k / 100))`: kopecks to whole roubles, a half going to the even neighbour. */
  function RoundRoubles(k: int): (r: int)
    ensures -50 <= k - r * 100 <= 50
    ensures (k - r * 100 == 50 || k - r * 100 == -50) ==> r % 2 == 0
  {
    var q, rem := k / 100, k % 100;
    if rem < 50 then q
    else if rem > 50 then q + 1
    else if q % 2 == 0 then q
    else q + 1
  }

  /** Whole roubles are left as they are. */
  lemma {:induction false} RoundRoublesExact(n: int)
    ensures RoundRoubles(n * 100) == n
  {
  }

  // ================================================================ home_page

  // ---------------------------------------------------------------- cards

  datatype CardSummary = CardSummary(lastDigits: string, totalSpent: int, cashback: int)

  /** `card_str[-4:] if len(card_str) > 4 else card_str`. */
  function LastDigits(card: string): (d: string)
    ensures |d| == (if |card| > 4 then 4 else |card|)
    ensures d == card[|card| - |d|..]
  {
    if |card| > 4 then card[|card| - 4..] else card
  }

  /** `dropna().unique()` on the card column: each card number once, in order of first appearance. */
  function DistinctCards(rows: seq<Row>): seq<string>
  {
    if rows == [] then []
    else
      var cs := DistinctCards(rows[..|rows| - 1]);
      var last := rows[|rows| - 1].card;
      if last.Some? && last.value !in cs then cs + [last.value] else cs
  }

  /** Card `a` is seen at some row before card `b` is seen at all. */
  ghost predicate SeenBefore(rows: seq<Row>, a: string, b: string)
  {
    exists k :: 0 <= k < |rows| && rows[k].card == Some(a) && forall l :: 0 <= l <= k ==> rows[l].card != Some(b)
  }

  function CardTest(card: string): Row -> bool
  {
    (r: Row) => r.card == Some(card)
  }

  predicate NoCard(r: Row)
  {
    r.card.None?
  }

  /** The `Кэшбэк` column. */
  function Cashbacks(rows: seq<Row>): (r: seq<int>)
    ensures |r| == |rows| && forall i :: 0 <= i < |rows| ==> r[i] == rows[i].cashback
  {
    seq(|rows|, i requires 0 <= i < |rows| => rows[i].cashback)
  }

  /** The entry of one card: its last digits and the sums of its amounts and cashbacks. */
  function SummaryOf(rows: seq<Row>, card: string): (s: CardSummary)
    ensures |s.lastDigits| <= 4
  {
    var mine := Filter(rows, CardTest(card));
    CardSummary(LastDigits(card), Sum(Amounts(mine)), Sum(Cashbacks(mine)))
  }

  /** `cards_data`: one entry per distinct card. */
  function CardsOf(rows: seq<Row>): (cards: seq<CardSummary>)
    ensures |cards| == |DistinctCards(rows)|
  {
    var cs := DistinctCards(rows);
    seq(|cs|, i requires 0 <= i < |cs| => SummaryOf(rows, cs[i]))
  }

  /** The loop that appends one summary per card. */
  method CardSummaries(rows: seq<Row>) returns (cards: seq<CardSummary>)
    ensures cards == CardsOf(rows)
  {
    var cs := DistinctCards(rows);
    cards := [];
    for i := 0 to |cs|
      invariant |cards| == i
      invariant forall j :: 0 <= j < i ==> cards[j] == SummaryOf(rows, cs[j])
    {
      var cardTrans := Filter(rows, CardTest(cs[i]));
      cards := cards + [CardSummary(LastDigits(cs[i]), Sum(Amounts(cardTrans)), Sum(Cashbacks(cardTrans)))];
    }
  }

  /** The card list holds each card number present exactly once, in order of first appearance;
      rows without a card contribute none. */
  lemma {:induction false} DistinctCardsSpec(rows: seq<Row>)
    ensures Distinct(DistinctCards(rows))
    ensures forall c :: c in DistinctCards(rows) <==> exists i :: 0 <= i < |rows| && rows[i].card == Some(c)
    ensures forall i, j :: 0 <= i < j < |DistinctCards(rows)| ==>
              SeenBefore(rows, DistinctCards(rows)[i], DistinctCards(rows)[j])
  {
    DistinctCardsUnique(rows);
    DistinctCardsMembers(rows);
    DistinctCardsOrder(rows);
  }

  lemma {:induction false} DistinctCardsUnique(rows: seq<Row>)
    ensures Distinct(DistinctCards(rows))
  {
    if rows != [] {
      DistinctCardsUnique(rows[..|rows| - 1]);
    }
  }

  lemma {:induction false} DistinctCardsMembers(rows: seq<Row>)
    ensures forall c :: c in DistinctCards(rows) <==> exists i :: 0 <= i < |rows| && rows[i].card == Some(c)
  {
    if rows != [] {
      var n := |rows| - 1;
      var init := rows[..n];
      DistinctCardsMembers(init);
      var prev, cs := DistinctCards(init), DistinctCards(rows);
      forall c ensures c in cs <==> exists i :: 0 <= i < |rows| && rows[i].card == Some(c) {
        if exists i :: 0 <= i < |rows| && rows[i].card == Some(c) {
          var i :| 0 <= i < |rows| && rows[i].card == Some(c);
          if i < n {
            assert init[i].card == Some(c);
          }
        }
        if c in prev {
          var i :| 0 <= i < n && init[i].card == Some(c);
          assert rows[i].card == Some(c);
        }
      }
    }
  }

  lemma {:induction false} DistinctCardsOrder(rows: seq<Row>)
    ensures forall i, j :: 0 <= i < j < |DistinctCards(rows)| ==>
              SeenBefore(rows, DistinctCards(rows)[i], DistinctCards(rows)[j])
  {
    if rows != [] {
      var n := |rows| - 1;
      var init, last := rows[..n], rows[n];
      assert rows == init + [last];
      DistinctCardsOrder(init);
      DistinctCardsMembers(init);
      var prev, cs := DistinctCards(init), DistinctCards(rows);
      forall i, j | 0 <= i < j < |cs| ensures SeenBefore(rows, cs[i], cs[j]) {
        if j < |prev| {
          SeenBeforeExtended(init, last, prev[i], prev[j]);
        } else {
          assert prev[i] in prev;
          SeenBeforeNew(init, last, prev[i], cs[j]);
        }
      }
    }
  }

  lemma {:induction false} SeenBeforeExtended(rows: seq<Row>, r: Row, a: string, b: string)
    requires SeenBefore(rows, a, b)
    ensures SeenBefore(rows + [r], a, b)
  {
    var k :| 0 <= k < |rows| && rows[k].card == Some(a) && forall l :: 0 <= l <= k ==> rows[l].card != Some(b);
    assert (rows + [r])[k] == rows[k];
  }

  lemma {:induction false} SeenBeforeNew(rows: seq<Row>, r: Row, a: string, b: string)
    requires exists k :: 0 <= k < |rows| && rows[k].card == Some(a)
    requires forall l :: 0 <= l < |rows| ==> rows[l].card != Some(b)
    ensures SeenBefore(rows + [r], a, b)
  {
    var k :| 0 <= k < |rows| && rows[k].card == Some(a);
    assert (rows + [r])[k] == rows[k];
  }



  /** Every card entry carries the card's last digits and the sums over exactly that card's rows. */
  lemma {:induction false} CardEntries(rows: seq<Row>)
    ensures var cs, cards := DistinctCards(rows), CardsOf(rows);
      forall i :: 0 <= i < |cards| ==>
        && cards[i].lastDigits == LastDigits(cs[i])
        && cards[i].totalSpent == Sum(Amounts(Filter(rows, CardTest(cs[i]))))
        && cards[i].cashback == Sum(Cashbacks(Filter(rows, CardTest(cs[i]))))
        && (forall r :: r in Filter(rows, CardTest(cs[i])) <==> r in rows && r.card == Some(cs[i]))
  {
  }

  /** The `total_spent` column of the card list. */
  function SpentColumn(cards: seq<CardSummary>): (r: seq<int>)
    ensures |r| == |cards| && forall i :: 0 <= i < |cards| ==> r[i] == cards[i].totalSpent
  {
    seq(|cards|, i requires 0 <= i < |cards| => cards[i].totalSpent)
  }

  /** The rows paired by card number. */
  function CardPairs(rows: seq<Row>): (ps: seq<(Option<string>, int)>)
    ensures KeysAmounts(ps, rows) && forall i :: 0 <= i < |rows| ==> ps[i].0 == rows[i].card
  {
    seq(|rows|, i requires 0 <= i < |rows| => (rows[i].card, rows[i].amount))
  }

  function Somes(cs: seq<string>): (ks: seq<Option<string>>)
    ensures |ks| == |cs| && forall i :: 0 <= i < |cs| ==> ks[i] == Some(cs[i])
  {
    seq(|cs|, i requires 0 <= i < |cs| => Some(cs[i]))
  }

  /** The per-card sums of the cards in `cs`, added up, are the grouped sums over those cards. */
  lemma {:induction false} CardSumsOver(rows: seq<Row>, cs: seq<string>)
    ensures TotalOver(Somes(cs), CardPairs(rows)) ==
            Sum(seq(|cs|, i requires 0 <= i < |cs| => Sum(Amounts(Filter(rows, CardTest(cs[i]))))))
  {
    if cs != [] {
      var n := |cs| - 1;
      CardSumsOver(rows, cs[..n]);
      assert Somes(cs)[..n] == Somes(cs[..n]);
      var all := seq(|cs|, i requires 0 <= i < |cs| => Sum(Amounts(Filter(rows, CardTest(cs[i])))));
      assert all[..n] == seq(n, i requires 0 <= i < n => Sum(Amounts(Filter(rows, CardTest(cs[..n][i])))));
      SelectedGroup(CardPairs(rows), rows, Some(cs[n]), CardTest(cs[n]));
    }
  }

  /** The distinct cards and "no card" together key every row, each once. */
  lemma {:induction false} CardKeys(rows: seq<Row>)
    ensures var ks := Somes(DistinctCards(rows)) + [None];
      Distinct(ks) && forall p :: p in CardPairs(rows) ==> p.0 in ks
  {
    var cs, ps := DistinctCards(rows), CardPairs(rows);
    DistinctCardsSpec(rows);
    var ks := Somes(cs) + [None];
    forall i, j | 0 <= i < j < |ks| ensures ks[i] != ks[j] {
      if j < |cs| {
        assert ks[i] == Some(cs[i]) && ks[j] == Some(cs[j]);
      }
    }
    forall p | p in ps ensures p.0 in ks {
      var i :| 0 <= i < |ps| && ps[i] == p;
      if rows[i].card.Some? {
        assert rows[i].card.value in cs;
        var j :| 0 <= j < |cs| && cs[j] == rows[i].card.value;
        assert ks[j] == p.0;
      } else {
        assert ks[|cs|] == p.0;
      }
    }
  }

  /** The card totals and the spending without a card add up to the spending of the window. */
  lemma {:induction false} CardTotals(rows: seq<Row>)
    ensures Sum(SpentColumn(CardsOf(rows))) + Sum(Amounts(Filter(rows, NoCard))) == Sum(Amounts(rows))
  {
    var cs, ps := DistinctCards(rows), CardPairs(rows);
    var ks := Somes(cs) + [None];
    var column := seq(|cs|, i requires 0 <= i < |cs| => Sum(Amounts(Filter(rows, CardTest(cs[i])))));
    assert TotalOver(ks, ps) == Sum(Amounts(rows)) by {
      CardKeys(rows);
      TotalOverAll(ks, ps);
      PairedTotal(ps, rows);
    }
    assert TotalOver(ks, ps) == TotalOver(Somes(cs), ps) + SumFor(ps, None) by {
      assert ks[..|ks| - 1] == Somes(cs);
    }
    assert TotalOver(Somes(cs), ps) == Sum(column) by {
      CardSumsOver(rows, cs);
    }
    assert SumFor(ps, None) == Sum(Amounts(Filter(rows, NoCard))) by {
      SelectedGroup(ps, rows, None, NoCard);
    }
    assert SpentColumn(CardsOf(rows)) == column;
  }

  // ---------------------------------------------------------------- top transactions

  datatype TopTransaction = TopTransaction(date: string, amount: int, category: string, description: string)

  function RowAmount(r: Row): int
  {
    r.amount
  }

  /** Every row carries a real timestamp, as a converted column does. */
  predicate Dated(rows: seq<Row>)
  {
    forall r :: r in rows ==> r.date.Stamp? && ValidStamp(r.date.at)
  }

  /** One entry of `top_transactions`, its date written `%d.%m.%Y`. */
  function Listed(r: Row): (t: TopTransaction)
    requires r.date.Stamp? && ValidStamp(r.date.at)
    ensures |t.date| == 10 && t.amount == r.amount
  {
    TopTransaction(FormatDayMonthYear(r.date.at.date), r.amount, r.category, r.description)
  }

  /** `nlargest(5, ...)`: how many operations the home page lists. */
  const TopCount: nat := 5

  /** `filtered.nlargest(5, "Сумма операции")`, listed. */
  function TopTransactions(rows: seq<Row>): (top: seq<TopTransaction>)
    requires Dated(rows)
    ensures |top| == |NLargest(rows, TopCount, RowAmount)|
    ensures forall i :: 0 <= i < |top| ==> NLargest(rows, TopCount, RowAmount)[i] in rows
    ensures forall i :: 0 <= i < |top| ==> top[i] == Listed(NLargest(rows, TopCount, RowAmount)[i])
  {
    var kept := NLargest(rows, TopCount, RowAmount);
    NLargestMembers(rows, TopCount, RowAmount);
    seq(|kept|, i requires 0 <= i < |kept| => Listed(kept[i]))
  }

  /** The list holds min(5, n) operations, largest amount first. */
  lemma {:induction false} TopTransactionsShape(rows: seq<Row>)
    requires Dated(rows)
    ensures var top := TopTransactions(rows);
      && |top| == (if |rows| < TopCount then |rows| else TopCount)
      && forall i, j :: 0 <= i < j < |top| ==> top[i].amount >= top[j].amount
  {
    NLargestLength(rows, TopCount, RowAmount);
    NLargestDescending(rows, TopCount, RowAmount);
  }

  /** Every listed operation is an operation of the window. */
  lemma {:induction false} TopTransactionsFromRows(rows: seq<Row>)
    requires Dated(rows)
    ensures forall t :: t in TopTransactions(rows) ==> exists r :: r in rows && t == Listed(r)
  {
    var top, kept := TopTransactions(rows), NLargest(rows, TopCount, RowAmount);
    forall t | t in top ensures exists r :: r in rows && t == Listed(r) {
      var i :| 0 <= i < |top| && top[i] == t;
      var r := kept[i];
      assert r in rows && t == Listed(r);
    }
  }

  /** No operation left out is larger than one listed, and listed and left out together are the
      window. */
  lemma {:induction false} TopTransactionsCutoff(rows: seq<Row>)
    requires Dated(rows)
    ensures var top, rest := TopTransactions(rows), Omitted(rows, TopCount, RowAmount);
      && (forall r, i :: r in rest && 0 <= i < |top| ==> r.amount <= top[i].amount)
      && multiset(NLargest(rows, TopCount, RowAmount)) + multiset(rest) == multiset(rows)
  {
    var top, kept, rest := TopTransactions(rows), NLargest(rows, TopCount, RowAmount), Omitted(rows, TopCount, RowAmount);
    OmittedBelowKept(rows, TopCount, RowAmount);
    forall r, i | r in rest && 0 <= i < |top| ensures r.amount <= top[i].amount {
      assert kept[i] in kept;
      assert RowAmount(r) <= RowAmount(kept[i]);
    }
    NLargestPartition(rows, TopCount, RowAmount);
  }

  // ---------------------------------------------------------------- the page

  datatype HomeData = HomeData(greeting: string, cards: seq<CardSummary>, top: seq<TopTransaction>,
                               quotes: Quotes, warning: Option<string>)

  /** The answer `home_page` builds. When the window has operations but the table has none, the
      answer carries the warning and no cards or operations. */
  function Assemble(greeting: string, cards: seq<CardSummary>, top: seq<TopTransaction>, q: Quotes,
                    windowEmpty: bool, tableEmpty: bool): (h: HomeData)
    ensures h.warning.Some? <==> !windowEmpty && tableEmpty
    ensures h.warning.None? ==> h == HomeData(greeting, cards, top, q, None)
  {
    if !windowEmpty && tableEmpty then HomeData(greeting, [], [], q, Some("Нет данных о транзакциях"))
    else HomeData(greeting, cards, top, q, None)
  }

  /** `home_page(date_str)` on the loaded table `rows`. */
  function HomeSpec(dateStr: string, rows: seq<Row>, o: Outside): Result<HomeData, PageError>
    requires ValidDates(rows)
  {
    match ParseIsoStamp(dateStr)
    case None => Err(BadDate)
    case Some(now) =>
      match FetchQuotes(o)
      case Err(e) => Err(e)
      case Ok(q) =>
        match ConvertedRows(rows)
        case None => Err(DateParse)
        case Some(converted) =>
          ConvertedDatesValid(rows);
          Ok(HomeFrom(now.hour, q, converted))
  }

  /** The page for the hour `hour`, the quotes `q` and the converted table. */
  function HomeFrom(hour: int, q: Quotes, converted: seq<Row>): HomeData
    requires ValidDates(converted)
  {
    var window := Reports.InWindowRows(converted);
    Assemble(Utils.Greeting(hour), CardsOf(window),
             if window == [] then [] else TopTransactions(window), q, window == [], converted == [])
  }

  /** `home_page`: parse the moment, fetch the quotes, convert a fresh copy of the table's date
      column, keep the window and summarise it. */
  method HomePage(dateStr: string, rows: seq<Row>, o: Outside) returns (r: Result<HomeData, PageError>)
    requires ValidDates(rows)
    ensures r == HomeSpec(dateStr, rows, o)
  {
    var date := ParseIsoStamp(dateStr);
    if date.None? {
      return Err(BadDate);
    }
    var greeting := Utils.Greeting(date.value.hour);
    var rates := Utils.CurrencyRates(o.env, o.currencies, o.ratesReply);
    if rates.Err? {
      return Err(QuoteFailed(rates.error));
    }
    var prices := Utils.StockPrices(o.env, o.stocks, o.quote);
    if prices.Err? {
      return Err(QuoteFailed(prices.error));
    }
    var transactions := new Frame(rows);
    var ok := transactions.ConvertDates();
    if !ok {
      return Err(DateParse);
    }
    ConvertedDatesValid(rows);
    var filtered := Reports.InWindowRows(transactions.rows);
    var cards := CardSummaries(filtered);
    var top := [];
    if filtered != [] {
      top := TopTransactions(filtered);
    }
    r := Ok(Assemble(greeting, cards, top, Quotes(rates.value, prices.value), filtered == [], transactions.rows == []));
  }

  /** The warning is never given: a window with operations comes from a table with operations.
      A page that succeeds greets for the hour asked, lists one entry per card of the window and
      at most five operations. */
  lemma {:induction false} HomeNeverWarns(dateStr: string, rows: seq<Row>, o: Outside)
    requires ValidDates(rows) && HomeSpec(dateStr, rows, o).Ok?
    ensures var h := HomeSpec(dateStr, rows, o).value;
      var window := Reports.InWindowRows(ConvertedRows(rows).value);
      && h.warning.None?
      && h.greeting == Utils.Greeting(ParseIsoStamp(dateStr).value.hour)
      && |h.cards| == |DistinctCards(window)|
      && |h.top| == (if |window| < TopCount then |window| else TopCount)
  {
    var now, q, converted := ParseIsoStamp(dateStr).value, FetchQuotes(o).value, ConvertedRows(rows).value;
    ConvertedDatesValid(rows);
    assert HomeSpec(dateStr, rows, o).value == HomeFrom(now.hour, q, converted);
    HomeFromNeverWarns(now.hour, q, converted);
  }

  /** The same for the page assembled from a converted table, whose operations are the
      `top_transactions` of its window. */
  lemma {:induction false} HomeFromNeverWarns(hour: int, q: Quotes, converted: seq<Row>)
    requires ValidDates(converted)
    ensures var h := HomeFrom(hour, q, converted);
      var window := Reports.InWindowRows(converted);
      && Dated(window)
      && h.warning.None?
      && h.greeting == Utils.Greeting(hour)
      && |h.cards| == |DistinctCards(window)|
      && |h.top| == (if |window| < TopCount then |window| else TopCount)
      && (window != [] ==> h.top == TopTransactions(window))
  {
    var window := Reports.InWindowRows(converted);
    assert converted == [] ==> window == [] by {
      if window != [] {
        assert window[0] in converted;
      }
    }
    var top := if window == [] then [] else TopTransactions(window);
    assert HomeFrom(hour, q, converted) == HomeData(Utils.Greeting(hour), CardsOf(window), top, q, None);
    if window != [] {
      TopTransactionsShape(window);
    }
  }

  // ================================================================ events_page

  /** The start of the range `date_range` names; an unknown code reads as the last week. */
  function RangeStart(code: string): (t: Timestamp)
    ensures ValidStamp(t) && InWindow(t)
  {
    Midnight(
      if code == "ALL" then Date(2018, 1, 1)
      else if code == "Y" then Date(2021, 1, 1)
      else if code == "M" then Date(2021, 12, 1)
      else Date(2021, 12, 25))
  }

  /** Longer ranges start earlier, and every code other than the three named ones is the
      shortest range. */
  lemma {:induction false} RangesNest(code: string)
    ensures NotAfter(RangeStart("ALL"), RangeStart(code))
    ensures code != "ALL" ==> NotAfter(RangeStart("Y"), RangeStart(code))
    ensures code != "ALL" && code != "Y" ==> NotAfter(RangeStart("M"), RangeStart(code))
    ensures code != "ALL" && code != "Y" && code != "M" ==> RangeStart(code) == Midnight(Date(2021, 12, 25))
  {
  }

  /** The rows dated no earlier than `start`. */
  function From(start: Timestamp): Row -> bool
  {
    (r: Row) => r.date.Stamp? && NotAfter(start, r.date.at)
  }

  /** The rows dated from `start` to `end`. */
  function Between(start: Timestamp, end: Timestamp): Row -> bool
  {
    (r: Row) => r.date.Stamp? && NotAfter(start, r.date.at) && NotAfter(r.date.at, end)
  }

  datatype Bucket = Bucket(category: string, amount: int)

  datatype Expenses = Expenses(totalAmount: int, main: seq<Bucket>, transfersAndCash: seq<Bucket>)

  datatype Income = Income(totalAmount: int, main: seq<Bucket>)

  datatype EventsData = EventsData(expenses: Expenses, income: Income, quotes: Quotes)

  /** The fixed `transfers_and_cash` entries. */
  function TransfersAndCash(): seq<Bucket>
  {
    [Bucket("Наличные", 0), Bucket("Переводы", 0)]
  }

  predicate Spent(r: Row)
  {
    r.amount > 0
  }

  predicate Received(r: Row)
  {
    r.amount < 0
  }

  /** The rows paired by category. */
  function CategoryPairs(rows: seq<Row>): (ps: seq<(string, int)>)
    ensures KeysAmounts(ps, rows) && forall i :: 0 <= i < |rows| ==> ps[i].0 == rows[i].category
  {
    seq(|rows|, i requires 0 <= i < |rows| => (rows[i].category, rows[i].amount))
  }

  function PairAmount(p: (string, int)): int
  {
    p.1
  }

  /** `groupby("Категория")["Сумма операции"].sum()`. */
  function CategorySums(rows: seq<Row>): seq<(string, int)>
  {
    GroupSums(CategoryPairs(rows), StrLess)
  }

  /** `.abs()` on the grouped sums. */
  function Magnitudes(sums: seq<(string, int)>): (r: seq<(string, int)>)
    ensures |r| == |sums|
    ensures forall i :: 0 <= i < |sums| ==> r[i].0 == sums[i].0 && r[i].1 >= 0
    ensures forall i :: 0 <= i < |sums| ==> r[i].1 == sums[i].1 || r[i].1 == -sums[i].1
  {
    seq(|sums|, i requires 0 <= i < |sums| => (sums[i].0, if sums[i].1 < 0 then -sums[i].1 else sums[i].1))
  }

  /** Category sums written as rounded `{category, amount}` entries. */
  function Buckets(sums: seq<(string, int)>): (b: seq<Bucket>)
    ensures |b| == |sums|
    ensures forall i :: 0 <= i < |sums| ==> b[i].category == sums[i].0 && -50 <= sums[i].1 - b[i].amount * 100 <= 50
  {
    seq(|sums|, i requires 0 <= i < |sums| => Bucket(sums[i].0, RoundRoubles(sums[i].1)))
  }

  /** `nlargest(7)`: how many spending categories are listed by name. */
  const MainCount: nat := 7

  /** `expenses_data`. */
  function ExpensesOf(filtered: seq<Row>): Expenses
  {
    ExpensesFrom(Filter(filtered, Spent))
  }

  /** The spending entries of the rows above zero. */
  function ExpensesFrom(spent: seq<Row>): Expenses
  {
    if spent == [] then Expenses(0, [], TransfersAndCash())
    else
      var sums := CategorySums(spent);
      var main := NLargest(sums, MainCount, PairAmount);
      var other := SumScores(sums, PairAmount) - SumScores(main, PairAmount);
      Expenses(RoundRoubles(SumScores(sums, PairAmount)),
               Buckets(main) + (if other > 0 then [Bucket("Остальное", RoundRoubles(other))] else []),
               TransfersAndCash())
  }

  /** `income_data`. */
  function IncomeOf(filtered: seq<Row>): Income
  {
    IncomeFrom(Filter(filtered, Received))
  }

  /** The income entries of the rows below zero. */
  function IncomeFrom(received: seq<Row>): Income
  {
    if received == [] then Income(0, [])
    else
      var sums := Magnitudes(CategorySums(received));
      Income(RoundRoubles(SumScores(sums, PairAmount)), Buckets(sums))
  }

  /** `events_page(transactions, date_str, date_range)`. `date_str` plays no part. */
  function EventsSpec(rows: seq<Row>, code: string, o: Outside): Result<EventsData, PageError>
  {
    if !AllStamps(Dates(rows)) then Err(Incomparable)
    else
      var filtered := Filter(rows, From(RangeStart(code)));
      match FetchQuotes(o)
      case Err(e) => Err(e)
      case Ok(q) => Ok(EventsData(ExpensesOf(filtered), IncomeOf(filtered), q))
  }

  /** `events_page`: the windowed selection on the raw column is computed and then replaced by
      the selection from the start of the range only, after the column has been converted in
      place; the spending and income entries are filled in one by one. */
  method EventsPage(frame: Frame, dateStr: string, dateRange: string, o: Outside)
    returns (r: Result<EventsData, PageError>)
    modifies frame
    ensures r == EventsSpec(old(frame.rows), dateRange, o)
    ensures frame.rows == old(frame.rows)
  {
    var start, end := RangeStart(dateRange), LastDay();
    if !AllStamps(Dates(frame.rows)) {
      return Err(Incomparable);
    }
    var filtered := Filter(frame.rows, Between(start, end));
    StampsConvertToThemselves(frame.rows);
    var ok := frame.ConvertDates();
    assert ok;
    filtered := Filter(frame.rows, From(start));

    var expenses := FillExpenses(filtered);
    var income := FillIncome(filtered);
    var quotes := FetchQuotes(o);
    if quotes.Err? {
      return Err(quotes.error);
    }
    r := Ok(EventsData(expenses, income, quotes.value));
  }

  /** The `expenses_data` block of `events_page`: the fixed zero entries, filled in when some
      operation spends. */
  method FillExpenses(filtered: seq<Row>) returns (expenses: Expenses)
    ensures expenses == ExpensesOf(filtered)
  {
    expenses := Expenses(0, [], TransfersAndCash());
    if filtered != [] {
      expenses := FillSpending(Filter(filtered, Spent));
    } else {
      assert Filter(filtered, Spent) == [];
    }
  }

  /** The inner block of `expenses_data`: filled in when some operation spends. */
  method FillSpending(spent: seq<Row>) returns (expenses: Expenses)
    ensures expenses == ExpensesFrom(spent)
  {
    expenses := Expenses(0, [], TransfersAndCash());
    if spent != [] {
      var byCategory := CategorySums(spent);
      var main := NLargest(byCategory, MainCount, PairAmount);
      var other := SumScores(byCategory, PairAmount) - SumScores(main, PairAmount);
      expenses := expenses.(totalAmount := RoundRoubles(SumScores(byCategory, PairAmount)));
      var mainCategories := Buckets(main);
      if other > 0 {
        mainCategories := mainCategories + [Bucket("Остальное", RoundRoubles(other))];
      }
      expenses := expenses.(main := mainCategories);
    }
  }

  /** The `income_data` block of `events_page`: empty, filled in when some operation receives. */
  method FillIncome(filtered: seq<Row>) returns (income: Income)
    ensures income == IncomeOf(filtered)
  {
    income := Income(0, []);
    if filtered != [] {
      var received := Filter(filtered, Received);
      if received != [] {
        var byCategory := Magnitudes(CategorySums(received));
        income := income.(totalAmount := RoundRoubles(SumScores(byCategory, PairAmount)));
        income := income.(main := Buckets(byCategory));
      }
    } else {
      assert Filter(filtered, Received) == [];
    }
  }

  // ---------------------------------------------------------------- properties of the buckets

  /** A key that occurs in a list but not in its front part is the key of its last pair. */
  lemma {:induction false} LastHasKey<K(!new)>(ps: seq<(K, int)>, k: K)
    requires HasKey(ps, k) && !HasKey(ps[..|ps| - 1], k)
    ensures ps[|ps| - 1].0 == k
  {
    var n := |ps| - 1;
    var init := ps[..n];
    forall i | 0 <= i < n ensures ps[i].0 != k {
      assert init[i] in init;
    }
    var p :| p in ps && p.0 == k;
    var i :| 0 <= i < |ps| && ps[i] == p;
    assert i == n;
  }

  /** A key that occurs among values all above zero has a sum above zero. */
  lemma {:induction false} SumForAbove<K(!new)>(ps: seq<(K, int)>, k: K)
    requires HasKey(ps, k) && forall p :: p in ps ==> p.1 > 0
    ensures SumFor(ps, k) > 0
  {
    var n := |ps| - 1;
    var init := ps[..n];
    assert forall p :: p in init ==> p in ps;
    assert ps[n] in ps;
    if HasKey(init, k) {
      SumForAbove(init, k);
    } else {
      LastHasKey(ps, k);
      SumForNotThere(init, k);
    }
  }

  /** A key that occurs among values all below zero has a sum below zero. */
  lemma {:induction false} SumForBelow<K(!new)>(ps: seq<(K, int)>, k: K)
    requires HasKey(ps, k) && forall p :: p in ps ==> p.1 < 0
    ensures SumFor(ps, k) < 0
  {
    var n := |ps| - 1;
    var init := ps[..n];
    assert forall p :: p in init ==> p in ps;
    assert ps[n] in ps;
    if HasKey(init, k) {
      SumForBelow(init, k);
    } else {
      LastHasKey(ps, k);
      SumForNotThere(init, k);
    }
  }

  /** A key that does not occur sums to zero. */
  lemma {:induction false} SumForNotThere<K(!new)>(ps: seq<(K, int)>, k: K)
    requires !HasKey(ps, k)
    ensures SumFor(ps, k) == 0
  {
    if ps != [] {
      var init := ps[..|ps| - 1];
      assert forall p :: p in init ==> p in ps;
      SumForNotThere(init, k);
      assert ps[|ps| - 1] in ps;
    }
  }

  /** A list of amounts all above zero has a positive total exactly when it is not empty. */
  lemma {:induction false} PositiveScores(xs: seq<(string, int)>)
    requires forall i :: 0 <= i < |xs| ==> xs[i].1 > 0
    ensures SumScores(xs, PairAmount) >= 0
    ensures SumScores(xs, PairAmount) > 0 <==> xs != []
  {
    if xs != [] {
      PositiveScores(xs[1..]);
    }
  }

  /** Summing a list front to back or back to front gives the same total. */
  lemma {:induction false} TotalIsSumScores(xs: seq<(string, int)>)
    ensures Total(xs) == SumScores(xs, PairAmount)
  {
    if xs != [] {
      var n := |xs| - 1;
      TotalIsSumScores(xs[..n]);
      assert xs == xs[..n] + [xs[n]];
      SumScoresAppend(xs[..n], [xs[n]], PairAmount);
    }
  }

  /** Made positive, a list of amounts all below zero sums to minus its sum. */
  lemma {:induction false} MagnitudesSum(xs: seq<(string, int)>)
    requires forall i :: 0 <= i < |xs| ==> xs[i].1 < 0
    ensures SumScores(Magnitudes(xs), PairAmount) == -SumScores(xs, PairAmount)
  {
    if xs != [] {
      MagnitudesSum(xs[1..]);
      assert Magnitudes(xs)[1..] == Magnitudes(xs[1..]);
    }
  }

  /** The category sums of some rows: ascending distinct categories, exactly the categories
      present, and adding up to the rows' total. */
  lemma {:induction false} CategorySumsSpec(rows: seq<Row>)
    ensures var sums := CategorySums(rows);
      && (forall i, j :: 0 <= i < j < |sums| ==> StrLess(sums[i].0, sums[j].0))
      && (forall c :: (exists i :: 0 <= i < |sums| && sums[i].0 == c) <==> HasKey(CategoryPairs(rows), c))
      && (forall i :: 0 <= i < |sums| ==> sums[i].1 == SumFor(CategoryPairs(rows), sums[i].0))
      && SumScores(sums, PairAmount) == Sum(Amounts(rows))
  {
    StrLessOrder();
    GroupSumsSpec(CategoryPairs(rows), StrLess);
    CategorySumsTotal(rows);
  }

  /** The category sums add up to the rows' total. */
  lemma {:induction false} CategorySumsTotal(rows: seq<Row>)
    ensures SumScores(CategorySums(rows), PairAmount) == Sum(Amounts(rows))
  {
    var ps := CategoryPairs(rows);
    StrLessOrder();
    GroupSumsSpec(ps, StrLess);
    PairedTotal(ps, rows);
    TotalIsSumScores(CategorySums(rows));
  }

  /** Every category sum of rows all above zero is above zero; all below zero, below zero. */
  lemma {:induction false} CategorySumsSign(rows: seq<Row>)
    ensures (forall r :: r in rows ==> r.amount > 0) ==>
              forall i :: 0 <= i < |CategorySums(rows)| ==> CategorySums(rows)[i].1 > 0
    ensures (forall r :: r in rows ==> r.amount < 0) ==>
              forall i :: 0 <= i < |CategorySums(rows)| ==> CategorySums(rows)[i].1 < 0
  {
    var ps, sums := CategoryPairs(rows), CategorySums(rows);
    KeysAreKeys(ps, StrLess);
    forall p | p in ps ensures exists r :: r in rows && p.1 == r.amount {
      var i :| 0 <= i < |ps| && ps[i] == p;
      assert rows[i] in rows;
    }
    forall i | 0 <= i < |sums| ensures HasKey(ps, sums[i].0) {
      assert Keys(ps, StrLess)[i] in Keys(ps, StrLess);
    }
    if forall r :: r in rows ==> r.amount > 0 {
      forall i | 0 <= i < |sums| ensures sums[i].1 > 0 {
        SumForAbove(ps, sums[i].0);
      }
    }
    if forall r :: r in rows ==> r.amount < 0 {
      forall i | 0 <= i < |sums| ensures sums[i].1 < 0 {
        SumForBelow(ps, sums[i].0);
      }
    }
  }

  /** The spending total is the rounded sum of every amount above zero, every category sum is
      above zero, and the transfers and cash entries are the fixed zeros. */
  lemma {:induction false} ExpensesTotal(filtered: seq<Row>)
    ensures var spent := Filter(filtered, Spent);
      var sums, e := CategorySums(spent), ExpensesOf(filtered);
      && e.totalAmount == RoundRoubles(Sum(Amounts(spent)))
      && (forall i :: 0 <= i < |sums| ==> sums[i].1 > 0)
      && e.transfersAndCash == TransfersAndCash()
  {
    var spent := Filter(filtered, Spent);
    CategorySumsTotal(spent);
    CategorySumsSign(spent);
    if spent == [] {
      assert CategoryPairs(spent) == [];
    }
  }

  /** Of any category sums, at most `n` are listed, largest first, and none left out is larger
      than one listed. */
  lemma {:induction false} TopRanked(sums: seq<(string, int)>, n: nat)
    ensures var main, rest := NLargest(sums, n, PairAmount), Omitted(sums, n, PairAmount);
      && |main| == (if |sums| < n then |sums| else n)
      && (forall i, j :: 0 <= i < j < |main| ==> main[i].1 >= main[j].1)
      && (forall y, x :: y in rest && x in main ==> y.1 <= x.1)
  {
    var main, rest := NLargest(sums, n, PairAmount), Omitted(sums, n, PairAmount);
    NLargestLength(sums, n, PairAmount);
    NLargestDescending(sums, n, PairAmount);
    forall i, j | 0 <= i < j < |main| ensures main[i].1 >= main[j].1 {
      assert PairAmount(main[i]) >= PairAmount(main[j]);
    }
    OmittedBelowKept(sums, n, PairAmount);
    forall y, x | y in rest && x in main ensures y.1 <= x.1 {
      assert PairAmount(y) <= PairAmount(x);
    }
  }

  /** At most seven category sums of the spending are listed, largest first, and none left out
      is larger than one listed. */
  lemma {:induction false} ExpensesRanked(filtered: seq<Row>)
    ensures var sums := CategorySums(Filter(filtered, Spent));
      var main, rest := NLargest(sums, MainCount, PairAmount), Omitted(sums, MainCount, PairAmount);
      && |main| == (if |sums| < MainCount then |sums| else MainCount)
      && (forall i, j :: 0 <= i < j < |main| ==> main[i].1 >= main[j].1)
      && (forall y, x :: y in rest && x in main ==> y.1 <= x.1)
  {
    TopRanked(CategorySums(Filter(filtered, Spent)), MainCount);
  }

  /** Of sums all above zero, those beyond the seven largest add up to more than zero exactly
      when there are more than seven. */
  lemma {:induction false} RestAboveZero(sums: seq<(string, int)>)
    requires forall i :: 0 <= i < |sums| ==> sums[i].1 > 0
    ensures SumScores(Omitted(sums, MainCount, PairAmount), PairAmount) > 0 <==> |sums| > MainCount
  {
    var main, rest := NLargest(sums, MainCount, PairAmount), Omitted(sums, MainCount, PairAmount);
    NLargestLength(sums, MainCount, PairAmount);
    NLargestMembers(sums, MainCount, PairAmount);
    NLargestPartition(sums, MainCount, PairAmount);
    assert |multiset(main)| + |multiset(rest)| == |multiset(sums)|;
    forall i | 0 <= i < |rest| ensures rest[i].1 > 0 {
      assert rest[i] in rest;
    }
    PositiveScores(rest);
  }

  /** Before rounding, the listed sums and the rest add up to the spending total, and the rest is
      listed as "Остальное" exactly when there are more than seven categories. */
  lemma {:induction false} ExpensesRest(filtered: seq<Row>)
    ensures var spent := Filter(filtered, Spent);
      var sums := CategorySums(spent);
      var main, rest := NLargest(sums, MainCount, PairAmount), Omitted(sums, MainCount, PairAmount);
      && SumScores(main, PairAmount) + SumScores(rest, PairAmount) == Sum(Amounts(spent))
      && (SumScores(rest, PairAmount) > 0 <==> |sums| > MainCount)
      && ExpensesOf(filtered).main ==
           Buckets(main) + (if |sums| > MainCount then [Bucket("Остальное", RoundRoubles(SumScores(rest, PairAmount)))] else [])
  {
    var spent := Filter(filtered, Spent);
    var sums := CategorySums(spent);
    ExpensesTotal(filtered);
    CategorySumsTotal(spent);
    NLargestSumSplit(sums, MainCount, PairAmount);
    RestAboveZero(sums);
    if spent == [] {
      assert CategoryPairs(spent) == [];
      assert sums == [];
    }
  }

  /** The income total is the rounded magnitude of the sum of every amount below zero. */
  lemma {:induction false} IncomeTotal(filtered: seq<Row>)
    ensures IncomeOf(filtered).totalAmount == RoundRoubles(-Sum(Amounts(Filter(filtered, Received))))
  {
    ReceivedIncomeTotal(filtered, Filter(filtered, Received));
  }

  /** `IncomeTotal` with the rows below zero named. */
  lemma {:induction false} ReceivedIncomeTotal(filtered: seq<Row>, received: seq<Row>)
    requires received == Filter(filtered, Received)
    ensures IncomeOf(filtered).totalAmount == RoundRoubles(-Sum(Amounts(received)))
  {
    forall r | r in received ensures r.amount < 0 {
      assert Received(r);
    }
    IncomeFromTotal(received);
  }

  /** The income total of rows all below zero is the rounded magnitude of their sum. */
  lemma {:induction false} IncomeFromTotal(received: seq<Row>)
    requires forall r :: r in received ==> r.amount < 0
    ensures IncomeFrom(received).totalAmount == RoundRoubles(-Sum(Amounts(received)))
  {
    if received == [] {
      assert Amounts(received) == [];
    } else {
      MagnitudesTotal(received);
    }
  }

  /** The magnitudes of the category sums of rows all below zero add up to minus their total. */
  lemma {:induction false} MagnitudesTotal(rows: seq<Row>)
    requires forall r :: r in rows ==> r.amount < 0
    ensures SumScores(Magnitudes(CategorySums(rows)), PairAmount) == -Sum(Amounts(rows))
  {
    var sums := CategorySums(rows);
    CategorySumsTotal(rows);
    CategorySumsSign(rows);
    MagnitudesSum(sums);
  }

  /** The category sums come in ascending order of category. */
  lemma {:induction false} CategoriesAscending(rows: seq<Row>)
    ensures var sums := CategorySums(rows);
      forall i, j :: 0 <= i < j < |sums| ==> StrLess(sums[i].0, sums[j].0)
  {
    StrLessOrder();
    KeysSortedExact(CategoryPairs(rows), StrLess);
  }

  /** Income entries carry the rounded magnitudes of sums below zero. */
  lemma {:induction false} IncomeBuckets(filtered: seq<Row>)
    requires Filter(filtered, Received) != []
    ensures var sums, inc := CategorySums(Filter(filtered, Received)), IncomeOf(filtered);
      && |inc.main| == |sums|
      && forall i :: 0 <= i < |sums| ==> sums[i].1 < 0 ==> inc.main[i] == Bucket(sums[i].0, RoundRoubles(-sums[i].1))
  {
    var sums, inc := CategorySums(Filter(filtered, Received)), IncomeOf(filtered);
    var mags := Magnitudes(sums);
    assert inc.main == Buckets(mags);
    forall i | 0 <= i < |sums| && sums[i].1 < 0 ensures inc.main[i] == Bucket(sums[i].0, RoundRoubles(-sums[i].1)) {
      assert mags[i] == (sums[i].0, -sums[i].1);
    }
  }

  /** There is one income entry per category, in ascending order, carrying the rounded magnitude
      of that category's sum, which is below zero. */
  lemma {:induction false} IncomeEntries(filtered: seq<Row>)
    ensures var sums, inc := CategorySums(Filter(filtered, Received)), IncomeOf(filtered);
      && |inc.main| == |sums|
      && (forall i :: 0 <= i < |sums| ==> sums[i].1 < 0 && inc.main[i] == Bucket(sums[i].0, RoundRoubles(-sums[i].1)))
      && (forall i, j :: 0 <= i < j < |inc.main| ==> StrLess(inc.main[i].category, inc.main[j].category))
  {
    var received := Filter(filtered, Received);
    var sums, inc := CategorySums(received), IncomeOf(filtered);
    CategorySumsSign(received);
    CategoriesAscending(received);
    if received == [] {
      assert CategoryPairs(received) == [];
      assert sums == [];
    } else {
      IncomeBuckets(filtered);
    }
  }

  /** On an empty table the page has zero totals, no categories and the fixed zero entries. */
  lemma {:induction false} EventsOnEmptyTable(code: string, o: Outside)
    requires FetchQuotes(o).Ok?
    ensures EventsSpec([], code, o) ==
              Ok(EventsData(Expenses(0, [], TransfersAndCash()), Income(0, []), FetchQuotes(o).value))
  {
    assert Filter([], From(RangeStart(code))) == [];
  }

  /** Only the start of the range bounds the selection: the rows kept are exactly those dated no
      earlier than the start, later ones than 2021-12-31 included, and a text date is an error. */
  lemma {:induction false} EventsSelection(rows: seq<Row>, code: string, o: Outside)
    ensures EventsSpec(rows, code, o).Err? <==> !AllStamps(Dates(rows)) || FetchQuotes(o).Err?
    ensures forall r :: r in Filter(rows, From(RangeStart(code))) <==>
              r in rows && r.date.Stamp? && NotAfter(RangeStart(code), r.date.at)
  {
  }

  /** The category sums of a single operation. */
  lemma {:induction false} OneOperationSums(r: Row)
    ensures CategorySums([r]) == [(r.category, r.amount)]
  {
    var ps := CategoryPairs([r]);
    assert ps == [(r.category, r.amount)];
    assert Keys(ps, StrLess) == [r.category];
    assert SumFor(ps, r.category) == r.amount;
  }

  /** The spending side of a single operation above zero: its amount under its category. */
  lemma {:induction false} OneOperationExpenses(r: Row)
    requires r.amount > 0
    ensures ExpensesOf([r]) == Expenses(RoundRoubles(r.amount), [Bucket(r.category, RoundRoubles(r.amount))], TransfersAndCash())
  {
    FilterAll([r], Spent);
    OneEntryExpenses(r.category, r.amount);
    OneOperationSums(r);
  }

  /** A single positive category sum is listed by name, with nothing left over. */
  lemma {:induction false} OneEntryExpenses(category: string, amount: int)
    requires amount > 0
    ensures var sums := [(category, amount)];
      && NLargest(sums, MainCount, PairAmount) == sums
      && SumScores(sums, PairAmount) == amount
  {
    var sums := [(category, amount)];
    assert FirstMaxIndex(sums, PairAmount) == 0;
    assert RemoveAt(sums, 0) == [];
  }

  /** An operation dated after 2021, outside the data window, still counts towards the spending
      of every range. */
  lemma {:induction false} LaterOperationCounts(r: Row, code: string, o: Outside)
    requires FetchQuotes(o).Ok?
    requires r.date.Stamp? && r.date.at.date.year > 2021 && r.amount > 0
    ensures !InWindowRow(r)
    ensures EventsSpec([r], code, o).Ok?
    ensures EventsSpec([r], code, o).value.expenses.totalAmount == RoundRoubles(r.amount)
    ensures EventsSpec([r], code, o).value.expenses.main == [Bucket(r.category, RoundRoubles(r.amount))]
  {
    FilterAll([r], From(RangeStart(code)));
    OneOperationExpenses(r);
  }

  // ---------------------------------------------------------------- the pages' test table

  /** An operation dated at midnight of a January 2021 day lies in the data window and in every
      range of the events page that starts no later than it. */
  lemma {:induction false} JanuaryOperation(r: Row, day: int)
    requires 1 <= day <= 31 && r.date == Stamp(Midnight(Date(2021, 1, day)))
    ensures ValidStamp(r.date.at) && InWindowRow(r) && From(RangeStart("ALL"))(r)
  {
  }

  /** The four operations of the pages' tests, dated 2021-01-01 to 2021-01-04: two on one card,
      one on another and a card-less income. */
  predicate TestTable(r0: Row, r1: Row, r2: Row, r3: Row)
  {
    && r0.date == Stamp(Midnight(Date(2021, 1, 1))) && r1.date == Stamp(Midnight(Date(2021, 1, 2)))
    && r2.date == Stamp(Midnight(Date(2021, 1, 3))) && r3.date == Stamp(Midnight(Date(2021, 1, 4)))
    && r0.card == Some("1234567890123456") && r1.card == Some("1234567890123456")
    && r2.card == Some("9876543210987654") && r3.card.None?
    && r0.amount == 100050 && r1.amount == 200075 && r2.amount == 300025 && r3.amount == -50000
  }

  /** Four operations dated with real moments make a dated table. */
  lemma {:induction false} DatedFour(a: Row, b: Row, c: Row, d: Row)
    requires a.date.Stamp? && b.date.Stamp? && c.date.Stamp? && d.date.Stamp?
    requires ValidStamp(a.date.at) && ValidStamp(b.date.at) && ValidStamp(c.date.at) && ValidStamp(d.date.at)
    ensures Dated([a, b, c, d]) && ValidDates([a, b, c, d])
  {
  }

  /** Every operation of the test table lies in the data window. */
  lemma {:induction false} TestTableInWindow(r0: Row, r1: Row, r2: Row, r3: Row)
    requires TestTable(r0, r1, r2, r3)
    ensures Dated([r0, r1, r2, r3]) && ValidDates([r0, r1, r2, r3])
    ensures Reports.InWindowRows([r0, r1, r2, r3]) == [r0, r1, r2, r3]
    ensures Filter([r0, r1, r2, r3], From(RangeStart("ALL"))) == [r0, r1, r2, r3]
  {
    JanuaryOperation(r0, 1);
    JanuaryOperation(r1, 2);
    JanuaryOperation(r2, 3);
    JanuaryOperation(r3, 4);
    DatedFour(r0, r1, r2, r3);
    FilterFourAll(r0, r1, r2, r3, InWindowRow);
    FilterFourAll(r0, r1, r2, r3, From(RangeStart("ALL")));
  }

  /** Appending an operation adds its card to the distinct cards when it has one not seen yet. */
  lemma {:induction false} DistinctCardsSnoc(rows: seq<Row>, r: Row)
    ensures DistinctCards(rows + [r]) ==
              if r.card.Some? && r.card.value !in DistinctCards(rows) then DistinctCards(rows) + [r.card.value]
              else DistinctCards(rows)
  {
    assert (rows + [r])[..|rows + [r]| - 1] == rows;
  }

  /** The test table has the two cards, in order of appearance. */
  lemma {:induction false} TestTableCards(r0: Row, r1: Row, r2: Row, r3: Row, c: string, d: string)
    requires c != d && r0.card == Some(c) && r1.card == Some(c) && r2.card == Some(d) && r3.card.None?
    ensures DistinctCards([r0, r1, r2, r3]) == [c, d]
  {
    var s1 := [r0];
    var s2 := s1 + [r1];
    var s3 := s2 + [r2];
    DistinctCardsSnoc([], r0);
    assert [] + [r0] == s1;
    DistinctCardsSnoc(s1, r1);
    DistinctCardsSnoc(s2, r2);
    DistinctCardsSnoc(s3, r3);
    assert s3 + [r3] == [r0, r1, r2, r3];
  }

  /** Appending an operation adds its amount to the column's sum. */
  lemma {:induction false} AmountsSnoc(rows: seq<Row>, r: Row)
    ensures Sum(Amounts(rows + [r])) == Sum(Amounts(rows)) + r.amount
  {
    assert Amounts(rows + [r]) == Amounts(rows) + [r.amount];
    SumSnoc(Amounts(rows), r.amount);
  }

  /** The first card of the test table ends in 3456 and has 3001.25 spent. */
  lemma {:induction false} TestTableFirstCard(r0: Row, r1: Row, r2: Row, r3: Row)
    requires TestTable(r0, r1, r2, r3)
    ensures var cards := CardsOf([r0, r1, r2, r3]);
      |cards| == 2 && cards[0].lastDigits == "3456" && cards[0].totalSpent == 300125
  {
    var c := "1234567890123456";
    TestTableCards(r0, r1, r2, r3, c, "9876543210987654");
    CardSpent(r0, r1, r2, r3, c);
  }

  /** Of four operations, the first two on card `c` and the others not, the card's rows are the
      first two. */
  lemma {:induction false} CardSpent(r0: Row, r1: Row, r2: Row, r3: Row, c: string)
    requires r0.card == Some(c) && r1.card == Some(c) && r2.card != Some(c) && r3.card != Some(c)
    ensures Sum(Amounts(Filter([r0, r1, r2, r3], CardTest(c)))) == r0.amount + r1.amount
  {
    var f := Filter([r0, r1, r2, r3], CardTest(c));
    FilterOfFour(r0, r1, r2, r3, CardTest(c));
    var s1: seq<Row> := [r0];
    assert f == s1 + [r1];
    AmountsSnoc([], r0);
    assert [] + [r0] == s1;
    AmountsSnoc(s1, r1);
  }

  /** The home page of the test table at noon: two cards, the first ending in 3456 with
      3001.25 spent, and all four operations listed, largest amount first. */
  lemma {:induction false} HomeOnTestTable(r0: Row, r1: Row, r2: Row, r3: Row, q: Quotes)
    requires TestTable(r0, r1, r2, r3)
    ensures ValidDates([r0, r1, r2, r3])
    ensures var h := HomeFrom(12, q, [r0, r1, r2, r3]);
      && h.warning.None? && h.greeting == "Добрый день"
      && |h.cards| == 2 && h.cards[0].lastDigits == "3456" && h.cards[0].totalSpent == 300125
      && |h.top| == 4 && forall i, j :: 0 <= i < j < |h.top| ==> h.top[i].amount >= h.top[j].amount
  {
    TestTableInWindow(r0, r1, r2, r3);
    TestTableFirstCard(r0, r1, r2, r3);
    TopTransactionsShape([r0, r1, r2, r3]);
  }

  /** Of four operations, three above zero and a last one below,
      the spending is the sum of the first three. */
  lemma {:induction false} FourSpent(r0: Row, r1: Row, r2: Row, r3: Row)
    requires r0.amount > 0 && r1.amount > 0 && r2.amount > 0 && r3.amount < 0
    ensures Sum(Amounts(Filter([r0, r1, r2, r3], Spent))) == r0.amount + r1.amount + r2.amount
  {
    var f := Filter([r0, r1, r2, r3], Spent);
    FilterOfFour(r0, r1, r2, r3, Spent);
    var s1: seq<Row> := [r0];
    var s2 := s1 + [r1];
    assert f == s2 + [r2];
    AmountsSnoc([], r0);
    assert [] + [r0] == s1;
    AmountsSnoc(s1, r1);
    AmountsSnoc(s2, r2);
  }

  /** Of the same four operations, only the last is received. */
  lemma {:induction false} FourReceived(r0: Row, r1: Row, r2: Row, r3: Row)
    requires r0.amount > 0 && r1.amount > 0 && r2.amount > 0 && r3.amount < 0
    ensures Sum(Amounts(Filter([r0, r1, r2, r3], Received))) == r3.amount
  {
    var f := Filter([r0, r1, r2, r3], Received);
    FilterOfFour(r0, r1, r2, r3, Received);
    assert f == [] + [r3];
    AmountsSnoc([], r3);
  }

  /** The events page of the test table over the whole range: 6001.50 spent rounds to 6002, and
      500.00 received gives 500. */
  lemma {:induction false} EventsOnTestTable(r0: Row, r1: Row, r2: Row, r3: Row, o: Outside)
    requires TestTable(r0, r1, r2, r3) && FetchQuotes(o).Ok?
    ensures var e := EventsSpec([r0, r1, r2, r3], "ALL", o);
      e.Ok? && e.value.expenses.totalAmount == 6002 && e.value.income.totalAmount == 500
  {
    var rows := [r0, r1, r2, r3];
    TestTableInWindow(r0, r1, r2, r3);
    assert AllStamps(Dates(rows));
    ExpensesTotal(rows);
    IncomeTotal(rows);
    FourSpent(r0, r1, r2, r3);
    FourReceived(r0, r1, r2, r3);
    assert RoundRoubles(600150) == 6002 && RoundRoubles(50000) == 500;
  }
}
