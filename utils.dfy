/** The helpers the pages use: the greeting for the hour of the day, and the currency-rate and
    stock-price lists, placeholders in test mode and otherwise shaped from the provider's answer.
    The environment is a map from variable names to values; the providers' answers are given. */
module Utils {
  import opened Wrappers

  // ---------------------------------------------------------------- get_greeting

  /** The greeting for an hour of the day. */
  function Greeting(hour: int): (g: string)
    ensures 5 <= hour < 12 <==> g == "Доброе утро"
    ensures 12 <= hour < 17 <==> g == "Добрый день"
    ensures 17 <= hour < 23 <==> g == "Добрый вечер"
    ensures (hour < 5 || 23 <= hour) <==> g == "Доброй ночи"
  {
    if 5 <= hour < 12 then "Доброе утро"
    else if 12 <= hour < 17 then "Добрый день"
    else if 17 <= hour < 23 then "Добрый вечер"
    else "Доброй ночи"
  }

  // ---------------------------------------------------------------- quotes

  /** Environment variables, as `os.getenv` sees them. */
  type Env = map<string, string>

  /** `os.getenv("TESTING") == "True"`. */
  predicate Testing(env: Env)
  {
    "TESTING" in env && env["TESTING"] == "True"
  }

  /** `api_key = os.getenv(name)`; None where it is unset or empty (`not api_key`). */
  function ApiKey(env: Env, name: string): (key: Option<string>)
    ensures key.Some? <==> name in env && env[name] != ""
    ensures key.Some? ==> key.value == env[name]
  {
    if name in env && env[name] != "" then Some(env[name]) else None
  }

  datatype QuoteError =
    | MissingApiKey   // the provider's API key is unset or empty
    | ProviderFailed  // the request failed or the answer was unreadable

  datatype CurrencyRate = CurrencyRate(currency: string, rate: real)

  datatype StockPrice = StockPrice(stock: string, price: real)

  /** One `{currency, rate}` entry per requested code, in request order: the provider's rate
      for that code, or 0.0 when the provider does not list it. */
  function RatesFrom(rates: map<string, real>, currencies: seq<string>): (r: seq<CurrencyRate>)
    ensures |r| == |currencies|
    ensures forall i :: 0 <= i < |r| ==> r[i].currency == currencies[i]
    ensures forall i :: 0 <= i < |r| ==> currencies[i] in rates ==> r[i].rate == rates[currencies[i]]
    ensures forall i :: 0 <= i < |r| ==> currencies[i] !in rates ==> r[i].rate == 0.0
  {
    seq(|currencies|, i requires 0 <= i < |currencies| =>
      CurrencyRate(currencies[i], if currencies[i] in rates then rates[currencies[i]] else 0.0))
  }

  /** `get_currency_rates`. `reply` is the provider's answer: its `rates` object (None where the
      answer has none, read as `{}`), or the failure of the request. */
  function CurrencyRates(env: Env, currencies: seq<string>, reply: Result<Option<map<string, real>>, QuoteError>)
    : (r: Result<seq<CurrencyRate>, QuoteError>)
    ensures Testing(env) ==> r.Ok? && forall i :: 0 <= i < |r.value| ==> r.value[i].rate == 1.0
    ensures !Testing(env) && ApiKey(env, "CURRENCY_API_KEY").None? ==> r == Err(MissingApiKey)
    ensures r.Ok? ==> |r.value| == |currencies| && forall i :: 0 <= i < |r.value| ==> r.value[i].currency == currencies[i]
    ensures r.Err? <==> !Testing(env) && (ApiKey(env, "CURRENCY_API_KEY").None? || reply.Err?)
    ensures !Testing(env) && ApiKey(env, "CURRENCY_API_KEY").Some? && reply.Ok? ==>
              r == Ok(RatesFrom(if reply.value.Some? then reply.value.value else map[], currencies))
  {
    if Testing(env) then Ok(seq(|currencies|, i requires 0 <= i < |currencies| => CurrencyRate(currencies[i], 1.0)))
    else if ApiKey(env, "CURRENCY_API_KEY").None? then Err(MissingApiKey)
    else match reply
      case Err(_) => Err(ProviderFailed)
      case Ok(None) => Ok(RatesFrom(map[], currencies))
      case Ok(Some(rates)) => Ok(RatesFrom(rates, currencies))
  }

  /** The live prices, ticker by ticker: each answer's price (0.0 where the answer has none),
      stopping at the first failed request. `quote` is the provider's answer for a ticker. */
  function LivePrices(stocks: seq<string>, quote: string -> Result<Option<real>, QuoteError>)
    : (r: Result<seq<StockPrice>, QuoteError>)
  {
    if stocks == [] then Ok([])
    else match quote(stocks[0])
      case Err(e) => Err(e)
      case Ok(price) =>
        match LivePrices(stocks[1..], quote)
        case Err(e) => Err(e)
        case Ok(rest) => Ok([StockPrice(stocks[0], if price.Some? then price.value else 0.0)] + rest)
  }

  /** The live prices fail exactly when some ticker's request fails; otherwise there is one entry
      per ticker, in request order, carrying its price or 0.0. */
  lemma {:induction false} LivePricesSpec(stocks: seq<string>, quote: string -> Result<Option<real>, QuoteError>)
    ensures LivePrices(stocks, quote).Err? <==> exists i :: 0 <= i < |stocks| && quote(stocks[i]).Err?
    ensures LivePrices(stocks, quote).Ok? ==>
              |LivePrices(stocks, quote).value| == |stocks| &&
              forall i :: 0 <= i < |stocks| ==>
                LivePrices(stocks, quote).value[i] ==
                  StockPrice(stocks[i], if quote(stocks[i]).value.Some? then quote(stocks[i]).value.value else 0.0)
  {
    if stocks != [] {
      LivePricesSpec(stocks[1..], quote);
      if LivePrices(stocks[1..], quote).Err? {
        var i :| 0 <= i < |stocks[1..]| && quote(stocks[1..][i]).Err?;
        assert stocks[1..][i] == stocks[i + 1];
      }
      if exists i :: 0 <= i < |stocks| && quote(stocks[i]).Err? {
        var i :| 0 <= i < |stocks| && quote(stocks[i]).Err?;
        if i > 0 {
          assert stocks[1..][i - 1] == stocks[i];
        }
      }
    }
  }

  /** `get_stock_prices`. */
  function StockPrices(env: Env, stocks: seq<string>, quote: string -> Result<Option<real>, QuoteError>)
    : (r: Result<seq<StockPrice>, QuoteError>)
    ensures Testing(env) ==>
              r.Ok? && |r.value| == |stocks| && forall i :: 0 <= i < |stocks| ==> r.value[i] == StockPrice(stocks[i], 100.0)
    ensures !Testing(env) && ApiKey(env, "STOCK_API_KEY").None? ==> r == Err(MissingApiKey)
    ensures !Testing(env) && ApiKey(env, "STOCK_API_KEY").Some? ==> r == LivePrices(stocks, quote)
  {
    if Testing(env) then Ok(seq(|stocks|, i requires 0 <= i < |stocks| => StockPrice(stocks[i], 100.0)))
    else if ApiKey(env, "STOCK_API_KEY").None? then Err(MissingApiKey)
    else LivePrices(stocks, quote)
  }
}
