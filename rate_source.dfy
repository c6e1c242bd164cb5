/**
 * The daily quotes of the Export-Import Bank of Korea, as the game turns
 * them into a rate table. The HTTP request, the JSON decoding and the
 * reading of the "tts" text as a number happen outside the model: a
 * response arrives here already classified, its quotes carrying numbers.
 */
module RateSource {
  import opened Wrappers
  import opened Rates

  /** One row of the bank's quote list: its unit label and its selling rate in won. */
  datatype Quote = Quote(curUnit: string, tts: real)

  /** What the request yields: a transport failure, an unreadable body, or the quote list. */
  datatype Response = RequestFailed | Malformed | Body(quotes: seq<Quote>)

  datatype FetchError = NotBusinessDay | RequestError | FormatError

  datatype FetchResult = Fetched(rates: RateTable) | FetchFailed(error: FetchError)

  /** The table after one quote has been read: only three unit labels are used. */
  function Absorb(rates: RateTable, q: Quote): RateTable
  {
    if q.curUnit == "USD" then rates[USD := q.tts]
    else if q.curUnit == "JPY(100)" then rates[JPY := q.tts / 100.0]
    else if q.curUnit == "CNH" then rates[CNY := q.tts]
    else rates
  }

  /** The table built from a quote list, read front to back, starting from KRW = 1. */
  function RatesFrom(quotes: seq<Quote>): RateTable
    decreases |quotes|
  {
    if quotes == [] then map[KRW := 1.0]
    else Absorb(RatesFrom(quotes[..|quotes| - 1]), quotes[|quotes| - 1])
  }

  /** The selling rate of the last quote with the given unit label, if any. */
  function LastQuote(quotes: seq<Quote>, unit: string): Option<real>
    decreases |quotes|
  {
    if quotes == [] then None
    else if quotes[|quotes| - 1].curUnit == unit then Some(quotes[|quotes| - 1].tts)
    else LastQuote(quotes[..|quotes| - 1], unit)
  }

  /**
   * The table built from a quote list holds KRW = 1, holds a foreign
   * currency exactly when its unit label was quoted, takes the last such
   * quote (per 100 for the yen), and holds nothing else.
   */
  lemma {:induction false} RatesFromQuotes(quotes: seq<Quote>)
    ensures RatesFrom(quotes).Keys <= {KRW, USD, JPY, CNY}
    ensures KRW in RatesFrom(quotes) && RatesFrom(quotes)[KRW] == 1.0
    ensures USD in RatesFrom(quotes) <==> LastQuote(quotes, "USD").Some?
    ensures USD in RatesFrom(quotes) ==> RatesFrom(quotes)[USD] == LastQuote(quotes, "USD").value
    ensures JPY in RatesFrom(quotes) <==> LastQuote(quotes, "JPY(100)").Some?
    ensures JPY in RatesFrom(quotes) ==> RatesFrom(quotes)[JPY] == LastQuote(quotes, "JPY(100)").value / 100.0
    ensures CNY in RatesFrom(quotes) <==> LastQuote(quotes, "CNH").Some?
    ensures CNY in RatesFrom(quotes) ==> RatesFrom(quotes)[CNY] == LastQuote(quotes, "CNH").value
  {
    if quotes != [] {
      RatesFromQuotes(quotes[..|quotes| - 1]);
    }
  }

  /** The loop of fetch_exchange_rates that fills the table quote by quote. */
  method BuildRates(quotes: seq<Quote>) returns (rates: RateTable)
    ensures rates == RatesFrom(quotes)
  {
    rates := map[KRW := 1.0];
    for i := 0 to |quotes|
      invariant rates == RatesFrom(quotes[..i])
    {
      assert quotes[..i + 1][..i] == quotes[..i];
      var q := quotes[i];
      if q.curUnit == "USD" {
        rates := rates[USD := q.tts];
      } else if q.curUnit == "JPY(100)" {
        rates := rates[JPY := q.tts / 100.0];
      } else if q.curUnit == "CNH" {
        rates := rates[CNY := q.tts];
      }
    }
    assert quotes[..|quotes|] == quotes;
  }

  /**
   * fetch_exchange_rates: a failed request or an unreadable body is an
   * error, and so is an empty quote list (a day the bank is closed);
   * otherwise the table built from the quotes.
   */
  method FetchExchangeRates(response: Response) returns (r: FetchResult)
    ensures r.FetchFailed? <==> !response.Body? || response.quotes == []
    ensures r.FetchFailed? && response.Body? ==> r.error == NotBusinessDay
    ensures r.Fetched? ==> r.rates == RatesFrom(response.quotes)
  {
    match response
    case RequestFailed => r := FetchFailed(RequestError);
    case Malformed => r := FetchFailed(FormatError);
    case Body(quotes) =>
      if quotes == [] {
        r := FetchFailed(NotBusinessDay);
      } else {
        var rates := BuildRates(quotes);
        r := Fetched(rates);
      }
  }

  /**
   * The rate table a new session starts from: the fetched table, or the
   * fallback table when fetching failed. Either way KRW is 1 and only the
   * four known codes appear.
   */
  function SeedRates(response: Response): (r: RateTable)
    ensures KRW in r && r[KRW] == 1.0
    ensures r.Keys <= {KRW, USD, JPY, CNY}
    ensures !response.Body? || response.quotes == [] ==> r == BaseRates
  {
    if response.Body? && response.quotes != [] then
      RatesFromQuotes(response.quotes);
      RatesFrom(response.quotes)
    else BaseRates
  }
}
