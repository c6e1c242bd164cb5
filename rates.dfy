/**
 * The exchange-rate table and the conversion arithmetic of the trade game.
 * Every rate is the value of one unit of a currency in Korean won (KRW),
 * the pivot currency, whose own rate is 1.
 */
module Rates {
  import opened Wrappers

  type Currency = string

  /** Currency code to its value in won. */
  type RateTable = map<Currency, real>

  const KRW: Currency := "KRW"
  const USD: Currency := "USD"
  const JPY: Currency := "JPY"
  const CNY: Currency := "CNY"

  /** The fallback table used when the bank's quotes cannot be had. */
  const BaseRates: RateTable := map[KRW := 1.0, USD := 1400.0, JPY := 9.0, CNY := 195.0]

  /**
   * convert_currency: `None` when either code has no rate, otherwise the
   * amount taken to won and from won into the target currency. The result
   * is worth, in won, exactly what the amount was worth. A zero target
   * rate would be a division by zero and is excluded.
   */
  function Convert(amount: real, from: Currency, to: Currency, rates: RateTable): (r: Option<real>)
    requires to in rates ==> rates[to] != 0.0
    ensures r.None? <==> from !in rates || to !in rates
    ensures r.Some? ==> r.value * rates[to] == amount * rates[from]
  {
    if from !in rates || to !in rates then None
    else
      var amountInKRW := amount * rates[from];
      Some(amountInKRW / rates[to])
  }

  /** Multiplying by a non-zero rate and dividing by it again cancels. */
  lemma Cancel(a: real, x: real)
    requires x != 0.0
    ensures a * x / x == a
  {
  }

  /** Taking an amount through a second non-zero rate and back cancels. */
  lemma CancelThrough(a: real, x: real, y: real)
    requires x != 0.0 && y != 0.0
    ensures (a * x / y) * y / x == a
  {
    Cancel(a * x, y);
    Cancel(a, x);
  }

  /** Converting a currency into itself gives the amount back. */
  lemma ConvertIdentity(amount: real, x: Currency, rates: RateTable)
    requires x in rates && rates[x] != 0.0
    ensures Convert(amount, x, x, rates) == Some(amount)
  {
    var rx := rates[x];
    assert Convert(amount, x, x, rates).value == amount * rx / rx;
    Cancel(amount, rx);
  }

  /** Zero converts to zero between any two known currencies. */
  lemma ConvertZero(x: Currency, y: Currency, rates: RateTable)
    requires x in rates && y in rates && rates[y] != 0.0
    ensures Convert(0.0, x, y, rates) == Some(0.0)
  {
  }

  /** Converting there and back again gives the amount back. */
  lemma ConvertRoundTrip(amount: real, x: Currency, y: Currency, rates: RateTable)
    requires x in rates && y in rates && rates[x] != 0.0 && rates[y] != 0.0
    ensures Convert(amount, x, y, rates).Some?
    ensures Convert(Convert(amount, x, y, rates).value, y, x, rates) == Some(amount)
  {
    var rx, ry := rates[x], rates[y];
    var there := amount * rx / ry;
    assert Convert(amount, x, y, rates).value == there;
    var back := Convert(there, y, x, rates);
    assert back.value == there * ry / rx;
    CancelThrough(amount, rx, ry);
    assert back.Some? && back.value == amount;
  }

  /** With the fallback table a dollar is 1400 won and 1400 won a dollar. */
  lemma BaseRatesDollar()
    ensures Convert(1.0, USD, KRW, BaseRates) == Some(1400.0)
    ensures Convert(1400.0, KRW, USD, BaseRates) == Some(1.0)
  {
  }
}
