/**
 * The accounts of the participating countries: a balance per currency and
 * a list of resource descriptions, with the arithmetic a trade applies to
 * them. Balances are worth, in won, what convert_currency says they are.
 */
module Accounts {
  import opened Wrappers
  import opened Rates

  /** Currency code to balance, as a country's "자금" dictionary holds them. */
  type Funds = map<Currency, real>

  /** One country: its resources ("자원") in the order acquired and its funds ("자금"). */
  datatype Country = Country(resources: seq<string>, funds: Funds)

  /** A balance, or zero for a currency that has no entry. */
  function Balance(funds: Funds, c: Currency): real
  {
    if c in funds then funds[c] else 0.0
  }

  /** What an amount of currency `c` is worth in won under the table. */
  function InKRW(amount: real, c: Currency, rates: RateTable): real
    requires c in rates && KRW in rates && rates[KRW] != 0.0
  {
    Convert(amount, c, KRW, rates).value
  }

  /** The won value of the balances held under the codes in `keys`. */
  ghost function SumInKRW(funds: Funds, rates: RateTable, keys: set<Currency>): real
    requires keys <= funds.Keys && keys <= rates.Keys
    requires KRW in rates && rates[KRW] != 0.0
    decreases keys
  {
    if keys == {} then 0.0
    else
      var k :| k in keys;
      InKRW(funds[k], k, rates) + SumInKRW(funds, rates, keys - {k})
  }

  /**
   * The total a country's funds are worth in won, the generator sum of the
   * affordability check. It exists only when every held currency has a
   * rate: otherwise Python's `sum` meets a `None` and fails.
   */
  ghost function Wealth(funds: Funds, rates: RateTable): real
    requires funds.Keys <= rates.Keys
    requires KRW in rates && rates[KRW] != 0.0
  {
    SumInKRW(funds, rates, funds.Keys)
  }

  /** The sum over a set of codes may take any member of the set first. */
  lemma {:induction false} SumPick(funds: Funds, rates: RateTable, keys: set<Currency>, k: Currency)
    requires keys <= funds.Keys && keys <= rates.Keys
    requires KRW in rates && rates[KRW] != 0.0
    requires k in keys
    ensures SumInKRW(funds, rates, keys) == InKRW(funds[k], k, rates) + SumInKRW(funds, rates, keys - {k})
    decreases keys
  {
    var j :| j in keys && SumInKRW(funds, rates, keys) == InKRW(funds[j], j, rates) + SumInKRW(funds, rates, keys - {j});
    if j != k {
      SumPick(funds, rates, keys - {j}, k);
      SumPick(funds, rates, keys - {k}, j);
      assert keys - {j} - {k} == keys - {k} - {j};
    }
  }

  /** The sum only looks at the balances under the codes it sums over. */
  lemma {:induction false} SumAgree(f: Funds, g: Funds, rates: RateTable, keys: set<Currency>)
    requires keys <= f.Keys && keys <= g.Keys && keys <= rates.Keys
    requires KRW in rates && rates[KRW] != 0.0
    requires forall c :: c in keys ==> f[c] == g[c]
    ensures SumInKRW(f, rates, keys) == SumInKRW(g, rates, keys)
    decreases keys
  {
    if keys != {} {
      var k :| k in keys;
      SumPick(f, rates, keys, k);
      SumPick(g, rates, keys, k);
      SumAgree(f, g, rates, keys - {k});
    }
  }

  /** Setting one balance changes the total by the difference in that balance's worth. */
  lemma WealthUpdate(funds: Funds, rates: RateTable, c: Currency, v: real)
    requires funds.Keys <= rates.Keys && c in rates
    requires KRW in rates && rates[KRW] != 0.0
    ensures Wealth(funds[c := v], rates)
         == Wealth(funds, rates) - InKRW(Balance(funds, c), c, rates) + InKRW(v, c, rates)
  {
    var g := funds[c := v];
    var rest := funds.Keys - {c};
    SumPick(g, rates, g.Keys, c);
    assert g.Keys - {c} == rest;
    SumAgree(funds, g, rates, rest);
    if c in funds {
      SumPick(funds, rates, funds.Keys, c);
    } else {
      assert funds.Keys == rest;
    }
  }

  /**
   * The buyer's side of a trade (app.py, the debit branches): `None` when
   * the buyer holds neither the trade currency nor won, the case in which
   * the source fails on a missing "KRW" key.
   */
  function Debit(funds: Funds, rates: RateTable, currency: Currency, price: real): (r: Option<Funds>)
    requires currency in rates && KRW in rates && rates[KRW] != 0.0
    ensures r.None? <==> currency !in funds && KRW !in funds
    ensures r.Some? ==> r.value.Keys == funds.Keys
  {
    if currency in funds then
      if funds[currency] >= price then
        Some(funds[currency := funds[currency] - price])
      else
        var neededInKRW := InKRW(price - funds[currency], currency, rates);
        var emptied := funds[currency := 0.0];
        if KRW in emptied then Some(emptied[KRW := emptied[KRW] - neededInKRW]) else Some(emptied)
    else if KRW in funds then
      Some(funds[KRW := funds[KRW] - InKRW(price, currency, rates)])
    else
      None
  }

  /** Debiting the buyer leaves every balance other than the trade currency's and won's as it was. */
  lemma DebitFrame(funds: Funds, rates: RateTable, currency: Currency, price: real, c: Currency)
    requires currency in rates && KRW in rates && rates[KRW] != 0.0
    requires Debit(funds, rates, currency, price).Some?
    requires c in funds && c != currency && c != KRW
    ensures c in Debit(funds, rates, currency, price).value
    ensures Debit(funds, rates, currency, price).value[c] == funds[c]
  {
  }

  /** The shortfall of a held balance is silently dropped: the buyer holds no won to pay it from. */
  predicate ShortfallDropped(funds: Funds, currency: Currency, price: real)
  {
    currency in funds && funds[currency] < price && KRW !in funds
  }

  /** With KRW pinned at 1, the won value of an amount is the amount times its rate. */
  lemma InKRWPinned(amount: real, c: Currency, rates: RateTable)
    requires c in rates && KRW in rates && rates[KRW] == 1.0
    ensures InKRW(amount, c, rates) == amount * rates[c]
  {
  }

  /** With KRW pinned at 1, setting one balance moves the total by the change times its rate. */
  lemma WealthSet(funds: Funds, rates: RateTable, c: Currency, v: real)
    requires funds.Keys <= rates.Keys && c in rates
    requires KRW in rates && rates[KRW] == 1.0
    ensures Wealth(funds[c := v], rates)
         == Wealth(funds, rates) - Balance(funds, c) * rates[c] + v * rates[c]
  {
    WealthUpdate(funds, rates, c, v);
    InKRWPinned(Balance(funds, c), c, rates);
    InKRWPinned(v, c, rates);
  }

  /** A balance set from `bal` to `bal - price` loses `price` times its rate. */
  lemma CoveredAlgebra(w0: real, w1: real, bal: real, price: real, r: real)
    requires w1 == w0 - bal * r + (bal - price) * r
    ensures w1 == w0 - price * r
  {
  }

  /** A balance raised from `bal` to `bal + price` gains `price` times its rate. */
  lemma CreditAlgebra(w0: real, w1: real, bal: real, price: real, r: real)
    requires w1 == w0 - bal * r + (bal + price) * r
    ensures w1 == w0 + price * r
  {
  }

  /** Emptying `bal` and paying the rest of `price` in won loses `price` times the rate. */
  lemma ShortfallAlgebra(w0: real, w1: real, w2: real, bal: real, price: real, r: real, k: real)
    requires w1 == w0 - bal * r + 0.0 * r
    requires w2 == w1 - k * 1.0 + (k - (price - bal) * r) * 1.0
    ensures w2 == w0 - price * r
  {
  }

  /** Losing less than the price at a non-negative rate keeps a total that covered the price non-negative. */
  lemma SolventAlgebra(w: real, bal: real, price: real, r: real)
    requires w >= price * r && bal < price && r >= 0.0
    ensures w - bal * r >= 0.0
  {
    assert (price - bal) * r >= 0.0;
  }

  /** What one side loses and the other gains cancels in the sum. */
  lemma ConservationAlgebra(b0: real, b1: real, s0: real, s1: real, x: real)
    requires b1 == b0 - x && s1 == s0 + x
    ensures b1 + s1 == b0 + s0
  {
  }

  /** One side losing `bal` at rate `r` while the other gains `price` at `r` adds the difference to the sum. */
  lemma CreationAlgebra(b0: real, b1: real, s0: real, s1: real, bal: real, price: real, r: real)
    requires b1 == b0 - bal * r && s1 == s0 + price * r
    ensures b1 + s1 == b0 + s0 + (price - bal) * r
  {
  }

  /**
   * Unless the shortfall is dropped, the buyer's wealth falls by exactly the
   * won value of the price.
   */
  lemma DebitWealth(funds: Funds, rates: RateTable, currency: Currency, price: real)
    requires funds.Keys <= rates.Keys && currency in rates
    requires KRW in rates && rates[KRW] == 1.0
    requires Debit(funds, rates, currency, price).Some?
    requires !ShortfallDropped(funds, currency, price)
    ensures Wealth(Debit(funds, rates, currency, price).value, rates)
         == Wealth(funds, rates) - price * rates[currency]
  {
    if currency in funds && funds[currency] >= price {
      DebitCoveredWealth(funds, rates, currency, price);
    } else if currency in funds {
      DebitShortfallPaidWealth(funds, rates, currency, price);
    } else {
      DebitUnheldWealth(funds, rates, currency, price);
    }
  }

  /** The covered branch: the balance pays the whole price. */
  lemma DebitCoveredWealth(funds: Funds, rates: RateTable, currency: Currency, price: real)
    requires funds.Keys <= rates.Keys && currency in funds
    requires KRW in rates && rates[KRW] == 1.0
    requires funds[currency] >= price
    ensures Wealth(Debit(funds, rates, currency, price).value, rates)
         == Wealth(funds, rates) - price * rates[currency]
  {
    var bal, r := funds[currency], rates[currency];
    var after := funds[currency := bal - price];
    assert Debit(funds, rates, currency, price) == Some(after);
    WealthSet(funds, rates, currency, bal - price);
    CoveredAlgebra(Wealth(funds, rates), Wealth(after, rates), bal, price, r);
  }

  /** The short branch with won held: the balance is emptied and won pays the rest. */
  lemma DebitShortfallPaidWealth(funds: Funds, rates: RateTable, currency: Currency, price: real)
    requires funds.Keys <= rates.Keys && currency in funds && KRW in funds
    requires KRW in rates && rates[KRW] == 1.0
    requires funds[currency] < price
    ensures Wealth(Debit(funds, rates, currency, price).value, rates)
         == Wealth(funds, rates) - price * rates[currency]
  {
    var bal, r := funds[currency], rates[currency];
    var emptied := funds[currency := 0.0];
    var k := emptied[KRW];
    var short := (price - bal) * r;
    var after := emptied[KRW := k - short];
    DebitShortfallPaidShape(funds, rates, currency, price, emptied, k, short, after);
    WealthSet(funds, rates, currency, 0.0);
    WealthSet(emptied, rates, KRW, k - short);
    assert Balance(emptied, KRW) == k;
    assert Wealth(emptied, rates) == Wealth(funds, rates) - bal * r + 0.0 * r;
    assert Wealth(after, rates) == Wealth(emptied, rates) - k * 1.0 + (k - short) * 1.0;
    ShortfallAlgebra(Wealth(funds, rates), Wealth(emptied, rates), Wealth(after, rates),
                     bal, price, r, k);
  }

  /** The short branch with won held empties the balance and takes the rest from won. */
  lemma DebitShortfallPaidShape(funds: Funds, rates: RateTable, currency: Currency, price: real,
                                 emptied: Funds, k: real, short: real, after: Funds)
    requires currency in rates && currency in funds && KRW in funds
    requires KRW in rates && rates[KRW] == 1.0
    requires funds[currency] < price
    requires emptied == funds[currency := 0.0]
    requires k == emptied[KRW] && short == (price - funds[currency]) * rates[currency]
    requires after == emptied[KRW := k - short]
    ensures Debit(funds, rates, currency, price) == Some(after)
  {
    InKRWPinned(price - funds[currency], currency, rates);
  }

  /** The short branch without won: the balance is emptied and the rest is never paid. */
  lemma DebitShortfallDroppedWealth(funds: Funds, rates: RateTable, currency: Currency, price: real)
    requires funds.Keys <= rates.Keys && currency in funds && KRW !in funds
    requires KRW in rates && rates[KRW] == 1.0
    requires funds[currency] < price
    ensures Wealth(Debit(funds, rates, currency, price).value, rates)
         == Wealth(funds, rates) - funds[currency] * rates[currency]
  {
    var after := funds[currency := 0.0];
    assert Debit(funds, rates, currency, price) == Some(after);
    WealthSet(funds, rates, currency, 0.0);
  }

  /** The branch where the trade currency is not held: won pays the whole price. */
  lemma DebitUnheldWealth(funds: Funds, rates: RateTable, currency: Currency, price: real)
    requires funds.Keys <= rates.Keys && currency !in funds && KRW in funds && currency in rates
    requires KRW in rates && rates[KRW] == 1.0
    ensures Wealth(Debit(funds, rates, currency, price).value, rates)
         == Wealth(funds, rates) - price * rates[currency]
  {
    var k, due := funds[KRW], price * rates[currency];
    var after := funds[KRW := k - due];
    assert Debit(funds, rates, currency, price) == Some(after) by {
      InKRWPinned(price, currency, rates);
    }
    WealthSet(funds, rates, KRW, k - due);
  }

  /** The seller's side of a trade: the price is added to, or opens, the trade currency's balance. */
  function Credit(funds: Funds, currency: Currency, price: real): (r: Funds)
    ensures r.Keys == funds.Keys + {currency}
    ensures r[currency] == Balance(funds, currency) + price
  {
    if currency in funds then funds[currency := funds[currency] + price]
    else funds[currency := price]
  }

  /** Crediting the seller leaves every other balance as it was. */
  lemma CreditFrame(funds: Funds, currency: Currency, price: real, c: Currency)
    requires c in funds && c != currency
    ensures c in Credit(funds, currency, price) && Credit(funds, currency, price)[c] == funds[c]
  {
  }

  /** The seller's wealth rises by exactly the won value of the price. */
  lemma CreditWealth(funds: Funds, rates: RateTable, currency: Currency, price: real)
    requires funds.Keys <= rates.Keys && currency in rates
    requires KRW in rates && rates[KRW] == 1.0
    ensures Wealth(Credit(funds, currency, price), rates)
         == Wealth(funds, rates) + price * rates[currency]
  {
    var bal, r := Balance(funds, currency), rates[currency];
    assert Credit(funds, currency, price) == funds[currency := bal + price];
    WealthSet(funds, rates, currency, bal + price);
    CreditAlgebra(Wealth(funds, rates), Wealth(Credit(funds, currency, price), rates), bal, price, r);
  }

  /**
   * Value is conserved between the two parties of a trade whenever the
   * buyer pays the whole price.
   */
  lemma TradeConservesValue(buyer: Funds, seller: Funds, rates: RateTable, currency: Currency, price: real)
    requires buyer.Keys <= rates.Keys && seller.Keys <= rates.Keys && currency in rates
    requires KRW in rates && rates[KRW] == 1.0
    requires Debit(buyer, rates, currency, price).Some?
    requires !ShortfallDropped(buyer, currency, price)
    ensures Wealth(Debit(buyer, rates, currency, price).value, rates)
            + Wealth(Credit(seller, currency, price), rates)
         == Wealth(buyer, rates) + Wealth(seller, rates)
  {
    DebitWealth(buyer, rates, currency, price);
    CreditWealth(seller, rates, currency, price);
    ConservationAlgebra(Wealth(buyer, rates), Wealth(Debit(buyer, rates, currency, price).value, rates),
                        Wealth(seller, rates), Wealth(Credit(seller, currency, price), rates),
                        price * rates[currency]);
  }

  /**
   * A dropped shortfall creates money: the seller is credited the whole
   * price while the buyer loses only the emptied balance, so the pair ends
   * richer by the unpaid `(price - balance) * rate` won.
   */
  lemma TradeCreatesShortfall(buyer: Funds, seller: Funds, rates: RateTable, currency: Currency, price: real)
    requires buyer.Keys <= rates.Keys && seller.Keys <= rates.Keys && currency in rates
    requires KRW in rates && rates[KRW] == 1.0
    requires ShortfallDropped(buyer, currency, price)
    ensures Debit(buyer, rates, currency, price).Some?
    ensures Wealth(Debit(buyer, rates, currency, price).value, rates)
            + Wealth(Credit(seller, currency, price), rates)
         == Wealth(buyer, rates) + Wealth(seller, rates)
            + (price - buyer[currency]) * rates[currency]
  {
    DebitShortfallDroppedWealth(buyer, rates, currency, price);
    CreditWealth(seller, rates, currency, price);
    CreationAlgebra(Wealth(buyer, rates), Wealth(Debit(buyer, rates, currency, price).value, rates),
                    Wealth(seller, rates), Wealth(Credit(seller, currency, price), rates),
                    buyer[currency], price, rates[currency]);
  }

  /** The digit character for a value below ten. */
  function DigitChar(d: nat): (c: char)
    requires d < 10
    ensures '0' <= c <= '9' && (c as int) - ('0' as int) == d
  {
    (('0' as int) + d) as char
  }

  /** Python's `str` of a non-negative int: its decimal digits, without leading zeros. */
  function DecimalString(n: nat): (s: string)
    ensures |s| >= 1
    ensures forall i :: 0 <= i < |s| ==> '0' <= s[i] <= '9'
    ensures s[0] == '0' ==> n == 0
    decreases n
  {
    if n < 10 then [DigitChar(n)] else DecimalString(n / 10) + [DigitChar(n % 10)]
  }

  /** The number a string of decimal digits denotes. */
  function DecimalValue(s: string): nat
    requires forall i :: 0 <= i < |s| ==> '0' <= s[i] <= '9'
    decreases |s|
  {
    if s == [] then 0
    else DecimalValue(s[..|s| - 1]) * 10 + ((s[|s| - 1] as int) - ('0' as int))
  }

  /** Reading the digits back gives the number that was written. */
  lemma {:induction false} DecimalRoundTrip(n: nat)
    ensures DecimalValue(DecimalString(n)) == n
    decreases n
  {
    var s := DecimalString(n);
    if n >= 10 {
      DecimalRoundTrip(n / 10);
      assert s[..|s| - 1] == DecimalString(n / 10);
    }
  }

  /**
   * The resource entry a purchase adds, `f"{item} {quantity}개"`: the item,
   * a space, the quantity's digits and the counter 개. Both the item and the
   * quantity can be read back from it.
   */
  function Descriptor(item: string, quantity: nat): (d: string)
    ensures |d| == |item| + |DecimalString(quantity)| + 2
    ensures d[..|item|] == item && d[|item|] == ' ' && d[|d| - 1] == '개'
    ensures forall i :: |item| < i < |d| - 1 ==> '0' <= d[i] <= '9'
    ensures DecimalValue(d[|item| + 1 .. |d| - 1]) == quantity
  {
    var digits := DecimalString(quantity);
    var entry := item + " " + digits + "개";
    assert entry[|item| + 1 .. |entry| - 1] == digits;
    DecimalRoundTrip(quantity);
    entry
  }


  /**
   * The generator sum of the affordability check, computed one held
   * currency at a time; it stops with `None` at a currency with no rate.
   */
  method TotalInKRW(funds: Funds, rates: RateTable) returns (total: Option<real>)
    requires KRW in rates && rates[KRW] != 0.0
    ensures total.Some? <==> funds.Keys <= rates.Keys
    ensures total.Some? ==> total.value == Wealth(funds, rates)
  {
    var sum := 0.0;
    var left := funds.Keys;
    while left != {}
      invariant left <= funds.Keys
      invariant funds.Keys - left <= rates.Keys
      invariant sum == SumInKRW(funds, rates, funds.Keys - left)
      decreases left
    {
      var k :| k in left;
      var v := Convert(funds[k], k, KRW, rates);
      if v.None? {
        return None;
      }
      var done := funds.Keys - left;
      SumPick(funds, rates, done + {k}, k);
      assert done + {k} - {k} == done;
      sum := sum + v.value;
      left := left - {k};
      assert funds.Keys - left == done + {k};
    }
    assert funds.Keys - left == funds.Keys;
    return Some(sum);
  }
}
