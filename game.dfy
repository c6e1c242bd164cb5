/**
 * The session state of the trade game (Streamlit's `st.session_state`):
 * the live and original rate tables, the emergency-news flag, the four
 * countries and the trade ledger, with the three operations that change
 * them: seeding the session, the news override and restore, and the
 * settlement of a trade.
 */
module Game {
  import opened Wrappers
  import opened Rates
  import opened RateSource
  import opened Accounts

  const Korea: string := "한국 🇰🇷"
  const America: string := "미국 🇺🇸"
  const Japan: string := "일본 🇯🇵"
  const China: string := "중국 🇨🇳"

  /** The four countries every session starts with, each holding one currency. */
  const InitialCountries: map<string, Country> := map[
    Korea := Country(["쌀 🍚", "전자제품 📱"], map[KRW := 50000.0]),
    America := Country(["밀 🌾", "카카오 🍫"], map[USD := 30.0]),
    Japan := Country(["자동차 🚗", "우유 🥛"], map[JPY := 5000.0]),
    China := Country(["장난감 🧸", "설탕 🧂"], map[CNY := 250.0])
  ]

  /** One ledger row, in the column order of the ledger: time, seller, buyer, item, quantity, price, currency. */
  datatype Record = Record(
    time: string, seller: string, buyer: string, item: string,
    quantity: nat, price: real, currency: Currency)

  /** How a settlement attempt ends. The last two are the source's uncaught exceptions. */
  datatype SettleOutcome =
    | Settled
    | SameCountry       // seller and buyer are the same country
    | InsufficientFunds // the buyer's wealth in won is below the price in won
    | UnpricedHolding   // the buyer holds a currency with no rate: the wealth sum fails
    | MissingKRW        // the trade currency is not held and there is no "KRW" key to debit

  /** A row only a successful settlement can have written. */
  predicate WellFormed(r: Record, names: set<string>, codes: set<Currency>)
  {
    && r.seller != r.buyer && r.seller in names && r.buyer in names
    && r.quantity >= 1 && r.price >= 0.0 && r.currency in codes
  }

  /**
   * The outcome a settlement must have, from the buyer's funds before it,
   * in the order the source checks: the same country, an unpriced holding,
   * too little wealth, and the missing won balance.
   */
  ghost function Verdict(buyerFunds: Funds, rates: RateTable, seller: string, buyer: string,
                         currency: Currency, price: real): (r: SettleOutcome)
    requires currency in rates && KRW in rates && rates[KRW] != 0.0
    ensures r == SameCountry <==> seller == buyer
    ensures r == UnpricedHolding ==> !(buyerFunds.Keys <= rates.Keys)
    ensures r == MissingKRW ==> currency !in buyerFunds && KRW !in buyerFunds
    ensures r == Settled ==> buyerFunds.Keys <= rates.Keys && Debit(buyerFunds, rates, currency, price).Some?
  {
    if seller == buyer then SameCountry
    else if !(buyerFunds.Keys <= rates.Keys) then UnpricedHolding
    else if Wealth(buyerFunds, rates) < InKRW(price, currency, rates) then InsufficientFunds
    else if Debit(buyerFunds, rates, currency, price).None? then MissingKRW
    else Settled
  }

  /**
   * The emergency-news override: USD, JPY and CNY are assigned in turn, and
   * the first of them missing from the table stops the assignments (the
   * source reads the current rate first and fails on the missing key).
   */
  function Override(rates: RateTable, usd: real, jpy: real, cny: real): (r: RateTable)
    ensures r.Keys == rates.Keys
    ensures forall c :: c in rates && c != USD && c != JPY && c != CNY ==> r[c] == rates[c]
    ensures USD in rates ==> r[USD] == usd
    ensures USD in rates && JPY in rates ==> r[JPY] == jpy
    ensures USD in rates && JPY in rates && CNY in rates ==> r[CNY] == cny
    ensures JPY in rates && USD !in rates ==> r[JPY] == rates[JPY]
    ensures CNY in rates && !(USD in rates && JPY in rates) ==> r[CNY] == rates[CNY]
  {
    if USD !in rates then rates
    else if JPY !in rates then rates[USD := usd]
    else if CNY !in rates then rates[USD := usd][JPY := jpy]
    else rates[USD := usd][JPY := jpy][CNY := cny]
  }

  /**
   * The affordability check keeps a buyer solvent: after a settled purchase
   * the buyer's funds are still worth at least zero won, whether the price
   * was paid in full or a shortfall was dropped at a non-negative rate,
   * even though a single balance may go negative.
   */
  lemma SettledBuyerSolvent(buyerFunds: Funds, rates: RateTable, seller: string, buyer: string,
                            currency: Currency, price: real)
    requires currency in rates && KRW in rates && rates[KRW] == 1.0
    requires Verdict(buyerFunds, rates, seller, buyer, currency, price) == Settled
    ensures buyerFunds.Keys <= rates.Keys && Debit(buyerFunds, rates, currency, price).Some?
    ensures !ShortfallDropped(buyerFunds, currency, price) ==>
      Wealth(Debit(buyerFunds, rates, currency, price).value, rates) >= 0.0
    ensures ShortfallDropped(buyerFunds, currency, price) && rates[currency] >= 0.0 ==>
      Wealth(Debit(buyerFunds, rates, currency, price).value, rates) >= 0.0
  {
    InKRWPinned(price, currency, rates);
    if ShortfallDropped(buyerFunds, currency, price) {
      DebitShortfallDroppedWealth(buyerFunds, rates, currency, price);
      if rates[currency] >= 0.0 {
        SolventAlgebra(Wealth(buyerFunds, rates), buyerFunds[currency], price, rates[currency]);
      }
    } else {
      DebitWealth(buyerFunds, rates, currency, price);
    }
  }

  /**
   * The dropped shortfall, on the fallback rates: a buyer holding 10 dollars
   * and 10000 yen but no won is worth 104000 won and may buy for 20 dollars
   * (28000 won). The trade settles, the dollars are emptied, and the buyer
   * loses only 14000 won of value: the other 10 dollars are never paid.
   */
  lemma DroppedShortfallExample()
    ensures Wealth(map[USD := 10.0, JPY := 10000.0], BaseRates) == 104000.0
    ensures Verdict(map[USD := 10.0, JPY := 10000.0], BaseRates, Korea, Japan, USD, 20.0) == Settled
    ensures Debit(map[USD := 10.0, JPY := 10000.0], BaseRates, USD, 20.0)
         == Some(map[USD := 0.0, JPY := 10000.0])
    ensures Wealth(map[USD := 0.0, JPY := 10000.0], BaseRates) == 90000.0
  {
    var funds := map[USD := 10.0, JPY := 10000.0];
    SumPick(funds, BaseRates, {USD, JPY}, USD);
    assert {USD, JPY} - {USD} == {JPY};
    SumPick(funds, BaseRates, {JPY}, JPY);
    assert funds.Keys == {USD, JPY};
    assert Wealth(funds, BaseRates) == 104000.0;
    var after := map[USD := 0.0, JPY := 10000.0];
    SumPick(after, BaseRates, {USD, JPY}, USD);
    SumPick(after, BaseRates, {JPY}, JPY);
    assert after.Keys == {USD, JPY};
    assert funds[USD := 0.0] == after;
  }

  /**
   * A settled trade can leave a negative balance: a buyer holding 100 won
   * and 100 dollars buys for 200 won; the won balance is emptied and then
   * debited the 100 won it lacked, ending at -100.
   */
  lemma NegativeBalanceExample()
    ensures Verdict(map[KRW := 100.0, USD := 100.0], BaseRates, Korea, America, KRW, 200.0) == Settled
    ensures Debit(map[KRW := 100.0, USD := 100.0], BaseRates, KRW, 200.0)
         == Some(map[KRW := -100.0, USD := 100.0])
  {
    var funds := map[KRW := 100.0, USD := 100.0];
    SumPick(funds, BaseRates, {KRW, USD}, KRW);
    assert {KRW, USD} - {KRW} == {USD};
    SumPick(funds, BaseRates, {USD}, USD);
    assert funds.Keys == {KRW, USD};
    assert Wealth(funds, BaseRates) == 140100.0;
    assert funds[KRW := 0.0][KRW := -100.0] == map[KRW := -100.0, USD := 100.0];
  }

  /**
   * The buyer's debit as the settlement performs it, one dictionary update
   * at a time; `None` where the source raises on the missing "KRW" key.
   */
  method DebitFunds(funds: Funds, rates: RateTable, currency: Currency, price: real)
    returns (r: Option<Funds>)
    requires currency in rates && KRW in rates && rates[KRW] != 0.0
    ensures r == Debit(funds, rates, currency, price)
  {
    var f := funds;
    if currency in f {
      if f[currency] >= price {
        f := f[currency := f[currency] - price];
      } else {
        var neededInKRW := Convert(price - f[currency], currency, KRW, rates).value;
        f := f[currency := 0.0];
        if KRW in f {
          f := f[KRW := f[KRW] - neededInKRW];
        }
      }
    } else {
      if KRW !in f {
        return None;
      }
      var priceInKRW := Convert(price, currency, KRW, rates).value;
      f := f[KRW := f[KRW] - priceInKRW];
    }
    return Some(f);
  }

  class Session {
    var rates: RateTable
    var originalRates: RateTable
    var newsActive: bool
    var countries: map<string, Country>
    var transactions: seq<Record>

    /**
     * Won is pinned at 1 in both tables, the override never adds or removes
     * a code, the live table is the original whenever no news is active, the
     * participants never change and every ledger row is well formed.
     */
    ghost predicate Valid()
      reads this
    {
      && KRW in rates && rates[KRW] == 1.0
      && KRW in originalRates && originalRates[KRW] == 1.0
      && rates.Keys == originalRates.Keys
      && (!newsActive ==> rates == originalRates)
      && countries.Keys == InitialCountries.Keys
      && forall i :: 0 <= i < |transactions| ==> WellFormed(transactions[i], InitialCountries.Keys, rates.Keys)
    }

    /** initialize_game: the fetched table, or the fallback table, copied into the original. */
    constructor (response: Response)
      ensures Valid()
      ensures rates == SeedRates(response) && originalRates == rates
      ensures !newsActive
      ensures countries == InitialCountries && transactions == []
    {
      var fetched := FetchExchangeRates(response);
      var seeded := if fetched.FetchFailed? then BaseRates else fetched.rates;
      assert seeded == SeedRates(response);
      rates := seeded;
      originalRates := seeded;
      newsActive := false;
      countries := InitialCountries;
      transactions := [];
    }

    /**
     * The emergency-news toggle. On: the flag is raised and the three rates
     * are overridden; `completed` is false when a missing code cut the
     * assignments short. Off: an active news is ended and the live table
     * becomes the original again; an inactive one is left alone.
     */
    method ToggleNews(on: bool, newUSD: real, newJPY: real, newCNY: real) returns (completed: bool)
      requires Valid()
      modifies this
      ensures Valid()
      ensures originalRates == old(originalRates)
      ensures countries == old(countries) && transactions == old(transactions)
      ensures on ==> newsActive && rates == Override(old(rates), newUSD, newJPY, newCNY)
      ensures on ==> (completed <==> USD in old(rates) && JPY in old(rates) && CNY in old(rates))
      ensures !on ==> completed && !newsActive && rates == originalRates
      ensures !on && !old(newsActive) ==> rates == old(rates)
    {
      if on {
        newsActive := true;
        if USD !in rates {
          return false;
        }
        rates := rates[USD := newUSD];
        if JPY !in rates {
          return false;
        }
        rates := rates[JPY := newJPY];
        if CNY !in rates {
          return false;
        }
        rates := rates[CNY := newCNY];
        completed := true;
      } else {
        if newsActive {
          newsActive := false;
          rates := originalRates;
        }
        completed := true;
      }
    }

    /**
     * The writes of a successful settlement, in the source's order: the
     * buyer's debited funds, the seller's credit, the buyer's new resource
     * entry and the ledger row.
     */
    method Commit(seller: string, buyer: string, item: string, quantity: nat,
                  price: real, currency: Currency, time: string, buyerFunds: Funds)
      requires Valid()
      requires seller in countries && buyer in countries && seller != buyer
      requires price >= 0.0 && quantity >= 1 && currency in rates
      modifies this
      ensures Valid()
      ensures rates == old(rates) && originalRates == old(originalRates) && newsActive == old(newsActive)
      ensures countries == old(countries)
        [buyer := Country(old(countries)[buyer].resources + [Descriptor(item, quantity)], buyerFunds)]
        [seller := old(countries)[seller].(funds := Credit(old(countries)[seller].funds, currency, price))]
      ensures transactions == old(transactions) + [Record(time, seller, buyer, item, quantity, price, currency)]
    {
      var cs := countries;
      cs := cs[buyer := cs[buyer].(funds := buyerFunds)];

      var sellerFunds := cs[seller].funds;
      if currency in sellerFunds {
        sellerFunds := sellerFunds[currency := sellerFunds[currency] + price];
      } else {
        sellerFunds := sellerFunds[currency := price];
      }
      cs := cs[seller := cs[seller].(funds := sellerFunds)];

      var bought := cs[buyer];
      cs := cs[buyer := bought.(resources := bought.resources + [Descriptor(item, quantity)])];
      assert cs.Keys == countries.Keys;
      countries := cs;

      var row := Record(time, seller, buyer, item, quantity, price, currency);
      assert WellFormed(row, InitialCountries.Keys, rates.Keys);
      transactions := transactions + [row];
    }

    /**
     * Records a trade. It fails, changing nothing, when seller and buyer
     * are the same, when the buyer's wealth in won is below the price in
     * won, or when the source would raise; otherwise the buyer is debited,
     * the seller credited, the buyer receives the resource entry and the
     * ledger gains one row at its end. Nothing else changes.
     */
    method Settle(seller: string, buyer: string, item: string, quantity: nat,
                  price: real, currency: Currency, time: string) returns (outcome: SettleOutcome)
      requires Valid()
      requires seller in countries && buyer in countries
      requires price >= 0.0 && quantity >= 1 && currency in rates
      modifies this
      ensures Valid()
      ensures rates == old(rates) && originalRates == old(originalRates) && newsActive == old(newsActive)
      ensures outcome == Verdict(old(countries)[buyer].funds, rates, seller, buyer, currency, price)
      ensures outcome != Settled ==> countries == old(countries) && transactions == old(transactions)
      ensures |transactions| == |old(transactions)| + (if outcome == Settled then 1 else 0)
      ensures outcome == Settled ==>
        && countries[buyer].funds == Debit(old(countries)[buyer].funds, rates, currency, price).value
        && countries[buyer].resources == old(countries)[buyer].resources + [Descriptor(item, quantity)]
        && countries[seller].funds == Credit(old(countries)[seller].funds, currency, price)
        && countries[seller].resources == old(countries)[seller].resources
        && (forall c :: c in old(countries) && c != buyer && c != seller ==> countries[c] == old(countries)[c])
        && transactions == old(transactions) + [Record(time, seller, buyer, item, quantity, price, currency)]
    {
      if seller == buyer {
        return SameCountry;
      }
      var buyerFunds := countries[buyer].funds;

      var buyerTotal := TotalInKRW(buyerFunds, rates);
      if buyerTotal.None? {
        return UnpricedHolding;
      }
      var priceInKRW := Convert(price, currency, KRW, rates).value;
      if buyerTotal.value < priceInKRW {
        return InsufficientFunds;
      }

      var debited := DebitFunds(buyerFunds, rates, currency, price);
      if debited.None? {
        return MissingKRW;
      }
      Commit(seller, buyer, item, quantity, price, currency, time, debited.value);
      outcome := Settled;
    }
  }

  /**
   * A session on the fallback rates: Korea buys 3 cocoa from America for 30
   * dollars, paying 42000 won since it holds no dollars; a settlement of a
   * country with itself is refused; an emergency news and its end leave the
   * rates as they were seeded.
   */
  method CocoaTradeScenario() returns (koreaWon: real, americaDollars: real, rows: nat, dollarRate: real)
    ensures koreaWon == 8000.0 && americaDollars == 60.0 && rows == 1 && dollarRate == 1400.0
  {
    var s := new Session(RequestFailed);
    assert s.rates == BaseRates;
    var won := map[KRW := 50000.0];
    assert s.countries[Korea].funds == won;
    SumPick(won, BaseRates, {KRW}, KRW);
    assert {KRW} - {KRW} == {};
    assert won.Keys == {KRW};
    assert Wealth(won, BaseRates) == 50000.0;
    assert InKRW(30.0, USD, BaseRates) == 42000.0;
    var outcome := s.Settle(America, Korea, "카카오", 3, 30.0, USD, "10:00:00");
    assert outcome == Settled;
    var refused := s.Settle(Korea, Korea, "쌀", 1, 10.0, KRW, "10:05:00");
    assert refused == SameCountry;
    var _ := s.ToggleNews(true, 1500.0, 10.0, 200.0);
    var _ := s.ToggleNews(false, 0.0, 0.0, 0.0);
    koreaWon := s.countries[Korea].funds[KRW];
    americaDollars := s.countries[America].funds[USD];
    rows := |s.transactions|;
    dollarRate := s.rates[USD];
  }
}
