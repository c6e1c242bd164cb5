# World trade game: settlement and rate engine

A Dafny model of the engine inside `app.py`, a Streamlit classroom game
("세계 무역 게임: 초콜릿을 향한 여정"). In the game, four countries hold money in
several currencies and lists of resources. They record trades with one another
and convert between currencies through a table of rates in Korean won. A
teacher can set off "emergency news" that overrides the exchange rates, and
can later restore the original rates.

The model has five modules:

- `Wrappers` (`wrappers.dfy`): `Option`, which stands in for Python's `None`.
- `Rates` (`rates.dfy`): the rate table, with every rate given in won and
  KRW = 1. It holds `convert_currency` as `Convert` and the fallback table
  `{KRW: 1, USD: 1400, JPY: 9, CNY: 195}`.
- `RateSource` (`rate_source.dfy`): how the bank's quote list becomes a rate
  table. This covers the loop that fills the table quote by quote, the error
  results, and which table a session is seeded with.
- `Accounts` (`accounts.dfy`): a country's funds (currency → balance) and
  resources. It holds the won value of the funds (the affordability sum),
  the buyer's debit, the seller's credit, and the resource entry
  `"{item} {quantity}개"`.
- `Game` (`game.dfy`): the class `Session`, whose fields are the session
  state (`rates`, `originalRates`, `newsActive`, `countries`, `transactions`).
  Its constructor is `initialize_game`. `ToggleNews` is the override and
  restore block. `Settle` is the trade form's settlement.

`Session.Valid()` is the invariant that every operation keeps:

- KRW is 1 in both tables.
- The override never adds or removes a currency code.
- When no news is active, the live table equals the original table.
- The set of countries never changes.
- Every ledger row is one that only a successful settlement could write.

Money and rates are Dafny `real`s. The arithmetic is exact, unlike Python's
floats. The timestamp of a ledger row is a parameter.

The model keeps these behaviours of `app.py` as written:

- **Amount and currency checks.** Settlement itself does not check amounts or
  currencies. The form's widgets bound them (`min_value`, and a selectbox over
  the rate keys). The model states those bounds as preconditions of `Settle`.
- **Shortfall without won.** When the held balance falls short, the rest is
  taken from won only if the buyer already holds a "KRW" key (app.py:213).
  Otherwise the shortfall is dropped and the seller is still credited the full
  price (`TradeCreatesShortfall`).
- **Failures that are exceptions.** Two failures are Python exceptions, not
  reported errors: a held currency with no rate makes the `sum` meet `None`
  (app.py:198), and a missing "KRW" key fails at app.py:218. Neither changes
  any state. The model reports them as the outcomes `UnpricedHolding` and
  `MissingKRW`.
- **Toggling news on.** While the toggle is on, every run writes the three
  override rates again. If a code is missing, reading its current rate fails
  after the rates before it were assigned. `Override` and `ToggleNews` model
  that.
- **Override values.** The number inputs for the override rates have no
  bounds, so `ToggleNews` takes any reals, zero and negative ones included.

## Model

| member | source | states |
|---|---|---|
| `Rates.Convert` | app.py:55-63 | `None` exactly when either code has no rate; otherwise the result is worth in won exactly what the amount is worth (`r * rates[to] == amount * rates[from]`) |
| `Rates.ConvertIdentity` | app.py:55-63 | converting a currency into itself returns the amount |
| `Rates.ConvertZero` | app.py:55-63 | zero converts to zero between known currencies |
| `Rates.ConvertRoundTrip` | app.py:55-63 | converting X→Y→X returns the original amount when both rates are non-zero |
| `Rates.BaseRatesDollar` | app.py:71 | with the fallback table, 1 USD is 1400 KRW and 1400 KRW is 1 USD |
| `RateSource.RatesFromQuotes` | app.py:40-47 | the built table holds KRW = 1. It holds USD, JPY or CNY exactly when a "USD", "JPY(100)" or "CNH" quote was seen, with the last such quote's rate (divided by 100 for the yen), and no other code |
| `RateSource.BuildRates` | app.py:40-49 | the quote loop builds exactly the table `RatesFrom` describes |
| `RateSource.FetchExchangeRates` | app.py:28-53 | a failed request, an unreadable body or an empty quote list is an error (an empty list is the closed-bank error); otherwise the table built from the quotes |
| `RateSource.SeedRates` | app.py:71-78 | the session's starting table has KRW = 1 and only the four known codes. It is the fallback table whenever fetching failed |
| `Accounts.SumPick` | app.py:198 | the won total of the funds does not depend on which currency is summed first |
| `Accounts.SumAgree` | app.py:198 | the won total depends only on the balances summed |
| `Accounts.WealthUpdate` | app.py:198 | setting one balance changes the won total by the change in that balance's won value |
| `Accounts.TotalInKRW` | app.py:198 | the affordability sum is `None` (Python's failing sum) exactly when a held currency has no rate, and otherwise equals the won value of all holdings |
| `Accounts.Debit` | app.py:206-218 | the buyer's debit fails exactly when the buyer holds neither the trade currency nor KRW, and it keeps the set of held codes |
| `Accounts.DebitFrame` | app.py:206-218 | the debit changes no balance other than the trade currency's and KRW's |
| `Accounts.DebitWealth` | app.py:206-218 | unless the shortfall is dropped, the buyer's won wealth falls by exactly the price in won |
| `Accounts.DebitCoveredWealth` | app.py:207-208 | in the covered branch the buyer's won wealth falls by the price in won |
| `Accounts.DebitShortfallPaidWealth` | app.py:209-214 | when the balance falls short and won is held, the buyer's won wealth falls by the full price in won |
| `Accounts.DebitShortfallDroppedWealth` | app.py:209-213 | when the balance falls short and no won is held, the buyer loses only the emptied balance's worth |
| `Accounts.DebitUnheldWealth` | app.py:217-218 | when the trade currency is not held, the buyer's won wealth falls by the price in won |
| `Accounts.Credit` | app.py:221-224 | the seller's balance in the trade currency rises by the price, or is created equal to it, and that code is added to the held codes |
| `Accounts.CreditFrame` | app.py:221-224 | the credit changes no other balance |
| `Accounts.CreditWealth` | app.py:221-224 | the seller's won wealth rises by exactly the price in won |
| `Accounts.TradeConservesValue` | app.py:206-224 | when the buyer pays the whole price, buyer plus seller keep their total won wealth |
| `Accounts.TradeCreatesShortfall` | app.py:209-224 | when the shortfall is dropped, the trade settles anyway and buyer plus seller end `(price - balance) * rate` won richer: the seller is credited money nobody paid |
| `Accounts.DecimalString` | app.py:227 | the quantity is written as one or more decimal digits without a leading zero |
| `Accounts.DecimalRoundTrip` | app.py:227 | reading the written digits back gives the quantity |
| `Accounts.Descriptor` | app.py:227 | the resource entry is the item, a space, the quantity's digits and 개; the item and the quantity read back from it are the ones bought |
| `Game.Override` | app.py:130-136 | the override keeps the table's codes and touches only USD, JPY and CNY. Each is set to its new rate only if it and the codes before it exist |
| `Game.Verdict` | app.py:190-218 | the outcome of a settlement, in the source's order of checks: the same country is refused exactly when seller and buyer coincide; an unpriced holding, or a buyer holding neither the trade currency nor KRW, is a failure; a settled trade is one whose buyer's holdings are all priced and whose debit can be performed |
| `Game.SettledBuyerSolvent` | app.py:196-218 | after a settled purchase the buyer's funds are worth at least zero won: always when the price is paid in full, and at a non-negative rate when a shortfall is dropped |
| `Game.DroppedShortfallExample` | app.py:209-215 | a buyer with 10 USD and 10000 JPY and no KRW is worth 104000 KRW, settles a 20 USD (28000 KRW) purchase, and is left worth 90000 KRW: it paid only 14000 KRW of the price |
| `Game.NegativeBalanceExample` | app.py:209-214 | a buyer with 100 KRW and 100 USD settles a 200 KRW purchase and is left with -100 KRW |
| `Game.DebitFunds` | app.py:206-218 | the step-by-step debit computes exactly `Debit` |
| `Game.Session.constructor` | app.py:65-94 | the live table is the seeded table and the original table is a copy of it. No news is active, the four countries hold their starting resources and funds, and the ledger is empty |
| `Game.Session.ToggleNews` | app.py:124-141 | on: news is active and the rates are `Override` of the old ones (`completed` tells whether all three codes existed). Off: news is inactive and the live table equals the original table. Off while inactive changes nothing. The original table never changes |
| `Game.Session.Commit` | app.py:220-240 | the buyer gets the debited funds and one resource entry at the end of its list, and the seller gets the credit with its resources unchanged. The ledger gains exactly one row at its end |
| `Game.Session.Settle` | app.py:189-241 | the outcome is the `Verdict` of the buyer's funds. A refused or failing trade changes nothing. A settled trade debits the buyer, credits the seller, appends the buyer's resource entry and one ledger row, and leaves every other country and the rates unchanged. The ledger grows by one exactly on success |
| `Game.CocoaTradeScenario` | app.py:189-241 | on the fallback rates, Korea buys cocoa for 30 USD, paying 42000 of its 50000 won. America ends with 60 USD and the ledger has one row. A news override followed by its end leaves USD at 1400 |

## Left out

- The Streamlit page is not modelled: titles, tabs, columns, metrics, the
  country dashboard, the rate board, the conversion calculator's display, the
  ledger table and the messages shown by `st.error`, `st.warning`, `st.success`
  and `st.info` (app.py:99-170, 244-258). This is presentation.
- Loading the API key from `st.secrets` and stopping when it is missing is not
  modelled (app.py:15-23). This is configuration.
- The HTTP request, JSON decoding, the one-hour `st.cache_data` cache and
  today's date in the URL are not modelled (app.py:27-36). A response arrives
  in the model already classified as `RequestFailed`, `Malformed` or a quote
  list.
- Reading a quote's `tts` text (removing the commas, `float(...)`) is not
  modelled (app.py:43-47). A quote carries its rate as a `real`. The response
  is `Malformed` as a whole only when a row lacks `cur_unit`, or when a row
  whose unit is "USD", "JPY(100)" or "CNH" has a missing or unparseable
  `tts` (the `KeyError`/`ValueError` of app.py:52-53). A row of any other unit
  is never read beyond its unit: it becomes a `Quote` that `Absorb` ignores. A
  body that is not JSON raises a `requests` exception and is reported as a
  request error (app.py:50-51), so it is `RequestFailed`.
- `datetime.now()` is not modelled (app.py:232). The ledger row's time is a
  parameter of `Settle`.
- The pandas DataFrame, `pd.concat` and the `utf-8-sig` CSV export are not
  modelled (app.py:92-94, 240, 251). The ledger is a sequence of `Record`s
  whose fields follow the export's column order.
- Display rounding with `:,.2f` and the `format="%.2f"` of the number inputs
  is not modelled. Floating-point rounding is not modelled either: all
  arithmetic is exact.
- The `'initialized'` guard of `initialize_game` is not modelled as a flag. A
  session is built once by the `Session` constructor. The fallback warning is
  not modelled.
- Widgets supply the inputs: the toggle's state, the three override rates, and
  the form's seller, buyer, item, quantity, price and currency. They are
  parameters. The widget bounds are the preconditions of `Settle`: seller and
  buyer are countries, `price >= 0`, `quantity >= 1`, and the currency has a
  rate.
- Rates.Convert: requires a non-zero target rate. In Python, dividing by a
  zero rate raises `ZeroDivisionError`. Settlement only ever divides by the
  KRW rate, which the session invariant keeps at 1.
- The order of entries in Python dictionaries is not modelled. It affects the
  order of display only. The affordability sum is order-independent here
  (`SumPick`).
