# Treasury dashboard FX core in Dafny

This project models the currency core of a multi-currency treasury
dashboard:

- the rate provider `get_fx_rate`;
- the exposure calculator `calculate_fx_exposure`;
- the three aggregation loops of the dashboard script:
  - per-currency cash totals,
  - their conversion into the chosen base currency with the grand total
    ("Total Liquidity"),
  - the per-entity converted amounts behind the bar chart.

Modelling choices:

- **Live quotes.** The market-data request becomes a parameter
  `live: (Currency, Currency) -> Option<real>`. `None` stands for a request
  that raised. One fixed function serves a whole render.
- **Numbers.** Amounts and rates are exact `real`s. The literal 0.05 is read
  as exactly 1/20.
- **Dicts.** A Python `dict` is an insertion-ordered association list,
  `seq<(string, V)>` (module `PyDict`). `d[k] = v` overwrites in place or
  appends. `d.get(k, default)` and lookups find the binding of `k`.
- **Entities.** The `entities` dict becomes a sequence of
  `Entity(name, currency, amount)` in dict order.

Files:

- `wrappers.dfy`: `Option`.
- `py_dict.dfy`: the dict model and its lemmas.
- `fx_rates.dfy`: rate selection and the exposure calculator.
- `app.dfy`: the dashboard loops and the lemmas connecting them.

Each loop is a method proved equal to a declarative specification function.

- `Totals`: the currencies in order of first appearance, each with the sum
  of the amounts held in it.
- `Converted`: every total expressed in base.
- `EntityValues`: each entity's amount in base.
- `ExposureTable`: one record per non-base position.

Lemmas state what these functions mean. The central one is `Regroup`: for
any valuation that adds up over sums, valuing the per-currency totals gives
the same figure as valuing the entities one by one. From it follow:

- grouping preserves the cash (`TotalsSum`);
- the bar chart adds up to the liquidity metric (`EntityValuesMatchTotal`).

## Model

| member | source | states |
|---|---|---|
| FxRates.GetFxRate | fx_rates.py:5-24 | the rate selection itself (parity, then live quote, then table, then 1.0); its behaviour is stated by `SameCurrencyIsParity`, `LiveQuoteWins`, `FallbackHit`, `FallbackMiss`, `FallbackValues` and `FallbackKeyIsPair` |
| FxRates.SameCurrencyIsParity | fx_rates.py:6-7 | a currency converts to itself at exactly 1.0, and the answer does not depend on the live source |
| FxRates.LiveQuoteWins | fx_rates.py:9-13 | a successful live quote is the rate; two sources quoting the same value give the same rate, so the table plays no part |
| FxRates.FallbackHit | fx_rates.py:14-24 | with the live request failing, a pair whose concatenated key is in the table gets the tabulated rate |
| FxRates.FallbackMiss | fx_rates.py:23-24 | with the live request failing, a pair whose key is not in the table converts at 1.0 |
| FxRates.FallbackValues | fx_rates.py:15-22 | the six tabulated rates (ZARUSD 0.053, EURUSD 1.08, GBPUSD 1.27, USDZAR 18.9, USDEUR 0.93, USDGBP 0.79) through a failing source, and ZAR to EUR defaulting to 1.0 |
| FxRates.FallbackKeyIsPair | fx_rates.py:15-24 | for three-letter codes the concatenated key is in the table exactly when the pair is one of the six, and it selects that pair's rate |
| FxRates.SameKeySamePair | fx_rates.py:23 | two pairs of three-letter codes give the same key if and only if they are the same pair |
| FxRates.KeyCollision | fx_rates.py:23-24 | codes of other lengths can collide: "ZA" to "RUSD" reads the ZAR-to-USD rate 0.053 |
| FxRates.ExposureOf | fx_rates.py:40-47 | the definition of one exposure record; its fields are stated by `ExposureFields` and its place in the table by `ExposureLookup` |
| FxRates.ExposureTable | fx_rates.py:38-43 | the result's keys are exactly the input's keys other than the base currency; the base is never a key |
| FxRates.ExposureLookup | fx_rates.py:38-48 | the base currency and currencies not held have no record; any other currency's record is built from its own position's amount |
| FxRates.ExposureFields | fx_rates.py:40-47 | a record holds the amount, the rate to base, exposure = amount times rate, and impact = one twentieth of the exposure |
| FxRates.ExposureEmpty | fx_rates.py:37-49 | the result is empty if and only if every position is in the base currency, including when there are no positions |
| FxRates.ReferenceExposure | fx_rates.py:36-49 | the reference positions (ZAR 5M, USD 250k, EUR 100k, GBP 75k) against USD with the source down give ZAR, EUR and GBP records with the table rates and the computed exposures and impacts |
| FxRates.CalculateFxExposure | fx_rates.py:36-49 | the loop builds exactly `ExposureTable` of its input; the input is a value and is not changed |
| PyDict.Find | app.py:43 | a found position holds the key; nothing is found if and only if the key is absent |
| PyDict.Get | app.py:43 | `get` gives the default when the key is absent and the bound value when it is present |
| PyDict.Put | app.py:43-53 | the definition of `d[k] = v` on the association list; its meaning is stated by `PutSpec` and, for a fresh key, `LookupAppend` |
| PyDict.PutSpec | app.py:43 | `d[k] = v` keeps the key order (or appends `k`), maps `k` to `v`, leaves every other key unchanged, and keeps keys distinct |
| PyDict.LookupAppend | fx_rates.py:43 | after appending a binding for a key, existing keys keep their values and the new key maps to the new value |
| Dashboard.Totals | app.py:39-43 | the definition of `currency_totals`; its keys, values and sum are stated by `FirstSeenCurrencies`, `TotalsLookup`, `TotalsSum`, and the loop is tied to it by `ComputeCurrencyTotals` |
| Dashboard.FirstSeen | app.py:39-43 | the currencies of `currency_totals` in first-appearance order are distinct |
| Dashboard.FirstSeenCurrencies | app.py:39-43 | `currency_totals` has exactly the currencies held by some entity as keys |
| Dashboard.Tabulate | app.py:39-43 | the tabulation has the given currencies as its keys, in order |
| Dashboard.SumForAbsent | app.py:43 | a currency nobody holds has total 0, the `get` default |
| Dashboard.TotalsStep | app.py:40-43 | one turn of the totals loop turns the totals of a prefix into the totals of the prefix extended by one entity |
| Dashboard.TotalsLookup | app.py:40-43 | `currency_totals[c]` is the sum of the amounts of the entities holding `c`, and only held currencies are keys |
| Dashboard.TotalsSum | app.py:39-43 | the totals add up to the sum of all entity amounts |
| Dashboard.ComputeCurrencyTotals | app.py:39-43 | the loop yields exactly `Totals` of the entities |
| Dashboard.Regroup | app.py:39-54 | for an additive valuation, valuing the per-currency totals equals valuing the entities one by one |
| Dashboard.ToBase | app.py:48-52 | the definition of an amount in base, shared by the conversion loop and the bar-chart loop (app.py:83-87); it is stated by `ToBaseIsRate`, `InBaseAdditive` and `ConvertedLookup` |
| Dashboard.InBaseAdditive | app.py:48-52 | converting to base is additive: one rate applies to a whole holding |
| Dashboard.ToBaseIsRate | app.py:48-52 | skipping the conversion for the base currency agrees with converting at the parity rate of `get_fx_rate` |
| Dashboard.Converted | app.py:46-53 | the converted dict has the same keys, in the same order, as the totals |
| Dashboard.ConvertedLookup | app.py:47-53 | each currency's converted entry is its total in base: unconverted for the base, total times rate otherwise; absent keys stay absent |
| Dashboard.SumConverted | app.py:45-54 | the converted values add up to the totals valued in base |
| Dashboard.ConvertStep | app.py:47-54 | one turn of the conversion loop appends the next converted total as a new key and grows the running sum by it |
| Dashboard.ConvertPositions | app.py:45-54 | the loop yields exactly `Converted` of the totals, and `total_in_base` is the sum of its values |
| Dashboard.TotalEntityValues | app.py:79-87 | the per-entity amounts add up to the entities valued in base |
| Dashboard.EntityValuesMatchTotal | app.py:45-87 | the bar-chart amounts add up to the total converted from the per-currency totals |
| Dashboard.ComputeEntityAmounts | app.py:78-87 | the loop yields the names in order and exactly `EntityValues` |
| Dashboard.Aggregate | app.py:39-95 | over one render with one fixed rate source: each output is exactly its specification function (`Totals`, `Converted`, `EntityValues`, `EntityNames`, `ExposureTable`); totals keyed by the held currencies with their sums; cash preserved; converted keys equal to the totals' keys; `total_in_base` equal both to the converted sum and to the bar-chart sum; one bar per entity; exposure keyed by the held non-base currencies and empty exactly when all cash is in base |

## Left out

- The Streamlit, Plotly and pandas code is left out: widgets, layout, charts, DataFrames and number formatting. It is presentation only.
- The sidebar rate display (app.py:31-35) is left out: it only shows `get_fx_rate` values.
- The entity amount inputs (app.py:24-27) are left out. The entities are a model input whose amounts are whatever the widgets returned.
- The market-data request is left out (fx_rates.py:10-12). Ticker strings with their `=X` suffix, the download and the shape of its result are not modelled. They become the `live` parameter.
- `get_fx_history` (fx_rates.py:26-34) is left out. It is I/O on the clock and the network, and its only fixed behaviour is to return an empty series on failure.
- The live source is keyed by the currency pair, not by the ticker string `f"{from}{to}=X"` (fx_rates.py:10). A real source would answer "ZA" to "RUSD" and "ZAR" to "USD" alike, as the table lookup does (`KeyCollision`); the model lets `live` answer them differently. It is more general, and every property that holds for every `live` still holds.
- `round(rate, 4)` is left out: the live value is taken as already rounded.
- Floating point is not modelled: amounts and rates are exact reals, and 0.05 is exactly 1/20.
- The bare `except:` is modelled only as "any failure gives `None`".
- Different answers from repeated live calls within one render are not modelled. One fixed `live` function serves the render, which the consistency properties need.
- Default arguments (`to_currency="USD"`, `base_currency="USD"`) are not modelled: every call passes both currencies explicitly.
- Python's integer/float mix (`get(curr, 0)` with integer widget values) is not modelled: all amounts are reals.
