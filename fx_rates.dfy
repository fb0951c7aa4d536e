/** The rate provider and the exposure calculator of the treasury
    dashboard: choosing a conversion rate for a currency pair, and the
    per-currency exposure records for a set of cash positions. */
module FxRates {
  import opened Wrappers
  import opened PyDict

  /** A three-letter code such as "USD"; nothing checks the format. */
  type Currency = string

  /** The market-data source for the latest close of a pair: Some(rate),
      already rounded to four decimals, or None when the request raised
      for any reason. One fixed source serves a whole render, so every
      request for the same pair gets the same answer. */
  type LiveQuote = (Currency, Currency) -> Option<real>

  /** A source that is down: every request fails. */
  const NoQuote: LiveQuote := (from: Currency, to: Currency) => None

  /** The static table used when the live request fails, keyed by the two
      codes written one after the other. */
  const FallbackRates: map<string, real> := map[
    "ZARUSD" := 0.053,
    "EURUSD" := 1.08,
    "GBPUSD" := 1.27,
    "USDZAR" := 18.9,
    "USDEUR" := 0.93,
    "USDGBP" := 0.79
  ]

  /** The same six rates keyed by the pair itself. */
  const FallbackByPair: map<(Currency, Currency), real> := map[
    ("ZAR", "USD") := 0.053,
    ("EUR", "USD") := 1.08,
    ("GBP", "USD") := 1.27,
    ("USD", "ZAR") := 18.9,
    ("USD", "EUR") := 0.93,
    ("USD", "GBP") := 0.79
  ]

  /** The rate that converts one unit of `from` into `to`: parity for the
      same currency, else the live quote, else the table, else parity. */
  function GetFxRate(live: LiveQuote, from: Currency, to: Currency): real {
    if from == to then 1.0
    else match live(from, to)
      case Some(rate) => rate
      case None =>
        var key := from + to;
        if key in FallbackRates then FallbackRates[key] else 1.0
  }

  /** A currency converts to itself at exactly 1.0, whatever the live
      source would answer: the source is not asked. */
  lemma SameCurrencyIsParity(live: LiveQuote, other: LiveQuote, c: Currency)
    ensures GetFxRate(live, c, c) == 1.0
    ensures GetFxRate(live, c, c) == GetFxRate(other, c, c)
  {
  }

  /** A successful live quote is the answer, and any other source that
      quotes the same value gives the same answer: the table plays no part. */
  lemma LiveQuoteWins(live: LiveQuote, other: LiveQuote, from: Currency, to: Currency)
    requires from != to && live(from, to).Some?
    requires other(from, to) == live(from, to)
    ensures GetFxRate(live, from, to) == live(from, to).value
    ensures GetFxRate(other, from, to) == GetFxRate(live, from, to)
  {
  }

  /** With the live request failing, a tabulated pair gets its table rate. */
  lemma FallbackHit(live: LiveQuote, from: Currency, to: Currency)
    requires from != to && live(from, to).None?
    requires from + to in FallbackRates
    ensures GetFxRate(live, from, to) == FallbackRates[from + to]
  {
  }

  /** With the live request failing, a pair missing from the table silently
      converts at parity. */
  lemma FallbackMiss(live: LiveQuote, from: Currency, to: Currency)
    requires from != to && live(from, to).None?
    requires from + to !in FallbackRates
    ensures GetFxRate(live, from, to) == 1.0
  {
  }

  /** The table's rates as seen through a failing source, and one pair the
      table does not hold. */
  lemma FallbackValues()
    ensures GetFxRate(NoQuote, "ZAR", "USD") == 0.053
    ensures GetFxRate(NoQuote, "EUR", "USD") == 1.08
    ensures GetFxRate(NoQuote, "GBP", "USD") == 1.27
    ensures GetFxRate(NoQuote, "USD", "ZAR") == 18.9
    ensures GetFxRate(NoQuote, "USD", "EUR") == 0.93
    ensures GetFxRate(NoQuote, "USD", "GBP") == 0.79
    ensures GetFxRate(NoQuote, "ZAR", "EUR") == 1.0
  {
    assert "ZAR" + "USD" == "ZARUSD";
    assert "EUR" + "USD" == "EURUSD";
    assert "GBP" + "USD" == "GBPUSD";
    assert "USD" + "ZAR" == "USDZAR";
    assert "USD" + "EUR" == "USDEUR";
    assert "USD" + "GBP" == "USDGBP";
    assert "ZAR" + "EUR" == "ZAREUR";
  }

  /** For three-letter codes the concatenated key names exactly one pair,
      so the string-keyed table is the pair-keyed table. */
  lemma FallbackKeyIsPair(from: Currency, to: Currency)
    requires |from| == 3 && |to| == 3
    ensures from + to in FallbackRates <==> (from, to) in FallbackByPair
    ensures (from, to) in FallbackByPair ==> FallbackRates[from + to] == FallbackByPair[(from, to)]
  {
    SameKeySamePair(from, to, "ZAR", "USD", "ZARUSD");
    SameKeySamePair(from, to, "EUR", "USD", "EURUSD");
    SameKeySamePair(from, to, "GBP", "USD", "GBPUSD");
    SameKeySamePair(from, to, "USD", "ZAR", "USDZAR");
    SameKeySamePair(from, to, "USD", "EUR", "USDEUR");
    SameKeySamePair(from, to, "USD", "GBP", "USDGBP");
  }

  /** Two pairs of three-letter codes give the same key only when they are
      the same pair. */
  lemma SameKeySamePair(from: Currency, to: Currency, a: Currency, b: Currency, key: string)
    requires |from| == 3 && |to| == 3 && |a| == 3 && |b| == 3 && key == a + b
    ensures from + to == key <==> from == a && to == b
  {
    if from + to == a + b {
      assert from == (from + to)[..3] == (a + b)[..3] == a;
      assert to == (from + to)[3..] == (a + b)[3..] == b;
    }
  }

  /** Codes of other lengths can collide on a key: "ZA" to "RUSD" reads the
      ZAR-to-USD entry. */
  lemma KeyCollision()
    ensures GetFxRate(NoQuote, "ZA", "RUSD") == GetFxRate(NoQuote, "ZAR", "USD") == 0.053
  {
    assert "ZA" + "RUSD" == "ZARUSD";
    assert "ZAR" + "USD" == "ZARUSD";
  }

  /** One exposure record of the calculator. */
  datatype Exposure = Exposure(amount: real, rate: real, exposureUsd: real, impact5pctMove: real)

  /** The sensitivity factor 0.05, read as the exact fraction 1/20. */
  const FivePercent: real := 0.05

  /** The record for `amount` held in currency `c` against `base`. */
  function ExposureOf(live: LiveQuote, c: Currency, amount: real, base: Currency): Exposure {
    var rate := GetFxRate(live, c, base);
    var exposureUsd := amount * rate;
    Exposure(amount, rate, exposureUsd, exposureUsd * FivePercent)
  }

  /** The exposure dict built from `positions`: a record for each non-base
      currency, in the order of `positions`. */
  function ExposureTable(live: LiveQuote, positions: Dict<real>, base: Currency): (r: Dict<Exposure>)
    ensures forall c :: c in Keys(r) <==> c in Keys(positions) && c != base
  {
    if positions == [] then []
    else
      var init := positions[..|positions| - 1];
      var (c, amount) := positions[|positions| - 1];
      var rest := ExposureTable(live, init, base);
      assert Keys(positions) == Keys(init) + [c];
      if c == base then rest
      else
        assert Keys(rest + [(c, ExposureOf(live, c, amount, base))]) == Keys(rest) + [c];
        rest + [(c, ExposureOf(live, c, amount, base))]
  }

  /** Looking a currency up in the exposure dict: nothing for the base
      currency or for a currency not held, else the record built from
      the position's own amount. */
  lemma {:induction false} ExposureLookup(live: LiveQuote, positions: Dict<real>, base: Currency, c: Currency)
    ensures Lookup(ExposureTable(live, positions, base), c) ==
      if c == base || c !in Keys(positions) then None
      else Some(ExposureOf(live, c, Lookup(positions, c).value, base))
  {
    if positions != [] {
      var init := positions[..|positions| - 1];
      var (k, amount) := positions[|positions| - 1];
      assert positions == init + [(k, amount)];
      ExposureLookup(live, init, base, c);
      LookupAppend(init, k, amount, c);
      if k != base {
        LookupAppend(ExposureTable(live, init, base), k, ExposureOf(live, k, amount, base), c);
      }
    }
  }

  /** The fields of a record: the position's own amount, the rate to
      base, the exposure as amount times rate, and the impact of a five
      percent move as a twentieth of the exposure. */
  lemma ExposureFields(live: LiveQuote, c: Currency, amount: real, base: Currency)
    ensures var e := ExposureOf(live, c, amount, base);
      && e.amount == amount
      && e.rate == GetFxRate(live, c, base)
      && e.exposureUsd == amount * e.rate
      && e.impact5pctMove == e.exposureUsd / 20.0
  {
  }

  /** The dict is empty exactly when every position is already in the base
      currency (in particular for no positions at all). */
  lemma {:induction false} ExposureEmpty(live: LiveQuote, positions: Dict<real>, base: Currency)
    ensures ExposureTable(live, positions, base) == [] <==>
      forall i | 0 <= i < |positions| :: positions[i].0 == base
  {
    if positions != [] {
      var init := positions[..|positions| - 1];
      ExposureEmpty(live, init, base);
      assert forall i | 0 <= i < |init| :: init[i] == positions[i];
    }
  }

  /** The four positions of the reference deployment against USD with the
      live source down: USD drops out and the others carry the table rates. */
  lemma ReferenceExposure()
    ensures ExposureTable(NoQuote,
        [("ZAR", 5000000.0), ("USD", 250000.0), ("EUR", 100000.0), ("GBP", 75000.0)], "USD")
      == [("ZAR", Exposure(5000000.0, 0.053, 265000.0, 13250.0)),
          ("EUR", Exposure(100000.0, 1.08, 108000.0, 5400.0)),
          ("GBP", Exposure(75000.0, 1.27, 95250.0, 4762.5))]
  {
    var p := [("ZAR", 5000000.0), ("USD", 250000.0), ("EUR", 100000.0), ("GBP", 75000.0)];
    FallbackValues();
    assert p[..1] == [("ZAR", 5000000.0)];
    assert p[..2][..1] == p[..1] && p[..3][..2] == p[..2] && p[..4][..3] == p[..3];
    assert ExposureTable(NoQuote, p[..1], "USD") == [("ZAR", Exposure(5000000.0, 0.053, 265000.0, 13250.0))];
    assert ExposureTable(NoQuote, p[..2], "USD") == ExposureTable(NoQuote, p[..1], "USD");
    assert p[..4] == p;
  }

  /** calculate_fx_exposure: walks the positions in order and stores a
      record for each non-base currency. The positions are a dict, so
      their keys are distinct; they are a value and are not changed. */
  method CalculateFxExposure(live: LiveQuote, cashPositions: Dict<real>, base: Currency)
    returns (exposures: Dict<Exposure>)
    requires Distinct(Keys(cashPositions))
    ensures exposures == ExposureTable(live, cashPositions, base)
  {
    exposures := [];
    for i := 0 to |cashPositions|
      invariant exposures == ExposureTable(live, cashPositions[..i], base)
    {
      var (currency, amount) := cashPositions[i];
      assert cashPositions[..i + 1][..i] == cashPositions[..i];
      if currency != base {
        var rate := GetFxRate(live, currency, base);
        var exposureUsd := amount * rate;
        var impact5pct := exposureUsd * FivePercent;
        assert Keys(cashPositions)[i] == currency;
        assert currency !in Keys(cashPositions[..i]);
        assert currency !in Keys(exposures);
        assert Find(exposures, currency).None?;
        var e := Exposure(amount, rate, exposureUsd, impact5pct);
        assert e == ExposureOf(live, currency, amount, base);
        exposures := Put(exposures, currency, e);
        assert exposures == ExposureTable(live, cashPositions[..i], base) + [(currency, e)];
        assert cashPositions[..i + 1][i] == (currency, amount);
        assert ExposureTable(live, cashPositions[..i + 1], base) == ExposureTable(live, cashPositions[..i], base) + [(currency, e)];
      } else {
        assert ExposureTable(live, cashPositions[..i + 1], base) == ExposureTable(live, cashPositions[..i], base);
      }
    }
    assert cashPositions[..|cashPositions|] == cashPositions;
  }
}
