/** The aggregation loops of the dashboard script: per-currency totals of
    the entities' cash, their conversion into the base currency with the
    grand total, and the per-entity converted amounts for the bar chart. */
module Dashboard {
  import opened Wrappers
  import opened PyDict
  import opened FxRates

  /** One entry of the `entities` dict: the entity's name (the dict key),
      the currency it holds and the amount. */
  datatype Entity = Entity(name: string, currency: Currency, amount: real)

  /** The currencies held by some entity. */
  function Currencies(es: seq<Entity>): set<Currency> {
    set e | e in es :: e.currency
  }

  /** The cash of all entities holding currency `c`. */
  function SumFor(es: seq<Entity>, c: Currency): real {
    if es == [] then 0.0
    else
      var e := es[|es| - 1];
      SumFor(es[..|es| - 1], c) + (if e.currency == c then e.amount else 0.0)
  }

  /** The cash of all entities, whatever the currency. */
  function SumAmounts(es: seq<Entity>): real {
    if es == [] then 0.0 else SumAmounts(es[..|es| - 1]) + es[|es| - 1].amount
  }

  /** The sum of a list of numbers. */
  function Total(xs: seq<real>): real {
    if xs == [] then 0.0 else Total(xs[..|xs| - 1]) + xs[|xs| - 1]
  }

  /** The sum of the values of a dict, `sum(d.values())`. */
  function SumValues(d: Dict<real>): real {
    if d == [] then 0.0 else SumValues(d[..|d| - 1]) + d[|d| - 1].1
  }

  /** The currencies of the entities, each once, in order of first appearance. */
  function FirstSeen(es: seq<Entity>): (cs: seq<Currency>)
    ensures Distinct(cs)
  {
    if es == [] then []
    else
      var cs := FirstSeen(es[..|es| - 1]);
      var c := es[|es| - 1].currency;
      if c in cs then cs else cs + [c]
  }

  /** The currencies listed are exactly the currencies held, so every
      entity's currency is listed. */
  lemma {:induction false} FirstSeenCurrencies(es: seq<Entity>)
    ensures forall c :: c in FirstSeen(es) <==> c in Currencies(es)
    ensures forall i | 0 <= i < |es| :: es[i].currency in FirstSeen(es)
  {
    if es != [] {
      var init := es[..|es| - 1];
      assert es == init + [es[|es| - 1]];
      assert Currencies(es) == Currencies(init) + {es[|es| - 1].currency};
      FirstSeenCurrencies(init);
    }
    forall i | 0 <= i < |es| ensures es[i].currency in FirstSeen(es) {
      assert es[i] in es;
    }
  }

  /** Each currency of `cs` paired with the entities' cash in it. */
  function Tabulate(cs: seq<Currency>, es: seq<Entity>): (d: Dict<real>)
    ensures Keys(d) == cs
  {
    seq(|cs|, j requires 0 <= j < |cs| => (cs[j], SumFor(es, cs[j])))
  }

  /** The contents of `currency_totals` once every entity is counted. */
  function Totals(es: seq<Entity>): Dict<real> {
    Tabulate(FirstSeen(es), es)
  }

  /** A currency no entity holds has total zero. */
  lemma {:induction false} SumForAbsent(es: seq<Entity>, c: Currency)
    requires c !in Currencies(es)
    ensures SumFor(es, c) == 0.0
  {
    if es != [] {
      var init := es[..|es| - 1];
      assert es == init + [es[|es| - 1]];
      assert Currencies(init) <= Currencies(es);
      SumForAbsent(init, c);
    }
  }

  /** One more entity adds its amount to its own currency's sum only. */
  lemma SumForStep(s: seq<Entity>, e: Entity, k: Currency)
    ensures SumFor(s + [e], k) == SumFor(s, k) + (if k == e.currency then e.amount else 0.0)
  {
    assert (s + [e])[..|s|] == s;
  }

  /** One turn of the totals loop: adding an entity's amount to its
      currency's running total gives the totals of the longer prefix. */
  lemma TotalsStep(s: seq<Entity>, e: Entity)
    ensures Put(Totals(s), e.currency, Get(Totals(s), e.currency, 0.0) + e.amount) == Totals(s + [e])
  {
    var cs, c := FirstSeen(s), e.currency;
    assert (s + [e])[..|s|] == s;
    if c in cs {
      assert FirstSeen(s + [e]) == cs;
      BumpBound(cs, s, e);
    } else {
      FirstSeenCurrencies(s);
      SumForAbsent(s, c);
      assert FirstSeen(s + [e]) == cs + [c];
      BumpNew(cs, s, e);
    }
  }

  /** `TotalsStep` for a currency that already has a total. */
  lemma BumpBound(cs: seq<Currency>, s: seq<Entity>, e: Entity)
    requires Distinct(cs) && e.currency in cs
    ensures var d := Tabulate(cs, s);
      Put(d, e.currency, Get(d, e.currency, 0.0) + e.amount) == Tabulate(cs, s + [e])
  {
    var d, c := Tabulate(cs, s), e.currency;
    var j := Find(d, c).value;
    var v := SumFor(s, c) + e.amount;
    assert d[j] == (c, SumFor(s, c));
    assert Put(d, c, Get(d, c, 0.0) + e.amount) == d[j := (c, v)];
    forall i | 0 <= i < |cs|
      ensures Tabulate(cs, s + [e])[i] == d[j := (c, v)][i]
    {
      SumForStep(s, e, cs[i]);
    }
  }

  /** `TotalsStep` for a currency seen for the first time. */
  lemma BumpNew(cs: seq<Currency>, s: seq<Entity>, e: Entity)
    requires e.currency !in cs && SumFor(s, e.currency) == 0.0
    ensures var d := Tabulate(cs, s);
      Put(d, e.currency, Get(d, e.currency, 0.0) + e.amount) == Tabulate(cs + [e.currency], s + [e])
  {
    var d, c := Tabulate(cs, s), e.currency;
    assert Put(d, c, Get(d, c, 0.0) + e.amount) == d + [(c, e.amount)];
    forall i | 0 <= i <= |cs|
      ensures Tabulate(cs + [c], s + [e])[i] == (d + [(c, e.amount)])[i]
    {
      SumForStep(s, e, (cs + [c])[i]);
    }
  }

  /** Each currency held maps to the sum of the amounts of the entities
      holding it; no other key is present. */
  lemma TotalsLookup(es: seq<Entity>, c: Currency)
    ensures Lookup(Totals(es), c) == if c in Currencies(es) then Some(SumFor(es, c)) else None
  {
    var d := Totals(es);
    FirstSeenCurrencies(es);
    if c in Currencies(es) {
      var j := Find(d, c).value;
      assert d[j] == (c, SumFor(es, c));
    }
  }

  /** Grouping by currency neither loses nor creates cash. */
  lemma TotalsSum(es: seq<Entity>)
    ensures SumValues(Totals(es)) == SumAmounts(es)
  {
    SumValuesFace(Totals(es));
    FaceAdditive();
    FirstSeenCurrencies(es);
    Regroup(Face, FirstSeen(es), es);
    SumAmountsFace(es);
  }

  /** `TotalsStep` for the prefixes of one list of entities. */
  lemma TotalsPrefixStep(es: seq<Entity>, i: nat)
    requires i < |es|
    ensures Put(Totals(es[..i]), es[i].currency, Get(Totals(es[..i]), es[i].currency, 0.0) + es[i].amount)
      == Totals(es[..i + 1])
  {
    var s, e := es[..i], es[i];
    assert es[..i + 1] == s + [e];
    TotalsStep(s, e);
  }

  /** The totals loop (app.py lines 39-43): for each entity in order, add
      its amount to `currency_totals.get(curr, 0)`. */
  method ComputeCurrencyTotals(entities: seq<Entity>) returns (currencyTotals: Dict<real>)
    ensures currencyTotals == Totals(entities)
  {
    currencyTotals := [];
    for i := 0 to |entities|
      invariant currencyTotals == Totals(entities[..i])
    {
      var curr := entities[i].currency;
      var amount := entities[i].amount;
      TotalsPrefixStep(entities, i);
      currencyTotals := Put(currencyTotals, curr, Get(currencyTotals, curr, 0.0) + amount);
    }
    assert entities[..|entities|] == entities;
  }

  // ---------------------------------------------------------------------
  // Regrouping: summing per entity or per currency gives the same total.

  /** A way of valuing an amount held in a currency. */
  type Valuation = (Currency, real) -> real

  /** Valuing the sum of two amounts held in `c` is adding their values. */
  predicate Splits(f: Valuation, c: Currency, a: real, b: real) {
    f(c, a + b) == f(c, a) + f(c, b)
  }

  /** A valuation that splits over every sum. */
  ghost predicate Additive(f: Valuation) {
    forall c, a, b :: Splits(f, c, a, b)
  }

  /** The amount itself, whatever its currency. */
  function Face(c: Currency, a: real): real {
    a
  }

  /** The entities' cash, each amount valued in its own currency. */
  function ValueSum(f: Valuation, es: seq<Entity>): real {
    if es == [] then 0.0
    else ValueSum(f, es[..|es| - 1]) + f(es[|es| - 1].currency, es[|es| - 1].amount)
  }

  /** A dict's values, each valued in its key's currency. */
  function ValueTotal(f: Valuation, d: Dict<real>): real {
    if d == [] then 0.0
    else ValueTotal(f, d[..|d| - 1]) + f(d[|d| - 1].0, d[|d| - 1].1)
  }

  /** Tabulating the cash of no entities gives zero: every total is zero. */
  lemma {:induction false} TabulateNone(f: Valuation, cs: seq<Currency>)
    requires Additive(f)
    ensures ValueTotal(f, Tabulate(cs, [])) == 0.0
  {
    if cs != [] {
      var init := cs[..|cs| - 1];
      assert Tabulate(cs, [])[..|cs| - 1] == Tabulate(init, []);
      TabulateNone(f, init);
      assert Splits(f, cs[|cs| - 1], 0.0, 0.0);
    }
  }

  /** An entity whose currency is not among `cs` changes no entry. */
  lemma TabulateSkip(cs: seq<Currency>, s: seq<Entity>, e: Entity)
    requires e.currency !in cs
    ensures Tabulate(cs, s + [e]) == Tabulate(cs, s)
  {
    forall i | 0 <= i < |cs|
      ensures Tabulate(cs, s + [e])[i] == Tabulate(cs, s)[i]
    {
      SumForStep(s, e, cs[i]);
    }
  }

  /** An entity whose currency is among `cs` adds its value, once. */
  lemma {:induction false} TabulateHit(f: Valuation, cs: seq<Currency>, s: seq<Entity>, e: Entity)
    requires Additive(f) && Distinct(cs) && e.currency in cs
    ensures ValueTotal(f, Tabulate(cs, s + [e])) == ValueTotal(f, Tabulate(cs, s)) + f(e.currency, e.amount)
  {
    var s', n := s + [e], |cs| - 1;
    var init, x := cs[..n], cs[n];
    DistinctLast(cs);
    TabulateLast(f, cs, s');
    TabulateLast(f, cs, s);
    SumForStep(s, e, x);
    if x == e.currency {
      TabulateSkip(init, s, e);
      assert Splits(f, x, SumFor(s, x), e.amount);
    } else {
      TabulateHit(f, init, s, e);
    }
  }

  /** Without its last element a list of distinct currencies is still
      distinct and does not hold that element; an element of the list is
      either the last one or in the rest. */
  lemma DistinctLast(cs: seq<Currency>)
    requires Distinct(cs) && cs != []
    ensures Distinct(cs[..|cs| - 1]) && cs[|cs| - 1] !in cs[..|cs| - 1]
    ensures forall c :: c in cs <==> c in cs[..|cs| - 1] || c == cs[|cs| - 1]
  {
    assert cs == cs[..|cs| - 1] + [cs[|cs| - 1]];
  }

  /** Peeling the last currency off a tabulation. */
  lemma TabulateLast(f: Valuation, cs: seq<Currency>, es: seq<Entity>)
    requires cs != []
    ensures var n := |cs| - 1;
      ValueTotal(f, Tabulate(cs, es)) ==
        ValueTotal(f, Tabulate(cs[..n], es)) + f(cs[n], SumFor(es, cs[n]))
  {
    assert Tabulate(cs, es)[..|cs| - 1] == Tabulate(cs[..|cs| - 1], es);
  }

  /** Valuing per currency over a list covering every currency held equals
      valuing entity by entity. */
  lemma {:induction false} Regroup(f: Valuation, cs: seq<Currency>, es: seq<Entity>)
    requires Additive(f) && Distinct(cs)
    requires forall i | 0 <= i < |es| :: es[i].currency in cs
    ensures ValueTotal(f, Tabulate(cs, es)) == ValueSum(f, es)
  {
    if es == [] {
      TabulateNone(f, cs);
    } else {
      var init := es[..|es| - 1];
      assert es == init + [es[|es| - 1]];
      Regroup(f, cs, init);
      TabulateHit(f, cs, init, es[|es| - 1]);
    }
  }

  /** Face value splits over sums. */
  lemma FaceAdditive()
    ensures Additive(Face)
  {
    forall c, a, b ensures Splits(Face, c, a, b) {
    }
  }

  /** At face value a dict's total is its plain sum. */
  lemma {:induction false} SumValuesFace(d: Dict<real>)
    ensures SumValues(d) == ValueTotal(Face, d)
  {
    if d != [] {
      SumValuesFace(d[..|d| - 1]);
    }
  }

  /** At face value the entities' total is their plain sum. */
  lemma {:induction false} SumAmountsFace(es: seq<Entity>)
    ensures SumAmounts(es) == ValueSum(Face, es)
  {
    if es != [] {
      SumAmountsFace(es[..|es| - 1]);
    }
  }

  // ---------------------------------------------------------------------
  // Conversion into the base currency.

  /** An amount held in `c`, expressed in `base`: unchanged for the base
      currency itself, else multiplied by the rate. */
  function ToBase(live: LiveQuote, c: Currency, base: Currency, amount: real): real {
    if c == base then amount else amount * GetFxRate(live, c, base)
  }

  /** Skipping the conversion for the base currency, as the script does,
      gives what converting it at `GetFxRate`'s parity would give. */
  lemma ToBaseIsRate(live: LiveQuote, c: Currency, base: Currency, amount: real)
    ensures ToBase(live, c, base, amount) == amount * GetFxRate(live, c, base)
  {
    SameCurrencyIsParity(live, live, c);
  }

  /** Valuation in base. */
  function InBase(live: LiveQuote, base: Currency): Valuation {
    (c, a) => ToBase(live, c, base, a)
  }

  /** Conversion into base splits over sums: one rate applies to a whole
      holding. */
  lemma InBaseAdditive(live: LiveQuote, base: Currency)
    ensures Additive(InBase(live, base))
  {
    forall c, a, b ensures Splits(InBase(live, base), c, a, b) {
      Distributes(GetFxRate(live, c, base), a, b);
    }
  }

  /** Multiplication distributes over addition (kept apart so that the
      solver meets the products in a small context). */
  lemma Distributes(r: real, a: real, b: real)
    ensures (a + b) * r == a * r + b * r
  {
  }

  /** `converted_positions`: the totals dict with every value in base. */
  function Converted(live: LiveQuote, totals: Dict<real>, base: Currency): (r: Dict<real>)
    ensures Keys(r) == Keys(totals)
  {
    seq(|totals|, i requires 0 <= i < |totals| =>
      (totals[i].0, ToBase(live, totals[i].0, base, totals[i].1)))
  }

  /** The converted dict has the currencies of the totals, in their order,
      each with its total expressed in base (see `ToBase`: the base entry
      unconverted, any other total times its rate to base). */
  lemma ConvertedLookup(live: LiveQuote, totals: Dict<real>, base: Currency, c: Currency)
    ensures Lookup(Converted(live, totals, base), c) ==
      match Lookup(totals, c)
      case None => None
      case Some(amount) => Some(ToBase(live, c, base, amount))
  {
    var d := Converted(live, totals, base);
    FindByKeys(d, totals, c);
    match Find(totals, c)
    case None =>
    case Some(j) =>
      assert d[j] == (c, ToBase(live, c, base, totals[j].1));
  }

  /** The converted values add up to the totals valued in base. */
  lemma {:induction false} SumConverted(live: LiveQuote, totals: Dict<real>, base: Currency)
    ensures SumValues(Converted(live, totals, base)) == ValueTotal(InBase(live, base), totals)
  {
    if totals != [] {
      var n := |totals| - 1;
      assert Converted(live, totals, base)[..n] == Converted(live, totals[..n], base);
      SumConverted(live, totals[..n], base);
    }
  }

  /** One turn of the conversion loop: the next total, converted, is a new
      key and goes last, and the running sum grows by its value. */
  lemma ConvertStep(live: LiveQuote, totals: Dict<real>, base: Currency, i: nat, v: real)
    requires Distinct(Keys(totals)) && i < |totals|
    requires v == ToBase(live, totals[i].0, base, totals[i].1)
    ensures Put(Converted(live, totals[..i], base), totals[i].0, v) == Converted(live, totals[..i + 1], base)
    ensures SumValues(Put(Converted(live, totals[..i], base), totals[i].0, v)) ==
      SumValues(Converted(live, totals[..i], base)) + v
  {
    var before, k := Converted(live, totals[..i], base), totals[i].0;
    assert Keys(totals)[i] == k;
    assert k !in Keys(totals[..i]);
    assert Find(before, k).None?;
    assert Put(before, k, v) == before + [(k, v)];
    assert totals[..i + 1][..i] == totals[..i];
    assert (before + [(k, v)])[..|before|] == before;
  }

  /** The conversion loop (app.py lines 45-54): write each total, in base,
      into `converted_positions` and add it to `total_in_base`. The totals
      come from a dict, so their keys are distinct. */
  method ConvertPositions(live: LiveQuote, currencyTotals: Dict<real>, base: Currency)
    returns (convertedPositions: Dict<real>, totalInBase: real)
    requires Distinct(Keys(currencyTotals))
    ensures convertedPositions == Converted(live, currencyTotals, base)
    ensures totalInBase == SumValues(convertedPositions)
  {
    totalInBase := 0.0;
    convertedPositions := [];
    for i := 0 to |currencyTotals|
      invariant convertedPositions == Converted(live, currencyTotals[..i], base)
      invariant totalInBase == SumValues(convertedPositions)
    {
      var (curr, amount) := currencyTotals[i];
      var convertedAmount: real;
      if curr == base {
        convertedAmount := amount;
      } else {
        var rate := GetFxRate(live, curr, base);
        convertedAmount := amount * rate;
      }
      ConvertStep(live, currencyTotals, base, i, convertedAmount);
      convertedPositions := Put(convertedPositions, curr, convertedAmount);
      totalInBase := totalInBase + convertedAmount;
    }
    assert currencyTotals[..|currencyTotals|] == currencyTotals;
  }

  // ---------------------------------------------------------------------
  // Per-entity amounts for the bar chart.

  /** `entity_names`: the entities' names in dict order. */
  function EntityNames(es: seq<Entity>): seq<string> {
    seq(|es|, i requires 0 <= i < |es| => es[i].name)
  }

  /** `entity_amounts`: each entity's amount in base, in dict order. */
  function EntityValues(live: LiveQuote, es: seq<Entity>, base: Currency): seq<real> {
    seq(|es|, i requires 0 <= i < |es| => ToBase(live, es[i].currency, base, es[i].amount))
  }

  /** The per-entity amounts add up to the entities valued in base. */
  lemma {:induction false} TotalEntityValues(live: LiveQuote, es: seq<Entity>, base: Currency)
    ensures Total(EntityValues(live, es, base)) == ValueSum(InBase(live, base), es)
  {
    if es != [] {
      var n := |es| - 1;
      assert EntityValues(live, es, base)[..n] == EntityValues(live, es[..n], base);
      TotalEntityValues(live, es[..n], base);
    }
  }

  /** The bar chart and the liquidity metric agree: converting entity by
      entity and adding up gives `total_in_base`. */
  lemma EntityValuesMatchTotal(live: LiveQuote, es: seq<Entity>, base: Currency)
    ensures Total(EntityValues(live, es, base)) == SumValues(Converted(live, Totals(es), base))
  {
    TotalEntityValues(live, es, base);
    SumConverted(live, Totals(es), base);
    InBaseAdditive(live, base);
    FirstSeenCurrencies(es);
    Regroup(InBase(live, base), FirstSeen(es), es);
  }

  /** The bar-chart loop (app.py lines 78-87): the names in order and, for
      each entity, its amount converted into base. */
  method ComputeEntityAmounts(live: LiveQuote, entities: seq<Entity>, base: Currency)
    returns (entityNames: seq<string>, entityAmounts: seq<real>)
    ensures entityNames == EntityNames(entities)
    ensures entityAmounts == EntityValues(live, entities, base)
  {
    entityNames := EntityNames(entities);
    entityAmounts := [];
    for i := 0 to |entities|
      invariant entityAmounts == EntityValues(live, entities[..i], base)
    {
      var curr := entities[i].currency;
      var amount := entities[i].amount;
      if curr == base {
        entityAmounts := entityAmounts + [amount];
      } else {
        var rate := GetFxRate(live, curr, base);
        entityAmounts := entityAmounts + [amount * rate];
      }
      assert entityAmounts[i] == ToBase(live, curr, base, amount);
      assert entities[..i + 1][..i] == entities[..i];
    }
    assert entities[..|entities|] == entities;
  }

  /** The figures of one render, in the script's order: totals, conversion,
      per-entity amounts, exposure. All rates come from one fixed source. */
  method Aggregate(live: LiveQuote, entities: seq<Entity>, base: Currency)
    returns (currencyTotals: Dict<real>, convertedPositions: Dict<real>, totalInBase: real,
             entityNames: seq<string>, entityAmounts: seq<real>, exposureData: Dict<Exposure>)
    ensures Keys(currencyTotals) == FirstSeen(entities)
    ensures forall c :: Lookup(currencyTotals, c)
                          == if c in Currencies(entities) then Some(SumFor(entities, c)) else None
    ensures SumValues(currencyTotals) == SumAmounts(entities)
    ensures Keys(convertedPositions) == Keys(currencyTotals)
    ensures totalInBase == SumValues(convertedPositions) == Total(entityAmounts)
    ensures currencyTotals == Totals(entities)
    ensures convertedPositions == Converted(live, currencyTotals, base)
    ensures entityAmounts == EntityValues(live, entities, base)
    ensures exposureData == ExposureTable(live, currencyTotals, base)
    ensures entityNames == EntityNames(entities) && |entityAmounts| == |entities|
    ensures forall c :: c in Keys(exposureData) <==> c in Currencies(entities) && c != base
    ensures exposureData == [] <==> forall i | 0 <= i < |entities| :: entities[i].currency == base
  {
    currencyTotals := ComputeCurrencyTotals(entities);
    FirstSeenCurrencies(entities);
    forall c ensures Lookup(currencyTotals, c) ==
      if c in Currencies(entities) then Some(SumFor(entities, c)) else None
    {
      TotalsLookup(entities, c);
    }
    TotalsSum(entities);
    convertedPositions, totalInBase := ConvertPositions(live, currencyTotals, base);
    entityNames, entityAmounts := ComputeEntityAmounts(live, entities, base);
    EntityValuesMatchTotal(live, entities, base);
    exposureData := CalculateFxExposure(live, currencyTotals, base);
    ExposureEmpty(live, currencyTotals, base);
    assert (forall i | 0 <= i < |currencyTotals| :: currencyTotals[i].0 == base) <==>
           (forall i | 0 <= i < |entities| :: entities[i].currency == base) by {
      assert forall c :: c in Keys(currencyTotals) <==> c in Currencies(entities);
      assert forall i | 0 <= i < |entities| :: entities[i].currency in Keys(currencyTotals);
    }
  }
}
