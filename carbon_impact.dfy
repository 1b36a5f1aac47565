/**
 * Carbon-impact enrichment: look the merchant category code up in a static
 * table of emission factors, multiply by the amount, round to hundredths of
 * a kilogram and describe the result.
 *
 * Factors are kept in hundredths of a kilogram of CO2 per currency unit, so
 * the footprint in hundredths of a kilogram is `amount * factor`, rounded to
 * the nearest integer with ties to even (Python's `round`).
 */
module CarbonImpact {
  import opened Wrappers
  import opened Ascii
  import opened Decimal

  /** A table entry: the category's name and its factor in hundredths of kg CO2 per unit spent. */
  datatype CategoryData = CategoryData(name: string, factor: nat)

  const CARBON_FACTORS: map<string, CategoryData> := map[
    "4511" := CategoryData("Airlines", 85),
    "5411" := CategoryData("Grocery Stores", 12),
    "5541" := CategoryData("Gas Stations", 210),
    "5812" := CategoryData("Restaurants", 25)
  ]

  /** The entry used for every code missing from the table. */
  const GENERAL_RETAIL: CategoryData := CategoryData("General Retail", 15)

  datatype Transaction = Transaction(mcc: string, amount: real, description: string)

  /** The transaction model's constraints: a four-digit code, a positive amount, a description. */
  predicate WellFormed(tx: Transaction)
  {
    |tx.mcc| == 4 && (forall i :: 0 <= i < 4 ==> IsDigit(tx.mcc[i]))
    && tx.amount > 0.0 && |tx.description| >= 1
  }

  /** `CARBON_FACTORS.get(mcc, default)`: the entry is the table's, or General Retail. */
  function LookupCategory(mcc: string): (c: CategoryData)
    ensures c.factor > 0
    ensures c in CARBON_FACTORS.Values || c == GENERAL_RETAIL
    ensures mcc in CARBON_FACTORS ==> c == CARBON_FACTORS[mcc]
    ensures mcc !in CARBON_FACTORS ==> c == GENERAL_RETAIL
  {
    if mcc in CARBON_FACTORS then CARBON_FACTORS[mcc] else GENERAL_RETAIL
  }

  /**
   * The integer nearest to `x`; of two equally near, the even one. This is
   * how Python's `round` treats the scaled value.
   */
  function RoundHalfEven(x: real): (n: int)
    ensures -0.5 <= n as real - x <= 0.5
    ensures (n as real - x == 0.5 || x - n as real == 0.5) ==> n % 2 == 0
  {
    var f := x.Floor;
    var rest := x - f as real;
    if rest < 0.5 then f
    else if rest > 0.5 then f + 1
    else if f % 2 == 0 then f
    else f + 1
  }

  /** The two properties in the contract of `RoundHalfEven` determine its result. */
  lemma RoundHalfEvenUnique(x: real, n: int)
    requires -0.5 <= n as real - x <= 0.5
    requires (n as real - x == 0.5 || x - n as real == 0.5) ==> n % 2 == 0
    ensures n == RoundHalfEven(x)
  {
    var m := RoundHalfEven(x);
    assert -1.0 <= n as real - m as real <= 1.0;
  }

  /** Rounding never reverses the order of two values. */
  lemma RoundHalfEvenMonotone(x: real, y: real)
    requires x <= y
    ensures RoundHalfEven(x) <= RoundHalfEven(y)
  {
  }

  /** `round(amount * factor, 2)`, in hundredths of a kilogram. */
  function FootprintHundredths(amount: real, factor: nat): (h: nat)
    requires amount > 0.0
    ensures -0.5 <= h as real - amount * factor as real <= 0.5
  {
    RoundHalfEven(amount * factor as real)
  }

  /**
   * `str()` of a float that holds a whole number of hundredths: the integer
   * part, a point, and one or two fraction digits with a trailing zero dropped.
   */
  function FormatKg(h: nat): (s: string)
    ensures |s| >= 3
    ensures s[|s| - 2] == '.' <==> h % 10 == 0
    ensures s[|s| - 2] == '.' ==> (s[|s| - 1] == '0' <==> h % 100 == 0)
    ensures s[0] == '0' ==> s[1] == '.'
  {
    var whole := NatToDecimal(h / 100);
    var cents := h % 100;
    var fraction :=
      if cents == 0 then "0"
      else if cents % 10 == 0 then [DigitChar(cents / 10)]
      else [DigitChar(cents / 10), DigitChar(cents % 10)];
    var s := whole + "." + fraction;
    assert s[..|whole|] == whole;
    s
  }

  /** Reads a footprint written by `FormatKg` back as hundredths of a kilogram. */
  function ParseKg(s: string): Option<nat>
  {
    if |s| >= 3 && s[|s| - 2] == '.' && AllDigits(s[..|s| - 2]) && IsDigit(s[|s| - 1]) then
      Some(DecimalToNat(s[..|s| - 2]) * 100 + DigitValue(s[|s| - 1]) * 10)
    else if |s| >= 4 && s[|s| - 3] == '.' && AllDigits(s[..|s| - 3])
            && IsDigit(s[|s| - 2]) && IsDigit(s[|s| - 1]) then
      Some(DecimalToNat(s[..|s| - 3]) * 100 + DigitValue(s[|s| - 2]) * 10 + DigitValue(s[|s| - 1]))
    else
      None
  }

  /** The written footprint determines the footprint: no two footprints print alike. */
  lemma FormatKgRoundTrip(h: nat)
    ensures ParseKg(FormatKg(h)) == Some(h)
  {
    var w := NatToDecimal(h / 100);
    DecimalRoundTrip(h / 100);
    var s := FormatKg(h);
    var cents := h % 100;
    if cents == 0 || cents % 10 == 0 {
      assert s[..|s| - 2] == w;
    } else {
      assert s[..|s| - 3] == w;
      assert s[|s| - 2] != '.';
    }
  }

  function Insight(h: nat): string
  {
    "This purchase contributed " + FormatKg(h) + "kg of CO2 to your monthly limit."
  }

  /** The enriched transaction returned to the caller. */
  datatype Enrichment = Enrichment(
    originalTransaction: string,
    merchantCategory: string,
    carbonFootprintKg: real,
    insights: string)

  /**
   * `enrich_transaction`: the description passes through unchanged, the
   * category is the table's (or General Retail), the footprint is the
   * amount times the factor to the nearest hundredth, and the insight
   * quotes that footprint.
   */
  function EnrichTransaction(tx: Transaction): (r: Enrichment)
    requires WellFormed(tx)
    ensures r.originalTransaction == tx.description
    ensures r.merchantCategory == LookupCategory(tx.mcc).name
    ensures var h := FootprintHundredths(tx.amount, LookupCategory(tx.mcc).factor);
      r.carbonFootprintKg == h as real / 100.0 && r.insights == Insight(h)
  {
    var category := LookupCategory(tx.mcc);
    var h := FootprintHundredths(tx.amount, category.factor);
    Enrichment(tx.description, category.name, h as real / 100.0, Insight(h))
  }

  /**
   * The footprint reported is the exact product of amount and factor to
   * within half a hundredth of a kilogram, and never negative.
   */
  lemma EnrichFootprintNearest(tx: Transaction)
    requires WellFormed(tx)
    ensures var exact := tx.amount * LookupCategory(tx.mcc).factor as real;
      -0.5 <= EnrichTransaction(tx).carbonFootprintKg * 100.0 - exact <= 0.5
    ensures EnrichTransaction(tx).carbonFootprintKg >= 0.0
  {
    var h := FootprintHundredths(tx.amount, LookupCategory(tx.mcc).factor);
    assert EnrichTransaction(tx).carbonFootprintKg * 100.0 == h as real;
  }

  /** A larger amount never gives a smaller footprint, for any non-negative factor. */
  lemma FootprintMonotone(a: real, b: real, factor: nat)
    requires 0.0 < a <= b
    ensures FootprintHundredths(a, factor) <= FootprintHundredths(b, factor)
  {
    var x, y := a * factor as real, b * factor as real;
    assert x <= y by {
      assert y - x == (b - a) * factor as real;
    }
    RoundHalfEvenMonotone(x, y);
  }

  /** For a fixed code, a larger amount never gives a smaller footprint. */
  lemma EnrichMonotone(mcc: string, a: real, b: real, description: string)
    requires WellFormed(Transaction(mcc, a, description)) && a <= b
    ensures EnrichTransaction(Transaction(mcc, a, description)).carbonFootprintKg
            <= EnrichTransaction(Transaction(mcc, b, description)).carbonFootprintKg
  {
    FootprintMonotone(a, b, LookupCategory(mcc).factor);
  }

  /** The known codes and the fallback. */
  lemma KnownCategories()
    ensures LookupCategory("4511") == CategoryData("Airlines", 85)
    ensures LookupCategory("5411") == CategoryData("Grocery Stores", 12)
    ensures LookupCategory("5541") == CategoryData("Gas Stations", 210)
    ensures LookupCategory("5812") == CategoryData("Restaurants", 25)
    ensures LookupCategory("9999") == CategoryData("General Retail", 15)
  {
    assert "9999" !in CARBON_FACTORS;
  }

  // Concrete transactions and their enrichment.

  lemma ExampleFootprints()
    ensures FootprintHundredths(50.0, 12) == 600
    ensures FootprintHundredths(50.0, 210) == 10500
    ensures FootprintHundredths(100.0, 15) == 1500
  {
    assert RoundHalfEven(600.0) == 600;
    assert RoundHalfEven(10500.0) == 10500;
    assert RoundHalfEven(1500.0) == 1500;
  }

  lemma ExampleFormats()
    ensures FormatKg(600) == "6.0"
    ensures FormatKg(10500) == "105.0"
    ensures FormatKg(1234) == "12.34"
    ensures FormatKg(1230) == "12.3"
  {
    assert NatToDecimal(105) == NatToDecimal(10) + "5";
  }

  lemma ExampleGroceries()
    ensures var r := EnrichTransaction(Transaction("5411", 50.0, "Weekly groceries"));
      && r.originalTransaction == "Weekly groceries"
      && r.merchantCategory == "Grocery Stores"
      && r.carbonFootprintKg == 6.0
      && r.insights == "This purchase contributed " + "6.0" + "kg of CO2 to your monthly limit."
  {
    KnownCategories();
    ExampleFootprints();
    ExampleFormats();
  }

  lemma ExampleFuel()
    ensures var r := EnrichTransaction(Transaction("5541", 50.0, "Fuel purchase"));
      && r.originalTransaction == "Fuel purchase"
      && r.merchantCategory == "Gas Stations"
      && r.carbonFootprintKg == 105.0
      && r.insights == "This purchase contributed " + "105.0" + "kg of CO2 to your monthly limit."
  {
    KnownCategories();
    ExampleFootprints();
    ExampleFormats();
  }

  lemma ExampleFallback()
    ensures EnrichTransaction(Transaction("9999", 100.0, "Misc")).merchantCategory == "General Retail"
    ensures EnrichTransaction(Transaction("9999", 100.0, "Misc")).carbonFootprintKg == 15.0
  {
    KnownCategories();
    ExampleFootprints();
  }
}
