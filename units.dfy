/** Linear unit conversion of the Area, Weight and Length tabs: each
    category maps a unit name to its size in the category's base unit, and a
    value is converted as `value * factor[from] / factor[to]`.

    The factors are the program's decimal literals read as exact rationals,
    so the laws below (identity, round trip, transitivity) hold exactly here;
    the program computes in binary floating point, where they hold only up to
    rounding. */
module LinearUnits {
  import opened Wrappers

  datatype Category = Area | Weight | Length

  /** Looking up a unit that the category does not list (a Python `KeyError`). */
  datatype ConversionError = UnknownUnit(name: string)

  const AreaFactors: map<string, real> := map[
    "Square Meter" := 1.0,
    "Square Kilometer" := 1000000.0,
    "Square Foot" := 0.092903,
    "Square Inch" := 0.00064516,
    "Acre" := 4046.86,
    "Hectare" := 10000.0
  ]

  const WeightFactors: map<string, real> := map[
    "Kilogram" := 1.0,
    "Gram" := 0.001,
    "Pound" := 0.453592,
    "Ounce" := 0.0283495,
    "Tonne" := 1000.0
  ]

  const LengthFactors: map<string, real> := map[
    "Meter" := 1.0,
    "Kilometer" := 1000.0,
    "Centimeter" := 0.01,
    "Millimeter" := 0.001,
    "Mile" := 1609.34,
    "Yard" := 0.9144,
    "Foot" := 0.3048,
    "Inch" := 0.0254
  ]

  function Factors(c: Category): map<string, real>
  {
    match c
    case Area => AreaFactors
    case Weight => WeightFactors
    case Length => LengthFactors
  }

  /** The unit whose factor is 1. */
  function BaseUnit(c: Category): string
  {
    match c
    case Area => "Square Meter"
    case Weight => "Kilogram"
    case Length => "Meter"
  }

  /** Every factor is strictly positive, so the division never fails. */
  lemma FactorsPositive(c: Category, u: string)
    requires u in Factors(c)
    ensures Factors(c)[u] > 0.0
  {
    match c
    case Area =>
    case Weight =>
    case Length =>
  }

  /** Exactly one unit per category has factor 1, and it is the base unit. */
  lemma BaseUnitUnique(c: Category, u: string)
    requires u in Factors(c)
    ensures BaseUnit(c) in Factors(c) && Factors(c)[BaseUnit(c)] == 1.0
    ensures Factors(c)[u] == 1.0 <==> u == BaseUnit(c)
  {
    match c
    case Area =>
    case Weight =>
    case Length =>
  }

  /** The `convert` step of a linear tab. Python evaluates
      `value * unit_dict[from] / unit_dict[to]` left to right, so an unknown
      source unit is reported before an unknown target unit. A successful
      result measures the same quantity: in base units it equals the input. */
  function Convert(c: Category, value: real, from: string, to: string): (r: Result<real, ConversionError>)
    ensures r.Ok? <==> from in Factors(c) && to in Factors(c)
    ensures from !in Factors(c) ==> r == Err(UnknownUnit(from))
    ensures from in Factors(c) && to !in Factors(c) ==> r == Err(UnknownUnit(to))
    ensures r.Ok? ==> r.value * Factors(c)[to] == value * Factors(c)[from]
  {
    var table := Factors(c);
    if from !in table then Err(UnknownUnit(from))
    else if to !in table then Err(UnknownUnit(to))
    else
      FactorsPositive(c, to);
      Ok(Ratio(value, table[from], table[to]))
  }

  /** The formula `value * fa / fb`: the value measured in units of size
      `fa`, expressed in units of size `fb`. */
  function Ratio(value: real, fa: real, fb: real): (r: real)
    requires fb > 0.0
    ensures r * fb == value * fa
  {
    value * fa / fb
  }

  /** Converting a unit to itself gives the input value back. */
  lemma ConvertIdentity(c: Category, value: real, u: string)
    requires u in Factors(c)
    ensures Convert(c, value, u, u) == Ok(value)
  {
    FactorsPositive(c, u);
  }

  /** Converting to the base unit multiplies by the source unit's factor. */
  lemma ConvertToBase(c: Category, value: real, u: string)
    requires u in Factors(c)
    ensures Convert(c, value, u, BaseUnit(c)) == Ok(value * Factors(c)[u])
  {
    BaseUnitUnique(c, u);
  }

  /** The ratio formula on plain numbers: scaling by `fa / fb` and then by
      `fb / fa` is the identity. */
  lemma RatioRoundTrip(v: real, fa: real, fb: real)
    requires fa > 0.0 && fb > 0.0
    ensures Ratio(Ratio(v, fa, fb), fb, fa) == v
  {
  }

  /** The ratio formula on plain numbers: scaling by `fa / fb` and then by
      `fb / fd` is scaling by `fa / fd`. */
  lemma RatioCompose(v: real, fa: real, fb: real, fd: real)
    requires fa > 0.0 && fb > 0.0 && fd > 0.0
    ensures Ratio(Ratio(v, fa, fb), fb, fd) == Ratio(v, fa, fd)
  {
  }

  /** a -> b followed by b -> a gives the original value. */
  lemma ConvertRoundTrip(c: Category, value: real, a: string, b: string)
    requires a in Factors(c) && b in Factors(c)
    ensures Convert(c, Convert(c, value, a, b).value, b, a) == Ok(value)
  {
    FactorsPositive(c, a);
    FactorsPositive(c, b);
    RatioRoundTrip(value, Factors(c)[a], Factors(c)[b]);
  }

  /** a -> b followed by b -> d equals a -> d directly. */
  lemma ConvertTransitive(c: Category, value: real, a: string, b: string, d: string)
    requires a in Factors(c) && b in Factors(c) && d in Factors(c)
    ensures Convert(c, Convert(c, value, a, b).value, b, d) == Convert(c, value, a, d)
  {
    FactorsPositive(c, a);
    FactorsPositive(c, b);
    FactorsPositive(c, d);
    RatioCompose(value, Factors(c)[a], Factors(c)[b], Factors(c)[d]);
  }

  /** One mile is 1609.34 meters. */
  lemma MileInMeters()
    ensures Convert(Length, 1.0, "Mile", "Meter") == Ok(1609.34)
  {
  }

  /** 1000 grams are one kilogram. */
  lemma ThousandGramsInKilograms()
    ensures Convert(Weight, 1000.0, "Gram", "Kilogram") == Ok(1.0)
  {
  }
}
