/** The Temperature tab: identity when source and target agree, otherwise
    one of six fixed formulas keyed by the ordered pair of unit names.

    The formulas are computed over exact reals (273.15 is the rational
    27315/100); the program computes them in binary floating point. */
module Temperature {
  import opened Wrappers

  datatype TemperatureUnit = Celsius | Fahrenheit | Kelvin

  /** A pair of distinct names that is not one of the six keys of the
      formula table (a Python `KeyError`). */
  datatype TemperatureError = UnsupportedPair(from: string, to: string)

  /** The option-menu entry that names a unit. */
  function Name(u: TemperatureUnit): string
  {
    match u
    case Celsius => "Celsius"
    case Fahrenheit => "Fahrenheit"
    case Kelvin => "Kelvin"
  }

  function Parse(name: string): (u: Option<TemperatureUnit>)
    ensures u.Some? ==> Name(u.value) == name
    ensures forall t :: Name(t) == name ==> u == Some(t)
  {
    if name == "Celsius" then Some(Celsius)
    else if name == "Fahrenheit" then Some(Fahrenheit)
    else if name == "Kelvin" then Some(Kelvin)
    else None
  }

  /** The six formulas, exactly as the program writes them, including the
      Kelvin -> Fahrenheit entry `(x - 32) * 9/5 + 273.15`, which is not the
      inverse of Fahrenheit -> Kelvin (see KelvinToFahrenheitNotInverse). */
  function Formula(from: TemperatureUnit, to: TemperatureUnit, x: real): (r: real)
    requires from != to
    ensures r == FromCelsius(ToCelsius(x, from), to) + (if from == Kelvin && to == Fahrenheit then 675.22 else 0.0)
  {
    match (from, to)
    case (Celsius, Fahrenheit) => (x * 9.0 / 5.0) + 32.0
    case (Celsius, Kelvin) => x + 273.15
    case (Fahrenheit, Celsius) => (x - 32.0) * 5.0 / 9.0
    case (Fahrenheit, Kelvin) => (x - 32.0) * 5.0 / 9.0 + 273.15
    case (Kelvin, Celsius) => x - 273.15
    case (Kelvin, Fahrenheit) => (x - 32.0) * 9.0 / 5.0 + 273.15
  }

  /** `convert_temperature` on the three units: the identity on equal
      units, and otherwise the temperature read in `from` and written in
      `to` through Celsius, except that Kelvin -> Fahrenheit comes out
      675.22 degrees too high. */
  function Convert(value: real, from: TemperatureUnit, to: TemperatureUnit): (r: real)
    ensures from == to ==> r == value
    ensures r == FromCelsius(ToCelsius(value, from), to) + (if from == Kelvin && to == Fahrenheit then 675.22 else 0.0)
  {
    if from == to then
      CelsiusInverse(value, from);
      value
    else Formula(from, to, value)
  }

  /** `convert_temperature` on the names the option menus hand it: equal
      names return the value without consulting the table, whatever the name;
      distinct names must both be units, or the lookup fails. */
  function ConvertByName(value: real, from: string, to: string): (r: Result<real, TemperatureError>)
    ensures from == to ==> r == Ok(value)
    ensures from != to ==> (r.Ok? <==> Parse(from).Some? && Parse(to).Some?)
    ensures r.Err? ==> r.error == UnsupportedPair(from, to)
  {
    if from == to then Ok(value)
    else match (Parse(from), Parse(to))
      case (Some(f), Some(t)) => Ok(Formula(f, t, value))
      case _ => Err(UnsupportedPair(from, to))
  }

  /** On the names of the three units, ConvertByName is Convert. */
  lemma ConvertByNameOfUnits(value: real, from: TemperatureUnit, to: TemperatureUnit)
    ensures ConvertByName(value, Name(from), Name(to)) == Ok(Convert(value, from, to))
  {
    assert Parse(Name(from)) == Some(from);
    assert Parse(Name(to)) == Some(to);
  }

  lemma ConvertIdentity(value: real, u: TemperatureUnit)
    ensures Convert(value, u, u) == value
  {
  }

  /** Freezing and boiling points of water. */
  lemma FixedPoints()
    ensures Convert(0.0, Celsius, Fahrenheit) == 32.0
    ensures Convert(212.0, Fahrenheit, Celsius) == 100.0
  {
  }

  /** Celsius -> Fahrenheit -> Celsius and Celsius -> Kelvin -> Celsius (and
      back the other way) are identities as written. */
  lemma CelsiusRoundTrips(value: real)
    ensures Convert(Convert(value, Celsius, Fahrenheit), Fahrenheit, Celsius) == value
    ensures Convert(Convert(value, Fahrenheit, Celsius), Celsius, Fahrenheit) == value
    ensures Convert(Convert(value, Celsius, Kelvin), Kelvin, Celsius) == value
    ensures Convert(Convert(value, Kelvin, Celsius), Celsius, Kelvin) == value
  {
  }

  /** Fahrenheit -> Kelvin is Fahrenheit -> Celsius followed by Celsius -> Kelvin. */
  lemma FahrenheitToKelvinViaCelsius(value: real)
    ensures Convert(value, Fahrenheit, Kelvin)
         == Convert(Convert(value, Fahrenheit, Celsius), Celsius, Kelvin)
  {
  }

  /** As written, Kelvin -> Fahrenheit is not the inverse of Fahrenheit -> Kelvin:
      32 F is 273.15 K, but 273.15 K comes back as 707.22 F. Going F -> K -> F
      adds 675.22 to every value, and K -> F -> K never returns its input. */
  lemma KelvinToFahrenheitNotInverse(value: real)
    ensures Convert(32.0, Fahrenheit, Kelvin) == 273.15
    ensures Convert(273.15, Kelvin, Fahrenheit) == 707.22
    ensures Convert(Convert(value, Fahrenheit, Kelvin), Kelvin, Fahrenheit) == value + 675.22
    ensures Convert(Convert(value, Kelvin, Fahrenheit), Fahrenheit, Kelvin) != value
  {
  }

  /** Every other round trip of the as-written table holds exactly. */
  lemma RoundTripAsWritten(value: real, a: TemperatureUnit, b: TemperatureUnit)
    requires !(a == Fahrenheit && b == Kelvin) && !(a == Kelvin && b == Fahrenheit)
    ensures Convert(Convert(value, a, b), b, a) == value
  {
    if a != b {
      match (a, b)
      case (Celsius, Fahrenheit) => CelsiusRoundTrips(value);
      case (Celsius, Kelvin) => CelsiusRoundTrips(value);
      case (Fahrenheit, Celsius) => CelsiusRoundTrips(value);
      case (Kelvin, Celsius) => CelsiusRoundTrips(value);
    }
  }

  // ---------------------------------------------------------------------
  // The evidently intended table: Kelvin -> Fahrenheit through Celsius.

  /** Degrees Celsius of a temperature given in `u`. */
  function ToCelsius(x: real, u: TemperatureUnit): real
  {
    match u
    case Celsius => x
    case Fahrenheit => (x - 32.0) * 5.0 / 9.0
    case Kelvin => x - 273.15
  }

  /** The temperature `c` degrees Celsius, given in `u`. */
  function FromCelsius(c: real, u: TemperatureUnit): real
  {
    match u
    case Celsius => c
    case Fahrenheit => (c * 9.0 / 5.0) + 32.0
    case Kelvin => c + 273.15
  }

  lemma CelsiusInverse(x: real, u: TemperatureUnit)
    ensures ToCelsius(FromCelsius(x, u), u) == x
    ensures FromCelsius(ToCelsius(x, u), u) == x
  {
  }

  /** The table with Kelvin -> Fahrenheit corrected to `(x - 273.15) * 9/5 + 32`;
      the other five formulas are the program's. */
  function FormulaIntended(from: TemperatureUnit, to: TemperatureUnit, x: real): real
    requires from != to
  {
    if from == Kelvin && to == Fahrenheit then (x - 273.15) * 9.0 / 5.0 + 32.0
    else Formula(from, to, x)
  }

  function ConvertIntended(value: real, from: TemperatureUnit, to: TemperatureUnit): real
  {
    if from == to then value else FormulaIntended(from, to, value)
  }

  /** Every intended formula goes through Celsius, the reference scale. */
  lemma ConvertIntendedViaCelsius(value: real, from: TemperatureUnit, to: TemperatureUnit)
    ensures ConvertIntended(value, from, to) == FromCelsius(ToCelsius(value, from), to)
  {
  }

  /** The as-written table agrees with the intended one except on Kelvin -> Fahrenheit. */
  lemma ConvertAgreesWithIntended(value: real, from: TemperatureUnit, to: TemperatureUnit)
    ensures (from == Kelvin && to == Fahrenheit) || Convert(value, from, to) == ConvertIntended(value, from, to)
  {
  }

  /** With the correction, converting is path independent: a -> b -> c equals
      a -> c, so in particular every round trip is the identity. */
  lemma {:induction false} ConvertIntendedTransitive(value: real, a: TemperatureUnit, b: TemperatureUnit, c: TemperatureUnit)
    ensures ConvertIntended(ConvertIntended(value, a, b), b, c) == ConvertIntended(value, a, c)
    ensures ConvertIntended(ConvertIntended(value, a, b), b, a) == value
  {
    ConvertIntendedViaCelsius(value, a, b);
    ConvertIntendedViaCelsius(ConvertIntended(value, a, b), b, c);
    ConvertIntendedViaCelsius(ConvertIntended(value, a, b), b, a);
    ConvertIntendedViaCelsius(value, a, c);
    CelsiusInverse(ToCelsius(value, a), b);
    CelsiusInverse(value, a);
  }
}
