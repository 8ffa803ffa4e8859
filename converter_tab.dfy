/** A converter tab (Area, Weight, Length or Temperature): pressing Convert
    reads the entry with `float()`, converts between the two selected units
    and writes the value with four decimals into the result entry, or
    "Invalid Input" when `float()` raises `ValueError`. Only `ValueError` is
    caught: a failed unit lookup (`KeyError`) escapes the handler and leaves
    the result entry as it was.

    `float()` and the `:.4f` formatting are parameters, collected in `Io`. */
module ConverterTab {
  import opened Wrappers
  import LinearUnits
  import Temperature

  datatype Tab = LinearTab(category: LinearUnits.Category) | TemperatureTab

  datatype Io = Io(
    parseFloat: string -> Option<real>,   // float(text); None is ValueError
    format4: real -> string               // f"{result:.4f}"
  )

  const InvalidInputText: string := "Invalid Input"

  /** The effect of one press of Convert: a new text for the result entry,
      or an exception that escapes the handler. */
  datatype Click = Shows(text: string) | Escapes

  /** The names the two option menus offer on a tab. */
  function MenuUnits(tab: Tab): set<string>
  {
    match tab
    case LinearTab(c) => LinearUnits.Factors(c).Keys
    case TemperatureTab => {"Celsius", "Fahrenheit", "Kelvin"}
  }

  /** The conversion proper, on a parsed value; `None` is a `KeyError`.
      A linear tab fails exactly when a name is not in its table, and keeps
      the measured quantity; the Temperature tab fails exactly on distinct
      names that are not both unit names, and returns equal-named values
      unchanged. */
  function ConvertValue(tab: Tab, value: real, from: string, to: string): (r: Option<real>)
    ensures tab.LinearTab? ==>
      (r.Some? <==> from in LinearUnits.Factors(tab.category) && to in LinearUnits.Factors(tab.category))
    ensures tab.LinearTab? && r.Some? ==>
      r.value * LinearUnits.Factors(tab.category)[to] == value * LinearUnits.Factors(tab.category)[from]
    ensures tab.TemperatureTab? ==>
      (r.Some? <==> from == to || (from in MenuUnits(tab) && to in MenuUnits(tab)))
    ensures tab.TemperatureTab? && from == to ==> r == Some(value)
  {
    match tab
    case LinearTab(c) =>
      (match LinearUnits.Convert(c, value, from, to)
       case Ok(r) => Some(r)
       case Err(_) => None)
    case TemperatureTab =>
      (match Temperature.ConvertByName(value, from, to)
       case Ok(r) => Some(r)
       case Err(_) => None)
  }

  /** The `convert` handler of a tab. The input is parsed before any unit is
      looked up, so an unparsable input shows "Invalid Input" even when the
      units are unknown. */
  function ConvertClick(io: Io, tab: Tab, input: string, from: string, to: string): (c: Click)
    ensures io.parseFloat(input).None? ==> c == Shows(InvalidInputText)
    ensures c.Escapes? <==> io.parseFloat(input).Some? && ConvertValue(tab, io.parseFloat(input).value, from, to).None?
  {
    match io.parseFloat(input)
    case None => Shows(InvalidInputText)
    case Some(v) =>
      match ConvertValue(tab, v, from, to)
      case Some(r) => Shows(io.format4(r))
      case None => Escapes
  }

  /** On a linear tab, units picked from the menus are always found: Convert
      shows "Invalid Input" or the formatted value that measures the same
      quantity in the target unit, and never lets an exception escape. */
  lemma LinearMenuUnitsShow(io: Io, c: LinearUnits.Category, input: string, from: string, to: string)
    requires from in LinearUnits.Factors(c) && to in LinearUnits.Factors(c)
    ensures ConvertClick(io, LinearTab(c), input, from, to).Shows?
    ensures io.parseFloat(input).Some? ==>
      exists r :: ConvertClick(io, LinearTab(c), input, from, to) == Shows(io.format4(r))
        && r * LinearUnits.Factors(c)[to] == io.parseFloat(input).value * LinearUnits.Factors(c)[from]
  {
    if io.parseFloat(input).Some? {
      var r := LinearUnits.Convert(c, io.parseFloat(input).value, from, to);
      assert ConvertClick(io, LinearTab(c), input, from, to) == Shows(io.format4(r.value));
    }
  }

  /** On the Temperature tab, the three menu names never make Convert escape. */
  lemma TemperatureMenuUnitsShow(io: Io, input: string, from: string, to: string)
    requires from in MenuUnits(TemperatureTab) && to in MenuUnits(TemperatureTab)
    ensures ConvertClick(io, TemperatureTab, input, from, to).Shows?
  {
    assert Temperature.Parse(from).Some? && Temperature.Parse(to).Some?;
  }

  /** A name outside the menus, with a parsable input, makes the lookup fail
      and the exception escape; on the Temperature tab only when the two
      names differ, since equal names return the value without a lookup. */
  lemma UnknownUnitEscapes(io: Io, tab: Tab, input: string, from: string, to: string)
    requires io.parseFloat(input).Some?
    requires tab.TemperatureTab? ==> from != to
    requires from !in MenuUnits(tab) || to !in MenuUnits(tab)
    ensures ConvertClick(io, tab, input, from, to) == Escapes
  {
    match tab
    case LinearTab(c) =>
    case TemperatureTab =>
      assert Temperature.Parse(from).None? || Temperature.Parse(to).None?;
  }

  /** On the Temperature tab equal names show the input value itself,
      whatever the name. */
  lemma TemperatureSameUnitShowsInput(io: Io, input: string, name: string)
    requires io.parseFloat(input).Some?
    ensures ConvertClick(io, TemperatureTab, input, name, name) == Shows(io.format4(io.parseFloat(input).value))
  {
  }

  /** On the Temperature tab the shown value is `convert_temperature` of the parsed input. */
  lemma TemperatureTabShows(io: Io, input: string, from: Temperature.TemperatureUnit, to: Temperature.TemperatureUnit)
    requires io.parseFloat(input).Some?
    ensures ConvertClick(io, TemperatureTab, input, Temperature.Name(from), Temperature.Name(to))
         == Shows(io.format4(Temperature.Convert(io.parseFloat(input).value, from, to)))
  {
    Temperature.ConvertByNameOfUnits(io.parseFloat(input).value, from, to);
  }

  /** One converter tab: the tab it converts for and the text of its result entry. */
  class ConverterFrame {
    const tab: Tab
    var result: string

    /** The result entry starts empty (it shows only a placeholder). */
    constructor (tab: Tab)
      ensures this.tab == tab && result == ""
    {
      this.tab := tab;
      result := "";
    }

    /** Pressing Convert. `escaped` reports an exception leaving the handler,
        in which case the result entry is untouched. */
    method Convert(io: Io, input: string, from: string, to: string) returns (escaped: bool)
      modifies this
      ensures escaped == ConvertClick(io, tab, input, from, to).Escapes?
      ensures escaped ==> result == old(result)
      ensures !escaped ==> result == ConvertClick(io, tab, input, from, to).text
      ensures io.parseFloat(input).None? ==> result == InvalidInputText
    {
      escaped := false;
      match io.parseFloat(input)
      case None =>
        result := InvalidInputText;
      case Some(value) =>
        var converted := ConvertValue(tab, value, from, to);
        match converted
        case None =>
          escaped := true;
        case Some(r) =>
          result := io.format4(r);
    }
  }
}
