# Unit converter: conversion and calculator core

A model of the logic inside `unit_converter.py`, a desktop unit converter
with a small scientific calculator. Three pieces carry behaviour:

- **Linear conversion** (Area, Weight, Length tabs). Each category maps a
  unit name to its size in a base unit (Square Meter, Kilogram, Meter), and
  a value is converted as `value * factor[from] / factor[to]`
  (`units.dfy`, module `LinearUnits`). The tables are `map<string, real>`
  constants holding the program's decimal literals exactly.
- **Temperature conversion** (`temperature.dfy`, module `Temperature`).
  Equal unit names return the value unchanged; otherwise one of six
  pairwise formulas is looked up by the ordered pair of names, and any
  other pair is a failed lookup. The formulas are written as the program
  has them, including its Kelvin -> Fahrenheit formula (see Findings).
- **Calculator** (`calculator.dfy`, module `Calculator`, with the string
  operations in `text.dfy`, module `Text`). `evaluate_expression` removes
  spaces, then picks a branch by prefix in the fixed order `sin`, `cos`,
  `tan`, `log`, `exp`, `√`, then "contains `^`", else Python's `eval`. The
  display label is a class `Display` with one `string` field; its methods
  append a button's label, clear on "C", and on "=" replace the text by the
  result, or by "Error" when evaluation raises.
- **Converter tab handler** (`converter_tab.dfy`, module `ConverterTab`):
  the Convert button parses the entry with `float()`, converts, and writes
  the four-decimal result or "Invalid Input" into the result entry, a class
  `ConverterFrame` with one `string` field.

Library calls whose numerics are not modelled are parameters: `float()`,
`math.radians/sin/cos/tan/log10/exp/sqrt/pow`, `eval`, `str` and the
`:.4f` formatting are fields of the `Calculator.Library` and
`ConverterTab.Io` datatypes, total functions into `Option` where the
Python call can raise (`None` is the exception).

All arithmetic is over `real`. Identity, round trip and transitivity of the
linear conversion hold exactly here; in the program's binary floating point
they hold only up to rounding.

Three behaviours of the code are worth stating outright: two or more `^`
in an expression raise, because `split("^")` must unpack into exactly a
base and an exponent; an expression with no function prefix and no `^` is
handed to Python's `eval`, which accepts any Python expression; and an
unknown unit is a `KeyError` that escapes the Convert handler, since only
`ValueError` is caught there.

## Model

| member | source | states |
|---|---|---|
| `LinearUnits.FactorsPositive` | unit_converter.py:137-163 | every scale factor in the Area, Weight and Length tables is strictly positive, so the division is always defined |
| `LinearUnits.BaseUnitUnique` | unit_converter.py:137-163 | in each category the base unit (Square Meter, Kilogram, Meter) is in the table with factor 1, and no other unit has factor 1 |
| `LinearUnits.Convert` | unit_converter.py:115 | succeeds exactly when both names are in the category's table; an unknown source name is reported before an unknown target name; a result measures the same quantity (result * factor[to] == value * factor[from]) |
| `LinearUnits.Ratio` | unit_converter.py:115 | the formula `value * fa / fb` re-expresses a quantity: the result times the target factor is the value times the source factor |
| `LinearUnits.ConvertIdentity` | unit_converter.py:115 | converting a unit to itself returns the input value |
| `LinearUnits.ConvertToBase` | unit_converter.py:115 | converting to the base unit multiplies by the source unit's factor |
| `LinearUnits.ConvertRoundTrip` | unit_converter.py:115 | a -> b followed by b -> a returns the original value |
| `LinearUnits.ConvertTransitive` | unit_converter.py:115 | a -> b followed by b -> c equals a -> c |
| `LinearUnits.MileInMeters` | unit_converter.py:153-161 | 1 Mile is 1609.34 Meter |
| `LinearUnits.ThousandGramsInKilograms` | unit_converter.py:146-151 | 1000 Gram is 1 Kilogram |
| `Temperature.Parse` | unit_converter.py:126-133 | a name denotes a unit exactly when it is that unit's menu name |
| `Temperature.Formula` | unit_converter.py:126-133 | each of the six formulas reads the temperature in the source unit and writes it in the target unit through Celsius, except Kelvin -> Fahrenheit, which comes out exactly 675.22 degrees higher |
| `Temperature.Convert` | unit_converter.py:125-134 | equal units return the value unchanged; distinct units apply the pair's formula, with the same Celsius reading and the same 675.22 offset on Kelvin -> Fahrenheit |
| `Temperature.ConvertIdentity` | unit_converter.py:134 | converting a temperature unit to itself returns the value |
| `Temperature.ConvertByName` | unit_converter.py:125-134 | equal names return the value unchanged whatever the name, without consulting the table; distinct names succeed exactly when both are Celsius, Fahrenheit or Kelvin, and otherwise fail with that pair |
| `Temperature.ConvertByNameOfUnits` | unit_converter.py:125-134 | on the three unit names, the name-keyed table is the pairwise formula (identity on equal units) |
| `Temperature.FixedPoints` | unit_converter.py:127-129 | 0 Celsius is 32 Fahrenheit and 212 Fahrenheit is 100 Celsius |
| `Temperature.CelsiusRoundTrips` | unit_converter.py:127-131 | Celsius -> Fahrenheit -> Celsius, Celsius -> Kelvin -> Celsius and their reverses are identities |
| `Temperature.FahrenheitToKelvinViaCelsius` | unit_converter.py:128-130 | Fahrenheit -> Kelvin equals Fahrenheit -> Celsius followed by Celsius -> Kelvin |
| `Temperature.KelvinToFahrenheitNotInverse` | unit_converter.py:130-132 | as written, 32 F -> 273.15 K but 273.15 K -> 707.22 F; F -> K -> F adds 675.22 to every value and K -> F -> K never returns its input |
| `Temperature.RoundTripAsWritten` | unit_converter.py:126-134 | every round trip other than between Fahrenheit and Kelvin returns its input |
| `Temperature.CelsiusInverse` | unit_converter.py:127-131 | reading a temperature in Celsius and writing it back in a unit are mutually inverse |
| `Temperature.ConvertIntendedViaCelsius` | unit_converter.py:127-132 | with Kelvin -> Fahrenheit corrected, every formula is "to Celsius, then from Celsius" |
| `Temperature.ConvertAgreesWithIntended` | unit_converter.py:127-132 | the program's table agrees with the corrected one on every pair except Kelvin -> Fahrenheit |
| `Temperature.ConvertIntendedTransitive` | unit_converter.py:132 | with the correction, conversion is path independent (a -> b -> c equals a -> c) and every round trip is the identity |
| `Text.RemoveSpaces` | unit_converter.py:221 | the result has no spaces and holds every other character of the input as often as the input does |
| `Text.RemoveSpacesAppend` | unit_converter.py:221 | removing spaces distributes over concatenation |
| `Text.RemoveSpacesNoSpaces` | unit_converter.py:221 | a string without spaces is unchanged |
| `Text.RemoveSpacesIdempotent` | unit_converter.py:221 | removing spaces twice is removing them once |
| `Text.Split` | unit_converter.py:235 | `split("^")` yields one more piece than there are `^`, no piece contains `^`, and joining the pieces with `^` gives the input back |
| `Text.SplitUnique` | unit_converter.py:235 | any `^`-free pieces that join to the input are exactly the split |
| `Calculator.Dispatch` | unit_converter.py:222-238 | each function branch is taken exactly when its prefix matches (the six prefixes exclude each other); the `^` branch exactly when no prefix matches and `^` occurs; `eval` otherwise; the argument is the rest after the prefix, so the branch renders back to the expression |
| `Calculator.Evaluate` | unit_converter.py:220-238 | an expression that, spaces removed, has no function prefix and no `^` evaluates to `eval` of the space-free text; the other branches are stated row by row below |
| `Calculator.StripAfterPrefix` | unit_converter.py:221-222 | removing spaces from a space-free prefix followed by an argument keeps the prefix and strips the argument |
| `Calculator.EvaluateIgnoresSpaces` | unit_converter.py:221 | spaces anywhere in the expression do not change its value or failure |
| `Calculator.SineArgument` | unit_converter.py:222-223 | "sin" followed by a text is the sine of `radians(float(text without spaces))` |
| `Calculator.CosineArgument` | unit_converter.py:224-225 | "cos" followed by a text is the cosine of `radians(float(text without spaces))` |
| `Calculator.TangentArgument` | unit_converter.py:226-227 | "tan" followed by a text is the tangent of `radians(float(text without spaces))` |
| `Calculator.LogArgument` | unit_converter.py:228-229 | "log" followed by a text is `log10(float(text without spaces))` |
| `Calculator.ExpArgument` | unit_converter.py:230-231 | "exp" followed by a text is `exp(float(text without spaces))` |
| `Calculator.RootArgument` | unit_converter.py:232-233 | the root sign followed by a text is `sqrt(float(text without spaces))` |
| `Calculator.EvalOnlyForGeneric` | unit_converter.py:234-238 | `eval` is not consulted for an expression with a function prefix or a `^` |
| `Calculator.SeveralCaretsFail` | unit_converter.py:234-236 | with two or more `^` and no function prefix, the unpacking raises whatever the operands |
| `Calculator.OneCaretIsPower` | unit_converter.py:234-236 | with exactly one `^`, the result is `pow(float(base), float(exponent))` of the texts on either side |
| `Calculator.TwoCaretsFail` | unit_converter.py:234-235 | "2^3^4" raises |
| `Calculator.Press` | unit_converter.py:207-218 | one button press: "=" shows `str` of the value or "Error", "C" empties the text, any other button appends its label |
| `Calculator.Run` | unit_converter.py:207-218 | after a sequence of presses ending in "C" the text is empty; ending in "=" it is "Error" or `str` of some value |
| `Calculator.TypingAppends` | unit_converter.py:202-216 | buttons other than "=" and "C" leave the old text followed by their labels |
| `Calculator.ClearForgets` | unit_converter.py:213-214 | after "C" the display is as if nothing had been pressed before |
| `Calculator.TypeThenEquals` | unit_converter.py:207-218 | typing an expression on an empty display and pressing "=" shows `str` of its value, or "Error" when it raises |
| `Calculator.TwoCaretsShowError` | unit_converter.py:207-218 | pressing "2", "^", "3", "^", "4", "=" shows "Error" |
| `Calculator.Display.constructor` | unit_converter.py:174 | the display starts empty |
| `Calculator.Display.AppendToDisplay` | unit_converter.py:202-205 | the new text is the old text followed by the button's label |
| `Calculator.Display.OnButtonClick` | unit_converter.py:207-218 | "C" sets the text to ""; "=" sets it to `str` of the result or "Error" if evaluation raises; any other button appends |
| `ConverterTab.ConvertClick` | unit_converter.py:109-120 | an input `float()` rejects shows "Invalid Input" whatever the units; an exception escapes exactly when the input parses and a unit lookup fails |
| `ConverterTab.ConvertValue` | unit_converter.py:112-115 | a linear tab fails exactly when a name is not in its table and otherwise keeps the measured quantity; the Temperature tab fails exactly on distinct names that are not both menu names, and returns equal-named values unchanged |
| `ConverterTab.LinearMenuUnitsShow` | unit_converter.py:109-120 | with menu units, a linear tab never lets an exception escape and shows the formatted value measuring the same quantity in the target unit |
| `ConverterTab.TemperatureMenuUnitsShow` | unit_converter.py:100-113 | the Temperature tab's three menu names never make Convert escape |
| `ConverterTab.UnknownUnitEscapes` | unit_converter.py:113-118 | a parsable input with a unit outside the menus escapes the handler (on the Temperature tab only for distinct names) |
| `ConverterTab.TemperatureSameUnitShowsInput` | unit_converter.py:113-117 | on the Temperature tab equal names show the input value whatever the name |
| `ConverterTab.TemperatureTabShows` | unit_converter.py:112-117 | on the Temperature tab the shown value is the formatted `convert_temperature` of the parsed input |
| `ConverterTab.ConverterFrame.constructor` | unit_converter.py:106 | the result entry starts empty |
| `ConverterTab.ConverterFrame.Convert` | unit_converter.py:109-120 | the result entry becomes "Invalid Input" or the formatted result; when a lookup exception escapes it is left as it was |

## Left out

- Widget construction, layout, tabs, option menus, the welcome tab and the exit button: presentation only.
- Sound playback (pygame): audio output.
- The light/dark theme toggle: it flips a flag only to hand it to the UI library.
- Floating point: values are exact reals, so rounding, infinities and NaN (which `float()` accepts as "inf" and "nan") are not modelled; the conversion laws hold exactly here and only up to rounding in the program.
- `float()` parsing, the `:.4f` and `str` formatting, the `math` functions and `eval` are parameters with no body of their own; the model states which one is called and on what text or value.
- Calculator.Evaluate: `eval` may return any Python object (an `int`, a tuple, a string), which `str` then displays; the model narrows its result to a number.
- Calculator.Display.OnButtonClick: an exception raised by sound playback inside `append_to_display` would also end in "Error"; sound is not modelled, so appending never fails here.
- ConverterTab.ConverterFrame.Convert: models only the entry's text; the handler's trailing sound call is not modelled.

## Findings

| source | as written | input that shows it | evidently intended | confidence | as-written member | corrected member |
|---|---|---|---|---|---|---|
| unit_converter.py:132 | Kelvin -> Fahrenheit is `(x - 32) * 9/5 + 273.15` | 32 F converts to 273.15 K, and 273.15 K converts back to 707.22 F instead of 32 F | `(x - 273.15) * 9/5 + 32`, the inverse of Fahrenheit -> Kelvin | high; not executed | `Temperature.KelvinToFahrenheitNotInverse` | `Temperature.ConvertIntendedTransitive` |

The Temperature tab model keeps the program's formula, since it
describes what the program displays; `Temperature.ConvertIntended` is the
corrected table, proved path independent.
