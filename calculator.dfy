/** The Calculator tab: `evaluate_expression`, which strips spaces and picks
    a library function by the expression's prefix, and the display label,
    whose text the keypad buttons append to, clear or replace by a result.

    The numeric library calls (`float`, `math.radians`, `math.sin`, ...,
    `math.pow`), Python's `eval` and `str` are not modelled: they are
    parameters, collected in a `Library` value. Each call that can raise is
    a function into `Option`, with `None` standing for the exception. */
module Calculator {
  import opened Wrappers
  import opened Text

  datatype Library = Library(
    parseFloat: string -> Option<real>,   // float(text)
    radians: real -> real,                // math.radians
    sin: real -> Option<real>,            // math.sin
    cos: real -> Option<real>,            // math.cos
    tan: real -> Option<real>,            // math.tan
    log10: real -> Option<real>,          // math.log10
    exp: real -> Option<real>,            // math.exp
    sqrt: real -> Option<real>,           // math.sqrt
    pow: (real, real) -> Option<real>,    // math.pow
    eval: string -> Option<real>,         // eval(expression)
    show: real -> string                  // str(result)
  )

  /** The square-root sign, U+221A, a single code point. */
  const RootSign: char := '\U{221A}'

  /** The branch `evaluate_expression` takes, with the text it hands on. */
  datatype Command =
    | Sin(arg: string)
    | Cos(arg: string)
    | Tan(arg: string)
    | Log(arg: string)
    | Exp(arg: string)
    | Root(arg: string)
    | Power(pieces: seq<string>)
    | Generic(expression: string)

  predicate HasFunctionPrefix(e: string)
  {
    StartsWith(e, "sin") || StartsWith(e, "cos") || StartsWith(e, "tan")
    || StartsWith(e, "log") || StartsWith(e, "exp") || StartsWith(e, [RootSign])
  }

  /** The text a command was read from. */
  function Render(cmd: Command): string
  {
    match cmd
    case Sin(a) => "sin" + a
    case Cos(a) => "cos" + a
    case Tan(a) => "tan" + a
    case Log(a) => "log" + a
    case Exp(a) => "exp" + a
    case Root(a) => [RootSign] + a
    case Power(pieces) => if |pieces| >= 1 then Join(pieces, '^') else ""
    case Generic(e) => e
  }

  /** The prefix tests of `evaluate_expression`, in their order, on an
      expression whose spaces are already removed. No two of the six
      prefixes can both match, so each branch is taken exactly when its own
      test holds; `^` is looked for only when no prefix matches. The
      argument is what follows the prefix, and the command renders back to
      the expression it was read from. */
  function Dispatch(e: string): (cmd: Command)
    ensures Render(cmd) == e
    ensures cmd.Sin? <==> StartsWith(e, "sin")
    ensures cmd.Cos? <==> StartsWith(e, "cos")
    ensures cmd.Tan? <==> StartsWith(e, "tan")
    ensures cmd.Log? <==> StartsWith(e, "log")
    ensures cmd.Exp? <==> StartsWith(e, "exp")
    ensures cmd.Root? <==> StartsWith(e, [RootSign])
    ensures cmd.Power? <==> !HasFunctionPrefix(e) && '^' in e
    ensures cmd.Generic? <==> !HasFunctionPrefix(e) && '^' !in e
    ensures cmd.Power? ==> |cmd.pieces| == Count(e, '^') + 1
  {
    if StartsWith(e, "sin") then Sin(e[3..])
    else if StartsWith(e, "cos") then Cos(e[3..])
    else if StartsWith(e, "tan") then Tan(e[3..])
    else if StartsWith(e, "log") then Log(e[3..])
    else if StartsWith(e, "exp") then Exp(e[3..])
    else if StartsWith(e, [RootSign]) then Root(e[1..])
    else if '^' in e then Power(Split(e, '^'))
    else Generic(e)
  }

  /** `expression.replace(" ", "")` followed by the dispatch. */
  function Classify(expression: string): Command
  {
    Dispatch(RemoveSpaces(expression))
  }

  /** Applies a library function to a parsed argument; a failed parse or a
      failing call is an exception. */
  function Apply(f: real -> Option<real>, x: Option<real>): Option<real>
  {
    match x
    case None => None
    case Some(v) => f(v)
  }

  /** `math.pow(float(base), float(exponent))` */
  function PowerOf(lib: Library, base: string, exponent: string): Option<real>
  {
    match (lib.parseFloat(base), lib.parseFloat(exponent))
    case (Some(b), Some(x)) => lib.pow(b, x)
    case _ => None
  }

  /** `evaluate_expression`: the value, or `None` when it raises. An
      expression that, spaces removed, has no function prefix and no `^` is
      handed to `eval` with its spaces removed; the other branches are
      stated by the lemmas below. */
  function Evaluate(lib: Library, expression: string): (r: Option<real>)
    ensures !HasFunctionPrefix(RemoveSpaces(expression)) && '^' !in RemoveSpaces(expression)
            ==> r == lib.eval(RemoveSpaces(expression))
  {
    match Classify(expression)
    case Sin(a) => Apply(lib.sin, Apply(x => Some(lib.radians(x)), lib.parseFloat(a)))
    case Cos(a) => Apply(lib.cos, Apply(x => Some(lib.radians(x)), lib.parseFloat(a)))
    case Tan(a) => Apply(lib.tan, Apply(x => Some(lib.radians(x)), lib.parseFloat(a)))
    case Log(a) => Apply(lib.log10, lib.parseFloat(a))
    case Exp(a) => Apply(lib.exp, lib.parseFloat(a))
    case Root(a) => Apply(lib.sqrt, lib.parseFloat(a))
    case Power(pieces) =>
      // `base, exponent = expression.split("^")` raises unless there are two pieces
      if |pieces| != 2 then None
      else PowerOf(lib, pieces[0], pieces[1])
    case Generic(e) => lib.eval(e)
  }

  /** Spaces anywhere in the expression make no difference. */
  lemma EvaluateIgnoresSpaces(lib: Library, expression: string)
    ensures Evaluate(lib, expression) == Evaluate(lib, RemoveSpaces(expression))
  {
    RemoveSpacesIdempotent(expression);
  }

  /** Removing spaces from a space-free prefix followed by an argument
      leaves the prefix and removes the argument's spaces. */
  lemma StripAfterPrefix(prefix: string, arg: string)
    requires ' ' !in prefix
    ensures RemoveSpaces(prefix + arg) == prefix + RemoveSpaces(arg)
    ensures StartsWith(prefix + RemoveSpaces(arg), prefix)
    ensures (prefix + RemoveSpaces(arg))[|prefix|..] == RemoveSpaces(arg)
  {
    RemoveSpacesAppend(prefix, arg);
    RemoveSpacesNoSpaces(prefix);
    var e := prefix + RemoveSpaces(arg);
    assert e[..|prefix|] == prefix;
  }

  /** The argument of a function button is everything after its name, with
      spaces removed: "sin 9 0" is the sine of `float("90")` degrees. */
  lemma SineArgument(lib: Library, arg: string)
    ensures Evaluate(lib, "sin" + arg)
         == Apply(lib.sin, Apply(x => Some(lib.radians(x)), lib.parseFloat(RemoveSpaces(arg))))
  {
    StripAfterPrefix("sin", arg);
  }

  /** "cos" followed by a text is the cosine of that many degrees. */
  lemma CosineArgument(lib: Library, arg: string)
    ensures Evaluate(lib, "cos" + arg)
         == Apply(lib.cos, Apply(x => Some(lib.radians(x)), lib.parseFloat(RemoveSpaces(arg))))
  {
    StripAfterPrefix("cos", arg);
  }

  /** "tan" followed by a text is the tangent of that many degrees. */
  lemma TangentArgument(lib: Library, arg: string)
    ensures Evaluate(lib, "tan" + arg)
         == Apply(lib.tan, Apply(x => Some(lib.radians(x)), lib.parseFloat(RemoveSpaces(arg))))
  {
    StripAfterPrefix("tan", arg);
  }

  /** "log" followed by a text is the base-10 logarithm of its value; the
      argument is not converted from degrees. */
  lemma LogArgument(lib: Library, arg: string)
    ensures Evaluate(lib, "log" + arg) == Apply(lib.log10, lib.parseFloat(RemoveSpaces(arg)))
  {
    StripAfterPrefix("log", arg);
  }

  /** "exp" followed by a text is e to the power of its value. */
  lemma ExpArgument(lib: Library, arg: string)
    ensures Evaluate(lib, "exp" + arg) == Apply(lib.exp, lib.parseFloat(RemoveSpaces(arg)))
  {
    StripAfterPrefix("exp", arg);
  }

  /** After the one-character root sign the rest is the argument: "√ 16" is
      `math.sqrt(float("16"))`. */
  lemma RootArgument(lib: Library, arg: string)
    ensures Evaluate(lib, [RootSign] + arg) == Apply(lib.sqrt, lib.parseFloat(RemoveSpaces(arg)))
  {
    StripAfterPrefix([RootSign], arg);
  }

  /** Python's `eval` is reached only for an expression with no function
      prefix and no `^`: changing it changes nothing else. */
  lemma EvalOnlyForGeneric(lib: Library, other: string -> Option<real>, expression: string)
    requires HasFunctionPrefix(RemoveSpaces(expression)) || '^' in RemoveSpaces(expression)
    ensures Evaluate(lib.(eval := other), expression) == Evaluate(lib, expression)
  {
  }

  /** With two or more `^` (and no function prefix) the unpacking into base
      and exponent raises, whatever the operands are. */
  lemma SeveralCaretsFail(lib: Library, expression: string)
    requires !HasFunctionPrefix(RemoveSpaces(expression))
    requires Count(RemoveSpaces(expression), '^') >= 2
    ensures Evaluate(lib, expression) == None
  {
  }

  /** With exactly one `^`, the operands are the texts on either side of it
      (spaces removed), and the value is `math.pow` of the two floats. */
  lemma {:induction false} OneCaretIsPower(lib: Library, base: string, exponent: string)
    requires '^' !in base && '^' !in exponent
    requires ' ' !in base && ' ' !in exponent
    requires !HasFunctionPrefix(base + "^" + exponent)
    ensures Evaluate(lib, base + "^" + exponent) == PowerOf(lib, base, exponent)
  {
    var e := base + "^" + exponent;
    assert ' ' !in e;
    RemoveSpacesNoSpaces(e);
    assert '^' in e by { assert e[|base|] == '^'; }
    var parts := [base, exponent];
    assert Join(parts, '^') == e by { assert parts[1..] == [exponent]; }
    SplitUnique(e, '^', parts);
  }

  // ---------------------------------------------------------------------
  // The display label.

  const ErrorText: string := "Error"

  /** What "=" puts on the display: `str(result)`, or "Error" for an exception. */
  function Shown(lib: Library, result: Option<real>): string
  {
    match result
    case Some(v) => lib.show(v)
    case None => ErrorText
  }

  /** The display text after one button press, `on_button_click`:
      "=" replaces the text by the value of evaluating it, or by "Error" when
      that raises; "C" clears it; every other button appends its label. */
  function Press(lib: Library, display: string, token: string): (r: string)
    ensures token == "=" ==> r == Shown(lib, Evaluate(lib, display))
    ensures token == "C" ==> r == ""
    ensures token != "=" && token != "C" ==> r == display + token
  {
    if token == "=" then Shown(lib, Evaluate(lib, display))
    else if token == "C" then ""
    else display + token
  }

  /** The display after a sequence of presses. After a final "C" it is
      empty; after a final "=" it shows a value or "Error". */
  function Run(lib: Library, display: string, tokens: seq<string>): (r: string)
    ensures |tokens| > 0 && tokens[|tokens| - 1] == "C" ==> r == ""
    ensures |tokens| > 0 && tokens[|tokens| - 1] == "=" ==> r == ErrorText || exists v :: r == lib.show(v)
    decreases |tokens|
  {
    if tokens == [] then display
    else Run(lib, Press(lib, display, tokens[0]), tokens[1..])
  }

  /** The labels of a sequence of buttons, concatenated. */
  function Concat(tokens: seq<string>): string
  {
    if tokens == [] then "" else tokens[0] + Concat(tokens[1..])
  }

  lemma {:induction false} RunAppend(lib: Library, display: string, ts: seq<string>, us: seq<string>)
    ensures Run(lib, display, ts + us) == Run(lib, Run(lib, display, ts), us)
    decreases |ts|
  {
    if ts != [] {
      assert (ts + us)[0] == ts[0] && (ts + us)[1..] == ts[1..] + us;
      RunAppend(lib, Press(lib, display, ts[0]), ts[1..], us);
    } else {
      assert ts + us == us;
    }
  }

  /** Buttons other than "=" and "C" only accumulate: the display becomes the
      old text followed by their labels. */
  lemma {:induction false} TypingAppends(lib: Library, display: string, tokens: seq<string>)
    requires forall i :: 0 <= i < |tokens| ==> tokens[i] != "=" && tokens[i] != "C"
    ensures Run(lib, display, tokens) == display + Concat(tokens)
    decreases |tokens|
  {
    if tokens != [] {
      TypingAppends(lib, display + tokens[0], tokens[1..]);
    }
  }

  /** "C" forgets everything pressed before it. */
  lemma ClearForgets(lib: Library, display: string, ts: seq<string>, us: seq<string>)
    ensures Run(lib, display, ts + ["C"] + us) == Run(lib, "", us)
  {
    RunAppend(lib, display, ts + ["C"], us);
    RunAppend(lib, display, ts, ["C"]);
  }

  /** Typing an expression on a cleared display and pressing "=" shows its
      value, or "Error" when evaluating it raises. */
  lemma TypeThenEquals(lib: Library, tokens: seq<string>)
    requires forall i :: 0 <= i < |tokens| ==> tokens[i] != "=" && tokens[i] != "C"
    ensures Run(lib, "", tokens + ["="]) == Shown(lib, Evaluate(lib, Concat(tokens)))
  {
    RunAppend(lib, "", tokens, ["="]);
    TypingAppends(lib, "", tokens);
    assert Run(lib, "", tokens) == Concat(tokens);
    assert Run(lib, Concat(tokens), ["="]) == Run(lib, Press(lib, Concat(tokens), "="), []);
  }

  /** "2^3^4" has two `^`, so evaluating it raises whatever the library computes. */
  lemma TwoCaretsFail(lib: Library, e: string)
    requires e == "2^3^4"
    ensures Evaluate(lib, e) == None
  {
    assert ' ' !in e;
    RemoveSpacesNoSpaces(e);
    assert Count(e, '^') == 2 by {
      assert Count(e[4..], '^') == 0 by { assert e[4..] == "4"; }
      assert Count(e[3..], '^') == 1 by { assert e[3] == '^' && e[3..][1..] == e[4..]; }
      assert Count(e[2..], '^') == 1 by { assert e[2] == '3' && e[2..][1..] == e[3..]; }
      assert Count(e[1..], '^') == 2 by { assert e[1] == '^' && e[1..][1..] == e[2..]; }
      assert e[0] == '2';
    }
    assert !HasFunctionPrefix(e) by { assert e[0] == '2'; }
    SeveralCaretsFail(lib, e);
  }

  /** Pressing "2 ^ 3 ^ 4 =" on a cleared display shows "Error". */
  lemma TwoCaretsShowError(lib: Library, presses: seq<string>)
    requires presses == ["2", "^", "3", "^", "4", "="]
    ensures Run(lib, "", presses) == ErrorText
  {
    var typed := presses[..5];
    assert Concat(typed) == "2^3^4" by {
      assert typed == ["2", "^", "3", "^", "4"];
      assert Concat(typed[4..]) == "4";
      assert Concat(typed[3..]) == "^4";
      assert Concat(typed[2..]) == "3^4";
      assert Concat(typed[1..]) == "^3^4";
    }
    assert typed + ["="] == presses;
    TypeThenEquals(lib, typed);
    TwoCaretsFail(lib, Concat(typed));
  }

  /** The calculator's display label; `text` is the label's text. */
  class Display {
    var text: string

    /** The label starts empty. */
    constructor ()
      ensures text == ""
    {
      text := "";
    }

    /** `append_to_display`: the label's text followed by the button's label. */
    method AppendToDisplay(value: string)
      modifies this
      ensures text == old(text) + value
    {
      text := text + value;
    }

    /** `on_button_click`. An exception raised by `evaluate_expression`
        ends in the text "Error". */
    method OnButtonClick(lib: Library, value: string)
      modifies this
      ensures value == "=" ==> text == Shown(lib, Evaluate(lib, old(text)))
      ensures value == "C" ==> text == ""
      ensures value != "=" && value != "C" ==> text == old(text) + value
      ensures text == Press(lib, old(text), value)
    {
      var current := text;
      if value == "=" {
        var result := Evaluate(lib, current);
        match result
        case Some(v) => text := lib.show(v);
        case None => text := ErrorText;
      } else if value == "C" {
        text := "";
      } else {
        AppendToDisplay(value);
      }
    }
  }
}
