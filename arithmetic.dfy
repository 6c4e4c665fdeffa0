/** The four arithmetic commands (add, subtract, multiply, divide). Their
    copies without logging in the `commands` package and in the misspelled
    `pulgins` package print the same lines and share these definitions. */
module Arithmetic {
  import opened Output

  /** `Decimal(s)`: a number, or `None` where the constructor raises
      `InvalidOperation`. */
  type DecimalParser = string -> Option<real>

  const ADD_ARITY_ERROR := "Error: Addition requires exactly two numerical arguments"
  const ADD_INVALID := "Error: Invalid input"
  const INVALID_NUMBERS := "Error: Invalid input. Please enter valid numbers."
  const ZERO_DIVISOR := "Error: Division by zero is not allowed."
  const CANNOT_DIVIDE := "Error: Cannot divide by zero."

  const ADD_RESULT := "The Solution of addition is "
  const SUBTRACT_RESULT := "The solution of subtraction is "
  const MULTIPLY_RESULT := "The solution of multiplication is "
  const DIVIDE_RESULT := "The solution of division is "

  /** The outcome of `a, b = map(Decimal, args)`. */
  datatype Unpacked = Pair(a: real, b: real) | InvalidNumber | WrongCount

  /** Some argument that the unpacking converts fails to parse. The
      unpacking pulls at most three values from the lazy `map` (the third
      to find out that there are too many), so only the first three
      arguments are ever converted. */
  predicate ConversionFails(parse: DecimalParser, args: seq<string>)
  {
    exists i :: 0 <= i < |args| && i < 3 && parse(args[i]).None?
  }

  /** `a, b = map(Decimal, args)`: converts arguments one at a time, in
      order, and raises `ValueError` when there are not exactly two. A
      conversion error raised first wins over the `ValueError`. */
  function UnpackTwo(parse: DecimalParser, args: seq<string>): (u: Unpacked)
    ensures u.Pair? <==> |args| == 2 && parse(args[0]).Some? && parse(args[1]).Some?
    ensures u.Pair? ==> u.a == parse(args[0]).value && u.b == parse(args[1]).value
    ensures u.InvalidNumber? <==> ConversionFails(parse, args)
  {
    if |args| == 0 then WrongCount
    else if parse(args[0]).None? then InvalidNumber
    else if |args| == 1 then WrongCount
    else if parse(args[1]).None? then InvalidNumber
    else if |args| == 2 then Pair(parse(args[0]).value, parse(args[1]).value)
    else if parse(args[2]).None? then InvalidNumber
    else WrongCount
  }

  /** `AddCommand.validate_args`: true exactly for two arguments; prints the
      arity error otherwise. Returns the verdict and the printed lines. */
  function ValidateArgs(args: seq<string>): (r: (bool, seq<Line>))
    ensures r.0 <==> |args| == 2
    ensures r.0 ==> r.1 == []
    ensures !r.0 ==> r.1 == [Text(ADD_ARITY_ERROR)]
  {
    if |args| != 2 then (false, [Text(ADD_ARITY_ERROR)]) else (true, [])
  }

  /** `AddCommand.execute`: never raises. */
  function Add(parse: DecimalParser, args: seq<string>): (o: Outcome)
    ensures o.raised == None
    ensures |args| != 2 ==> o.printed == [Text(ADD_ARITY_ERROR)]
    ensures |args| == 2 && parse(args[0]).Some? && parse(args[1]).Some? ==>
              o.printed == [Value(ADD_RESULT, parse(args[0]).value + parse(args[1]).value)]
    ensures |args| == 2 && (parse(args[0]).None? || parse(args[1]).None?) ==>
              o.printed == [Text(ADD_INVALID)]
  {
    var (valid, lines) := ValidateArgs(args);
    if !valid then Printed(lines)
    else
      match UnpackTwo(parse, args)
      case Pair(a, b) => Printed([Value(ADD_RESULT, a + b)])
      case InvalidNumber => Printed([Text(ADD_INVALID)])
      case WrongCount => assert false; Printed([])
  }

  /** `SubtractCommand.execute`: no arity check of its own. */
  function Subtract(parse: DecimalParser, args: seq<string>): (o: Outcome)
    ensures |args| == 2 && parse(args[0]).Some? && parse(args[1]).Some? ==>
              o == Printed([Value(SUBTRACT_RESULT, parse(args[0]).value - parse(args[1]).value)])
    ensures ConversionFails(parse, args) ==> o == Printed([Text(INVALID_NUMBERS)])
    ensures |args| != 2 && !ConversionFails(parse, args) ==> o == Raise(ValueError)
  {
    match UnpackTwo(parse, args)
    case Pair(a, b) => Printed([Value(SUBTRACT_RESULT, a - b)])
    case InvalidNumber => Printed([Text(INVALID_NUMBERS)])
    case WrongCount => Raise(ValueError)
  }

  /** `MultiplyCommand.execute`: no arity check of its own. */
  function Multiply(parse: DecimalParser, args: seq<string>): (o: Outcome)
    ensures |args| == 2 && parse(args[0]).Some? && parse(args[1]).Some? ==>
              o == Printed([Value(MULTIPLY_RESULT, parse(args[0]).value * parse(args[1]).value)])
    ensures ConversionFails(parse, args) ==> o == Printed([Text(INVALID_NUMBERS)])
    ensures |args| != 2 && !ConversionFails(parse, args) ==> o == Raise(ValueError)
  {
    match UnpackTwo(parse, args)
    case Pair(a, b) =>
      var product := a * b;
      assert product == parse(args[0]).value * parse(args[1]).value;
      Printed([Value(MULTIPLY_RESULT, product)])
    case InvalidNumber => Printed([Text(INVALID_NUMBERS)])
    case WrongCount => Raise(ValueError)
  }

  /** The signals of decimal division that the divide command catches. */
  datatype DivisionSignal = DivisionByZero | DivisionUndefined

  datatype Quotient = Quotient(q: real) | Signal(signal: DivisionSignal)

  /** Decimal `a / b`: a non-zero number over zero signals `DivisionByZero`,
      zero over zero signals `DivisionUndefined` (an `InvalidOperation`). */
  function DecimalDivide(a: real, b: real): (r: Quotient)
    ensures b != 0.0 <==> r.Quotient?
    ensures r.Quotient? ==> r.q * b == a
  {
    if b != 0.0 then Quotient(a / b)
    else if a != 0.0 then Signal(DivisionByZero)
    else Signal(DivisionUndefined)
  }

  /** `DivideCommand.execute`: parse, then the zero guard, then divide. */
  function Divide(parse: DecimalParser, args: seq<string>): (o: Outcome)
    ensures |args| == 2 && parse(args[0]).Some? && parse(args[1]).Some? ==>
              o == Printed([if parse(args[1]).value == 0.0 then Text(ZERO_DIVISOR)
                            else Value(DIVIDE_RESULT, parse(args[0]).value / parse(args[1]).value)])
    ensures ConversionFails(parse, args) ==> o == Printed([Text(INVALID_NUMBERS)])
    ensures |args| != 2 && !ConversionFails(parse, args) ==> o == Raise(ValueError)
  {
    match UnpackTwo(parse, args)
    case Pair(a, b) =>
      if b == 0.0 then Printed([Text(ZERO_DIVISOR)])
      else (
        match DecimalDivide(a, b)
        case Quotient(q) => Printed([Value(DIVIDE_RESULT, q)])
        case Signal(DivisionUndefined) => Printed([Text(INVALID_NUMBERS)])
        case Signal(DivisionByZero) => Printed([Text(CANNOT_DIVIDE)])
      )
    case InvalidNumber => Printed([Text(INVALID_NUMBERS)])
    case WrongCount => Raise(ValueError)
  }

  // ----- lemmas -----

  /** The zero guard runs before the division, so the `DivisionByZero`
      handler never runs and the quotient line always carries `a / b` with a
      non-zero `b`. */
  lemma DivideNeverReachesZeroHandler(parse: DecimalParser, args: seq<string>)
    ensures Text(CANNOT_DIVIDE) !in Divide(parse, args).printed
    ensures forall p, v :: Value(p, v) in Divide(parse, args).printed ==>
              |args| == 2 && parse(args[1]).value != 0.0 && v * parse(args[1]).value == parse(args[0]).value
  {
    var u := UnpackTwo(parse, args);
    if u.Pair? && u.b != 0.0 {
      assert DecimalDivide(u.a, u.b).q * u.b == u.a;
    }
  }

  /** An argument that does not parse is reported as invalid input even when
      the other argument is zero: parsing precedes the zero check. */
  lemma InvalidInputBeforeZeroCheck(parse: DecimalParser, x: string, zero: string)
    requires parse(x).None? && parse(zero) == Some(0.0)
    ensures Divide(parse, [x, zero]) == Printed([Text(INVALID_NUMBERS)])
    ensures Divide(parse, [zero, x]) == Printed([Text(INVALID_NUMBERS)])
  {
    assert ConversionFails(parse, [x, zero]) by { assert [x, zero][0] == x; }
    assert ConversionFails(parse, [zero, x]) by { assert [zero, x][1] == x; }
  }

  /** The first three arguments are converted before the count is found
      wrong: with three, the third's conversion error wins over the
      `ValueError`; with four, a bad fourth argument is never looked at. */
  lemma ThirdArgumentIsConverted(parse: DecimalParser, a: string, b: string, c: string, d: string)
    requires parse(a).Some? && parse(b).Some? && parse(c).Some? && parse(d).None?
    ensures Subtract(parse, [a, b, d]) == Printed([Text(INVALID_NUMBERS)])
    ensures Subtract(parse, [a, b, c, d]) == Raise(ValueError)
  {
    assert ConversionFails(parse, [a, b, d]) by { assert [a, b, d][2] == d; }
    assert !ConversionFails(parse, [a, b, c, d]) by {
      forall i | 0 <= i < 4 && i < 3 ensures parse([a, b, c, d][i]).Some? {
        assert i == 0 || i == 1 || i == 2;
      }
    }
  }

  /** Subtract, multiply and divide have no arity check of their own: with
      a wrong count and nothing that fails to parse, all three let the
      unpacking's `ValueError` escape, where add prints its arity message. */
  lemma WrongCountEscapes(parse: DecimalParser, args: seq<string>)
    requires |args| != 2 && !ConversionFails(parse, args)
    ensures Subtract(parse, args) == Raise(ValueError)
    ensures Multiply(parse, args) == Raise(ValueError)
    ensures Divide(parse, args) == Raise(ValueError)
    ensures Add(parse, args) == Printed([Text(ADD_ARITY_ERROR)])
  {
  }

  /** Add is the only one with an arity check: with a count other than two
      it prints the arity message and parses nothing, whatever the
      arguments, while subtract raises `ValueError` when they parse. */
  lemma AddChecksArityFirst(parse: DecimalParser, args: seq<string>)
    requires |args| != 2
    ensures Add(parse, args) == Printed([Text(ADD_ARITY_ERROR)])
    ensures Add(parse, args) == Add(_ => None, args)
  {
  }
}
