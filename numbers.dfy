/**
 * Numeric values of the expression engine.
 *
 * A Java `double` is abstracted as a real number or one of the special values
 * NaN and +/-infinity. The four arithmetic operators follow the IEEE 754 rules
 * for special values; rounding, overflow and the sign of zero are not modelled.
 * Everything `java.lang.Math` provides is an uninterpreted field of `MathLib`.
 */
module Numbers {

  datatype Num = Fin(r: real) | NaN | Inf(positive: bool)

  /** Double.isNaN(n) || Double.isInfinite(n) */
  predicate Bad(n: Num) {
    n.NaN? || n.Inf?
  }

  /**
   * The parts of java.lang.Math the engine calls. `isMultipleOfPi(a)` stands for
   * `a % Math.PI == 0` and `isOddMultipleOfHalfPi(a)` for
   * `a % (Math.PI / 2) == 0 && !(a / (Math.PI / 2) % 2 == 0)`.
   */
  datatype MathLib = MathLib(
    e: real, pi: real,
    pow: (Num, Num) -> Num,
    sin: Num -> Num, cos: Num -> Num,
    asin: Num -> Num, acos: Num -> Num, atan: Num -> Num,
    log: Num -> Num, log10: Num -> Num,
    sinh: Num -> Num, cosh: Num -> Num, tanh: Num -> Num,
    sqrt: Num -> Num,
    isMultipleOfPi: Num -> bool,
    isOddMultipleOfHalfPi: Num -> bool)

  function Neg(a: Num): (r: Num)
    ensures a.Fin? <==> r.Fin?
    ensures r.Fin? ==> r.r == -a.r
    ensures r.Inf? ==> a == Inf(!r.positive)
  {
    match a
    case Fin(x) => Fin(-x)
    case NaN => NaN
    case Inf(p) => Inf(!p)
  }

  function Add(a: Num, b: Num): (r: Num)
    ensures a.Fin? && b.Fin? ==> r == Fin(a.r + b.r)
    ensures r.NaN? <==> a.NaN? || b.NaN? || (a.Inf? && b.Inf? && a.positive != b.positive)
    ensures r.Inf? <==> (a.Inf? && !b.NaN? && !(b.Inf? && b.positive != a.positive))
                        || (b.Inf? && a.Fin?)
  {
    match (a, b)
    case (NaN, _) => NaN
    case (_, NaN) => NaN
    case (Inf(p), Inf(q)) => if p == q then Inf(p) else NaN
    case (Inf(p), Fin(_)) => Inf(p)
    case (Fin(_), Inf(q)) => Inf(q)
    case (Fin(x), Fin(y)) => Fin(x + y)
  }

  function Sub(a: Num, b: Num): (r: Num)
    ensures a.Fin? && b.Fin? ==> r == Fin(a.r - b.r)
    ensures r.NaN? <==> a.NaN? || b.NaN? || (a.Inf? && b.Inf? && a.positive == b.positive)
  {
    Add(a, Neg(b))
  }

  function Mul(a: Num, b: Num): (r: Num)
    ensures a.Fin? && b.Fin? ==> r == Fin(a.r * b.r)
    ensures r.NaN? <==> a.NaN? || b.NaN? || (a.Inf? && b == Fin(0.0)) || (b.Inf? && a == Fin(0.0))
  {
    match (a, b)
    case (NaN, _) => NaN
    case (_, NaN) => NaN
    case (Inf(p), Inf(q)) => Inf(p == q)
    case (Inf(p), Fin(y)) => if y == 0.0 then NaN else Inf(p == (y > 0.0))
    case (Fin(x), Inf(q)) => if x == 0.0 then NaN else Inf(q == (x > 0.0))
    case (Fin(_), Fin(_)) => Fin(a.r * b.r)
  }

  /**
   * IEEE division without signed zeros: a non-zero number over zero is infinite,
   * zero over zero is NaN, a finite number over an infinite one is zero.
   */
  function Div(a: Num, b: Num): (r: Num)
    ensures a.Fin? && b.Fin? && b.r != 0.0 ==> r == Fin(a.r / b.r)
    ensures r.Inf? <==> (a.Inf? && b.Fin?) || (a.Fin? && a.r != 0.0 && b == Fin(0.0))
    ensures r.NaN? <==> a.NaN? || b.NaN? || (a.Inf? && b.Inf?) || (a == Fin(0.0) && b == Fin(0.0))
  {
    match (a, b)
    case (NaN, _) => NaN
    case (_, NaN) => NaN
    case (Inf(_), Inf(_)) => NaN
    case (Inf(p), Fin(y)) => if y == 0.0 then Inf(p) else Inf(p == (y > 0.0))
    case (Fin(_), Inf(_)) => Fin(0.0)
    case (Fin(x), Fin(y)) =>
      if y != 0.0 then Fin(x / y)
      else if x == 0.0 then NaN
      else Inf(x > 0.0)
  }

  /** Function.java's enhancedSin: exactly zero at exact multiples of pi. */
  function EnhancedSin(lib: MathLib, a: Num): (r: Num)
    ensures lib.isMultipleOfPi(a) ==> r == Fin(0.0)
    ensures !lib.isMultipleOfPi(a) ==> r == lib.sin(a)
  {
    if lib.isMultipleOfPi(a) then Fin(0.0) else lib.sin(a)
  }

  /** Function.java's enhancedCos: exactly zero at exact odd multiples of pi/2. */
  function EnhancedCos(lib: MathLib, a: Num): (r: Num)
    ensures lib.isOddMultipleOfHalfPi(a) ==> r == Fin(0.0)
    ensures !lib.isOddMultipleOfHalfPi(a) ==> r == lib.cos(a)
  {
    if lib.isOddMultipleOfHalfPi(a) then Fin(0.0) else lib.cos(a)
  }

  // ---------------------------------------------------------------------------
  // Decimal numerals: the part of Double.parseDouble that the tokenizer relies on

  predicate IsDigit(c: char) {
    '0' <= c <= '9'
  }

  /** A run of digits and dots, as the tokenizer's split scan looks for. */
  predicate IsDigitOrDot(c: char) {
    IsDigit(c) || c == '.'
  }

  /**
   * The rest s of an unsigned decimal numeral, read left to right, given whether
   * a dot and a digit have been seen already.
   */
  predicate NumeralRest(s: string, seenDot: bool, seenDigit: bool) {
    if s == [] then seenDigit
    else if IsDigit(s[0]) then NumeralRest(s[1..], seenDot, true)
    else if s[0] == '.' && !seenDot then NumeralRest(s[1..], true, seenDigit)
    else false
  }

  /** An unsigned decimal numeral: digits with at most one dot and at least one digit. */
  predicate IsUnsignedNumeral(s: string) {
    NumeralRest(s, false, false)
  }

  /** An optionally signed decimal numeral such as "3.25", "-1" or ".5". */
  predicate IsNumeral(s: string) {
    IsUnsignedNumeral(s) || (|s| > 0 && (s[0] == '-' || s[0] == '+') && IsUnsignedNumeral(s[1..]))
  }

  /**
   * The value of the rest s of a numeral: `acc` is the value read so far and,
   * after the dot, `scale` is the weight of the next digit.
   */
  function RestValue(s: string, seenDot: bool, seenDigit: bool, acc: real, scale: real): real
    requires NumeralRest(s, seenDot, seenDigit)
  {
    if s == [] then acc
    else if IsDigit(s[0]) then
      var d := (s[0] as int - '0' as int) as real;
      if seenDot then RestValue(s[1..], seenDot, true, acc + d * scale, scale / 10.0)
      else RestValue(s[1..], seenDot, true, 10.0 * acc + d, scale)
    else RestValue(s[1..], true, seenDigit, acc, scale)
  }

  function UnsignedValue(s: string): real
    requires IsUnsignedNumeral(s)
  {
    RestValue(s, false, false, 0.0, 0.1)
  }

  /** The value Double.parseDouble gives a decimal numeral (before rounding). */
  function NumeralValue(s: string): real
    requires IsNumeral(s)
  {
    if IsUnsignedNumeral(s) then UnsignedValue(s)
    else if s[0] == '-' then -UnsignedValue(s[1..])
    else UnsignedValue(s[1..])
  }
}
