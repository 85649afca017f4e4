/** Numbers, failures and the operator tables of the calculator.

    Python's `int` and `float` become the two constructors of `Value`; a
    `float` is held as an exact `real` (rounding is not modelled).  The three
    exception classes the calculator raises on purpose are the classified
    errors; the Python exceptions it lets escape are kept apart from them. */
module Values {

  /** A number on the calculator's stacks: a Python `int` or a Python `float`. */
  datatype Value = Int(i: int) | Float(f: real)

  /** Why a line could not be computed. */
  datatype Error =
    | InvalidExpression   // class InvalidExpression(SyntaxError)
    | InvalidIdentifier   // class InvalidIdentifier(SyntaxError)
    | UnknownVariable     // class UnknownVariable(NameError)
    | ZeroDivision        // ZeroDivisionError of `/` by zero or of `0 ^ -n`
    | EmptyStack          // IndexError of `stack[-1]` when the postfix is empty
    | EmptyNumeral        // ValueError of `int('')`
    | FractionalPower     // `^` with a non-integral exponent at a base other than 0 and 1: the model's stand-in for Python's float or complex result

  /** The errors the calculator raises itself and turns into messages. */
  predicate IsClassified(e: Error) {
    e.InvalidExpression? || e.InvalidIdentifier? || e.UnknownVariable?
  }

  /** A computation that either yields a `T` or fails with an `Error`. */
  datatype Result<+T> = Ok(value: T) | Err(error: Error) {
    predicate IsFailure() {
      Err?
    }

    function PropagateFailure<U>(): Result<U>
      requires Err?
    {
      Err(error)
    }

    function Extract(): T
      requires Ok?
    {
      value
    }
  }

  datatype Option<+T> = None | Some(value: T)

  /** The numeric value of a `Value`, whatever its Python type. */
  function AsReal(v: Value): real {
    match v
    case Int(i) => i as real
    case Float(f) => f
  }

  /** `x % 1 == 0`: the value is a whole number. */
  predicate IsIntegral(v: Value) {
    v.Int? || v.f.Floor as real == v.f
  }

  /** The final conversion of the evaluator: an integral `float` becomes an `int`. */
  function IntIfIntegral(v: Value): (r: Value)
    ensures AsReal(r) == AsReal(v)
    ensures r.Int? <==> IsIntegral(v)
  {
    if v.Float? && v.f.Floor as real == v.f then Int(v.f.Floor) else v
  }

  // ---------------------------------------------------------------------
  // Operator tables (`precedence`, `binary_operators`, `unary_operators`)
  // ---------------------------------------------------------------------

  /** The keys of `binary_operators` (and of `precedence`). */
  predicate IsBinaryOp(c: char) {
    c == '-' || c == '+' || c == '/' || c == '*' || c == '^'
  }

  /** The keys of `unary_operators`. */
  predicate IsUnaryOp(c: char) {
    c == '-' || c == '+'
  }

  /** The `precedence` table.  The source only looks up binary operators;
      every other character is given 0 so that the function is total. */
  function Precedence(c: char): (p: nat)
    ensures IsBinaryOp(c) <==> 1 <= p <= 3
    ensures IsUnaryOp(c) ==> p == 1
    ensures c == '/' || c == '*' ==> p == 2
    ensures c == '^' ==> p == 3
  {
    if c == '-' || c == '+' then 1
    else if c == '/' || c == '*' then 2
    else if c == '^' then 3
    else 0
  }

  /** `operator.neg` */
  function Negate(v: Value): (r: Value)
    ensures AsReal(r) == -AsReal(v) && r.Int? == v.Int?
  {
    match v
    case Int(i) => Int(-i)
    case Float(f) => Float(-f)
  }

  /** `unary_operators[c]`: `neg` for `-`, `pos` (the identity) otherwise. */
  function ApplyUnary(c: char, v: Value): Value {
    if c == '-' then Negate(v) else v
  }

  /** The inner `while unary_operators_stack` loop of the transformer: pops the
      pending signs one by one, the last pushed first, applying each to `v`. */
  function FoldUnary(pending: seq<char>, v: Value): Value
    decreases |pending|
  {
    if pending == [] then v
    else FoldUnary(pending[..|pending| - 1], ApplyUnary(pending[|pending| - 1], v))
  }

  /** The number of `-` signs in `pending`. */
  function Minuses(pending: seq<char>): nat {
    if pending == [] then 0
    else Minuses(pending[..|pending| - 1]) + (if pending[|pending| - 1] == '-' then 1 else 0)
  }

  /** Folding a run of signs multiplies the operand by (-1)^k, k the number of
      minus signs: the Python type of the operand is kept. */
  lemma {:induction false} FoldUnarySign(pending: seq<char>, v: Value)
    ensures FoldUnary(pending, v) == if Minuses(pending) % 2 == 0 then v else Negate(v)
    decreases |pending|
  {
    if pending != [] {
      var init, c := pending[..|pending| - 1], pending[|pending| - 1];
      FoldUnarySign(init, ApplyUnary(c, v));
      if c == '-' {
        assert Negate(Negate(v)) == v;
      }
    }
  }

  // ---------------------------------------------------------------------
  // Binary arithmetic (`operator.sub`, `add`, `truediv`, `mul`, `pow`)
  // ---------------------------------------------------------------------

  function IntPow(b: int, n: nat): int {
    if n == 0 then 1 else b * IntPow(b, n - 1)
  }

  /** An `int` power is the rational power of the same numbers. */
  lemma {:induction false} IntPowReal(b: int, n: nat)
    ensures IntPow(b, n) as real == RealPow(b as real, n)
    decreases n
  {
    if n > 0 {
      IntPowReal(b, n - 1);
    }
  }

  /** `x ** n` on the rationals for a whole exponent `n`, at a nonzero base
      when `n` is negative. */
  function RealPower(x: real, n: int): real {
    if n >= 0 then RealPow(x, n) else if x == 0.0 then 0.0 else 1.0 / RealPow(x, -n)
  }

  function RealPow(x: real, n: nat): (r: real)
    ensures x != 0.0 ==> r != 0.0
  {
    if n == 0 then 1.0 else x * RealPow(x, n - 1)
  }

  /** `x ** n` for a whole exponent `n` on a base that is a `float` or an `int`
      raised to a negative power: the result is a `float`, and zero to a
      negative power raises ZeroDivisionError. */
  function FloatPow(x: real, n: int): Result<Value> {
    if n >= 0 then Ok(Float(RealPow(x, n)))
    else if x == 0.0 then Err(ZeroDivision)
    else Ok(Float(1.0 / RealPow(x, -n)))
  }

  /** `operator.pow(a, b)`: an exact `int` for two `int`s and a non-negative
      exponent, a `float` otherwise, and ZeroDivisionError for zero raised to
      a negative power.  A non-integral exponent gives the exact `0.0` or
      ZeroDivisionError at a zero base and `1.0` at a base of one; at any
      other base Python gives a float or a complex number that is in general
      irrational, and the model gives FractionalPower instead. */
  function Power(a: Value, b: Value): (r: Result<Value>)
    ensures r.Err? <==>
      || (AsReal(a) == 0.0 && AsReal(b) < 0.0)
      || (!IsIntegral(b) && AsReal(a) != 0.0 && AsReal(a) != 1.0)
    ensures r.Err? ==> r.error == (if AsReal(a) == 0.0 then ZeroDivision else FractionalPower)
    ensures a.Int? && b.Int? && b.i >= 0 ==> r == Ok(Int(IntPow(a.i, b.i)))
    ensures r.Ok? ==> (r.value.Int? <==> a.Int? && b.Int? && b.i >= 0)
    ensures r.Ok? && IsIntegral(b) ==> AsReal(r.value) == RealPower(AsReal(a), AsReal(b).Floor)
    ensures r.Ok? && !IsIntegral(b) ==> AsReal(r.value) == AsReal(a)
  {
    match b
    case Int(n) =>
      if a.Int? && n >= 0 then IntPowReal(a.i, n); Ok(Int(IntPow(a.i, n))) else FloatPow(AsReal(a), n)
    case Float(f) =>
      if f.Floor as real == f then FloatPow(AsReal(a), f.Floor)
      else if AsReal(a) == 0.0 then (if f < 0.0 then Err(ZeroDivision) else Ok(Float(0.0)))
      else if AsReal(a) == 1.0 then Ok(Float(1.0))
      else Err(FractionalPower)
  }

  /** `operator.sub`, `operator.add` and `operator.mul`: an `int` when both
      operands are, a `float` otherwise. */
  function Subtract(a: Value, b: Value): (r: Value)
    ensures r.Int? <==> a.Int? && b.Int?
    ensures AsReal(r) == AsReal(a) - AsReal(b)
  {
    if a.Int? && b.Int? then Int(a.i - b.i) else Float(AsReal(a) - AsReal(b))
  }

  function Add(a: Value, b: Value): (r: Value)
    ensures r.Int? <==> a.Int? && b.Int?
    ensures AsReal(r) == AsReal(a) + AsReal(b)
  {
    if a.Int? && b.Int? then Int(a.i + b.i) else Float(AsReal(a) + AsReal(b))
  }

  function Multiply(a: Value, b: Value): (r: Value)
    ensures r.Int? <==> a.Int? && b.Int?
    ensures AsReal(r) == AsReal(a) * AsReal(b)
  {
    if a.Int? && b.Int? then Int(a.i * b.i) else Float(AsReal(a) * AsReal(b))
  }

  /** `operator.truediv`: always a `float`, the number that multiplied by
      the divisor gives the dividend; a zero divisor raises ZeroDivisionError. */
  function Divide(a: Value, b: Value): (r: Result<Value>)
    ensures r.Err? <==> AsReal(b) == 0.0
    ensures r.Err? ==> r.error == ZeroDivision
    ensures r.Ok? ==> r.value.Float? && AsReal(r.value) * AsReal(b) == AsReal(a)
  {
    if AsReal(b) == 0.0 then Err(ZeroDivision) else Ok(Float(AsReal(a) / AsReal(b)))
  }

  /** `binary_operators[c](a, b)`: `int` op `int` stays an `int` for `-`, `+`,
      `*` and for `^` with a non-negative exponent; `/` always gives a `float`. */
  function ApplyBinary(c: char, a: Value, b: Value): (r: Result<Value>)
    requires IsBinaryOp(c)
    ensures c == '+' || c == '-' || c == '*' ==> r.Ok? && (r.value.Int? <==> a.Int? && b.Int?)
    ensures c == '+' ==> r.Ok? && AsReal(r.value) == AsReal(a) + AsReal(b)
    ensures c == '-' ==> r.Ok? && AsReal(r.value) == AsReal(a) - AsReal(b)
    ensures c == '*' ==> r.Ok? && AsReal(r.value) == AsReal(a) * AsReal(b)
    ensures c == '/' ==> (r.Err? <==> AsReal(b) == 0.0)
    ensures c == '/' && r.Ok? ==> r.value.Float? && AsReal(r.value) * AsReal(b) == AsReal(a)
    ensures c == '^' ==> r == Power(a, b)
    ensures r.Err? ==> r.error == ZeroDivision || r.error == FractionalPower
  {
    match c
    case '-' => Ok(Subtract(a, b))
    case '+' => Ok(Add(a, b))
    case '*' => Ok(Multiply(a, b))
    case '/' => Divide(a, b)
    case '^' => Power(a, b)
  }
}
