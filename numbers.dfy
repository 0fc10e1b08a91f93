/** Optional values: the source's `null` for an absent operand or operator. */
module Optional {
  datatype Option<+T> = None | Some(value: T)
}

/** The numbers the calculator computes with, the binary dispatch `compute`,
    the unary scientific operations and `formatNumber`.

    A JavaScript number is modelled as an exact real or as the non-finite
    sentinel `NaN`. Arithmetic on reals never overflows, so the model has no
    infinities: every non-finite value the calculator can meet is NaN, which
    `formatNumber` shows as "Error". */
module Numbers {

  datatype Num = Finite(value: real) | NaN

  /** The operator names `setOperator` receives and `compute` dispatches on. */
  const ADD: string := "add"
  const SUBTRACT: string := "subtract"
  const MULTIPLY: string := "multiply"
  const DIVIDE: string := "divide"

  /** The display text of every non-finite result. */
  const ERROR: string := "Error"

  predicate IsArithmetic(op: string) {
    op == ADD || op == SUBTRACT || op == MULTIPLY || op == DIVIDE
  }

  /** The floating-point library the scientific keys call (`Math.*`): only
      their values on finite arguments are needed, and those are left abstract. */
  datatype MathLibrary = MathLibrary(
    sqrt: real -> real,
    sin: real -> real,
    cos: real -> real,
    tan: real -> real,
    log: real -> real,
    log10: real -> real,
    pi: real,
    e: real)

  // JavaScript's `+`, `-`, `*` and `/` on numbers: NaN is absorbing, and
  // dividing by zero gives a non-finite value.

  function Plus(a: Num, b: Num): Num {
    if a.Finite? && b.Finite? then Finite(a.value + b.value) else NaN
  }

  function Minus(a: Num, b: Num): Num {
    if a.Finite? && b.Finite? then Finite(a.value - b.value) else NaN
  }

  function Times(a: Num, b: Num): Num {
    if a.Finite? && b.Finite? then Finite(a.value * b.value) else NaN
  }

  function Quotient(a: Num, b: Num): Num {
    if a.Finite? && b.Finite? && b.value != 0.0 then Finite(a.value / b.value) else NaN
  }

  /** `compute(a, op, b)`: the pending binary operation. An unknown operator
      hands back the second operand; the result is the error sentinel exactly
      when an operand already is one or a division has a zero divisor. */
  function Compute(a: Num, op: string, b: Num): (r: Num)
    ensures !IsArithmetic(op) ==> r == b
    ensures IsArithmetic(op) ==>
      (r.NaN? <==> a.NaN? || b.NaN? || (op == DIVIDE && b == Finite(0.0)))
    ensures a.Finite? && b.Finite? ==>
      (op == ADD ==> r.value == a.value + b.value) &&
      (op == SUBTRACT ==> r.value == a.value - b.value) &&
      (op == MULTIPLY ==> r.value == a.value * b.value) &&
      (op == DIVIDE && b.value != 0.0 ==> r.value * b.value == a.value)
  {
    if op == ADD then Plus(a, b)
    else if op == SUBTRACT then Minus(a, b)
    else if op == MULTIPLY then Times(a, b)
    else if op == DIVIDE then (if b == Finite(0.0) then NaN else Quotient(a, b))
    else b
  }

  /** `formatNumber(n)`: non-finite numbers show as "Error"; finite ones go
      through the rounding and rendering `formatFinite` stands for. */
  function FormatNumber(n: Num, formatFinite: real -> string): (t: string)
    ensures n.NaN? ==> t == ERROR
    ensures n.Finite? ==> t == formatFinite(n.value)
  {
    match n
    case NaN => ERROR
    case Finite(v) => formatFinite(v)
  }

  /** `toRadians(value)`: degrees to radians, so that 180 degrees are pi radians. */
  function ToRadians(degrees: real, pi: real): (radians: real)
    ensures radians * 180.0 == degrees * pi
  {
    degrees * pi / 180.0
  }

  /** The eight scientific keys, each of which runs `applyUnaryOperation`
      with its own closure. */
  datatype UnaryOp = Sqrt | Square | Inverse | Sine | Cosine | Tangent | Ln | Log10

  /** True when `op` rejects the finite argument `x` (the source's NaN guards). */
  predicate OutsideDomain(op: UnaryOp, x: real) {
    match op
    case Sqrt => x < 0.0
    case Inverse => x == 0.0
    case Ln => x <= 0.0
    case Log10 => x <= 0.0
    case _ => false
  }

  /** The angle a trigonometric key hands to the library in the given mode. */
  function Angle(x: real, degrees: bool, m: MathLibrary): real {
    if degrees then ToRadians(x, m.pi) else x
  }

  /** The closure each scientific key passes to `applyUnaryOperation`: the
      result is an error exactly for an error argument or one outside the
      key's domain. */
  function Evaluate(op: UnaryOp, x: Num, degrees: bool, m: MathLibrary): (r: Num)
    ensures r.NaN? <==> x.NaN? || OutsideDomain(op, x.value)
    ensures op == Square && r.Finite? ==> r.value >= 0.0
    ensures op == Inverse && r.Finite? ==> r.value * x.value == 1.0
  {
    match x
    case NaN => NaN
    case Finite(v) =>
      match op
      case Sqrt => if v < 0.0 then NaN else Finite(m.sqrt(v))
      case Square => Finite(v * v)
      case Inverse => if v == 0.0 then NaN else Finite(1.0 / v)
      case Sine => Finite(m.sin(Angle(v, degrees, m)))
      case Cosine => Finite(m.cos(Angle(v, degrees, m)))
      case Tangent => Finite(m.tan(Angle(v, degrees, m)))
      case Ln => if v <= 0.0 then NaN else Finite(m.log(v))
      case Log10 => if v <= 0.0 then NaN else Finite(m.log10(v))
  }

  /** Adding a finite value and then subtracting it gives back the finite
      operand exactly (real arithmetic: no rounding). */
  lemma AddThenSubtract(a: Num, b: Num)
    requires a.Finite? && b.Finite?
    ensures Compute(Compute(a, ADD, b), SUBTRACT, b) == a
  {
  }

  /** Multiplying by a non-zero value and then dividing by it gives back the operand. */
  lemma MultiplyThenDivide(a: Num, b: Num)
    requires a.Finite? && b.Finite? && b.value != 0.0
    ensures Compute(Compute(a, MULTIPLY, b), DIVIDE, b) == a
  {
  }

  /** Division by zero is an error for every first operand, finite or not. */
  lemma DivideByZero(a: Num, formatFinite: real -> string)
    ensures Compute(a, DIVIDE, Finite(0.0)) == NaN
    ensures FormatNumber(Compute(a, DIVIDE, Finite(0.0)), formatFinite) == ERROR
  {
  }

  /** In degree mode a trigonometric key gives what radian mode gives on the
      converted angle. */
  lemma DegreesAreConvertedRadians(op: UnaryOp, v: real, m: MathLibrary)
    requires op == Sine || op == Cosine || op == Tangent
    ensures Evaluate(op, Finite(v), true, m) == Evaluate(op, Finite(ToRadians(v, m.pi)), false, m)
  {
  }
}
