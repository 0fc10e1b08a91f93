/** The calculator state machine: one transition function per key press,
    each stating which fields it changes and how. The class in calculator.dfy
    runs these transitions in place. */
module Machine {
  import opened Optional
  import opened Numbers
  import opened DisplayText

  /** The closure's mutable fields together with the display text. */
  datatype State = State(
    display: string,
    firstOperand: Option<Num>,
    operator: Option<string>,
    shouldReset: bool,
    memoryValue: real,
    isDegreesMode: bool)

  /** What the calculator calls but does not define: `parseFloat`, the finite
      branch of `formatNumber` (rounding to ten places, rendering, stripping a
      trailing ".0") and the `Math` library. */
  datatype Platform = Platform(
    parseFloat: string -> Num,
    formatFinite: real -> string,
    math: MathLibrary)

  /** A first operand is stored exactly when an operator is set: every
      transition sets or clears the two together. */
  predicate Valid(s: State) {
    s.firstOperand.Some? <==> s.operator.Some?
  }

  /** The state the closure starts in, with whatever text the page shows. */
  function Initial(text: string): (s: State)
    ensures Valid(s)
    ensures s.firstOperand.None? && s.operator.None?
    ensures s.display == text && !s.shouldReset
    ensures s.memoryValue == 0.0 && s.isDegreesMode
  {
    State(text, None, None, false, 0.0, true)
  }

  /** The display as `getDisplayValue` reads it. */
  function Current(s: State): string {
    DisplayValue(s.display)
  }

  /** `parseFloat(getDisplayValue())`. */
  function CurrentValue(s: State, p: Platform): Num {
    p.parseFloat(Current(s))
  }

  function Format(n: Num, p: Platform): string {
    FormatNumber(n, p.formatFinite)
  }

  /** JavaScript truthiness of the `operator` field: a non-empty name. */
  predicate Pending(operator: Option<string>) {
    operator.Some? && operator.value != ""
  }

  /** `setOperator` chains when an operator is pending and a new operand has
      been typed since it was chosen. */
  predicate Chains(s: State) {
    Pending(s.operator) && !s.shouldReset
  }

  /** `inputDigit(d)`: start a fresh number (after an operator or result, or
      over a lone "0") or append to the one being typed. Afterwards the next
      digit always appends; nothing but the display and the flag changes. */
  function InputDigit(s: State, d: string): (r: State)
    ensures r == s.(display := r.display, shouldReset := false)
    ensures r.display == d <==> s.shouldReset || Current(s) == "0"
    ensures r.display != d ==> r.display == Current(s) + d
  {
    var current := Current(s);
    if s.shouldReset || current == "0" then s.(display := d, shouldReset := false)
    else s.(display := current + d)
  }

  /** `inputDot()`: "0." after an operator or result; otherwise a point is
      appended only to a number that has none. The display always holds a
      point afterwards. */
  function InputDot(s: State): (r: State)
    ensures r == s.(display := r.display, shouldReset := false)
    ensures '.' in r.display
    ensures s.shouldReset ==> r.display == "0."
    ensures !s.shouldReset && '.' in Current(s) ==> r == s
    ensures !s.shouldReset && '.' !in Current(s) ==> r.display == Current(s) + "."
  {
    var current := Current(s);
    if s.shouldReset then s.(display := "0.", shouldReset := false)
    else if '.' !in current then s.(display := current + ".")
    else s
  }

  /** `clearAll()`: drop the pending operation and show "0"; memory and the
      angle mode survive. */
  function ClearAll(s: State): (r: State)
    ensures Valid(r)
    ensures r.firstOperand.None? && r.operator.None? && !r.shouldReset
    ensures r.display == "0"
    ensures r.memoryValue == s.memoryValue && r.isDegreesMode == s.isDegreesMode
  {
    s.(display := "0", firstOperand := None, operator := None, shouldReset := false)
  }

  /** `setOperator(next)`: left-to-right chaining without precedence. When a
      new operand follows a pending operator, the pending operation is
      carried out, shown, and becomes the first operand; otherwise the
      displayed value does. Either way `next` is pending and the next digit
      starts a fresh number. */
  function SetOperator(s: State, next: string, p: Platform): (r: State)
    requires Valid(s)
    ensures Valid(r)
    ensures r.operator == Some(next) && r.shouldReset
    ensures r.memoryValue == s.memoryValue && r.isDegreesMode == s.isDegreesMode
    ensures Chains(s) ==>
      r.firstOperand == Some(Compute(s.firstOperand.value, s.operator.value, CurrentValue(s, p)))
    ensures !Chains(s) ==> r.firstOperand == Some(CurrentValue(s, p))
    ensures Chains(s) ==> r.display == Format(r.firstOperand.value, p)
    ensures !Chains(s) ==> r.display == s.display
  {
    var currentVal := CurrentValue(s, p);
    if Chains(s) then
      var result := Compute(s.firstOperand.value, s.operator.value, currentVal);
      s.(display := Format(result, p), firstOperand := Some(result),
         operator := Some(next), shouldReset := true)
    else
      s.(firstOperand := Some(currentVal), operator := Some(next), shouldReset := true)
  }

  /** `equals()`: with no pending operation nothing happens; otherwise the
      pending operation is carried out on the displayed value, its result
      shown, and the calculator returns to having nothing pending. */
  function Equals(s: State, p: Platform): (r: State)
    ensures s.operator.None? || s.firstOperand.None? ==> r == s
    ensures s.operator.Some? && s.firstOperand.Some? ==>
      r == s.(display := r.display, firstOperand := None, operator := None, shouldReset := true)
    ensures s.operator.Some? && s.firstOperand.Some? ==>
      r.display == Format(Compute(s.firstOperand.value, s.operator.value, CurrentValue(s, p)), p)
    ensures Valid(s) ==> Valid(r)
  {
    if s.operator.None? || s.firstOperand.None? then s
    else
      var secondOperand := CurrentValue(s, p);
      var result := Compute(s.firstOperand.value, s.operator.value, secondOperand);
      s.(display := Format(result, p), firstOperand := None, operator := None, shouldReset := true)
  }

  /** `toggleSign()`: nothing on "0"; otherwise exactly one leading minus sign
      is removed when present and added when absent. */
  function ToggleSign(s: State): (r: State)
    ensures r == s.(display := r.display)
    ensures Current(s) == "0" ==> r == s
    ensures Current(s) != "0" && StartsWithMinus(Current(s)) ==> "-" + r.display == Current(s)
    ensures Current(s) != "0" && !StartsWithMinus(Current(s)) ==> r.display == "-" + Current(s)
  {
    var current := Current(s);
    if current == "0" then s
    else if StartsWithMinus(current) then s.(display := current[1..])
    else s.(display := "-" + current)
  }

  /** `percent()`: show the displayed value divided by 100. Unlike every
      other operation that shows a result, it leaves the reset flag alone. */
  function Percent(s: State, p: Platform): (r: State)
    ensures r == s.(display := r.display)
    ensures CurrentValue(s, p).NaN? ==> r.display == ERROR
    ensures CurrentValue(s, p).Finite? ==>
      r.display == p.formatFinite(CurrentValue(s, p).value / 100.0)
  {
    s.(display := Format(Quotient(CurrentValue(s, p), Finite(100.0)), p))
  }

  /** `applyUnaryOperation(operation)` with the closure of one scientific key:
      show the key's value of the displayed number (in the current angle
      mode) and make the next digit start a fresh number; the pending
      operation is untouched, and an error stays an error. */
  function ApplyUnary(s: State, op: UnaryOp, p: Platform): (r: State)
    ensures r == s.(display := r.display, shouldReset := true)
    ensures r.display == Format(Evaluate(op, CurrentValue(s, p), s.isDegreesMode, p.math), p)
    ensures CurrentValue(s, p).NaN? ==> r.display == ERROR
    ensures CurrentValue(s, p).Finite? && OutsideDomain(op, CurrentValue(s, p).value) ==>
      r.display == ERROR
  {
    var current := CurrentValue(s, p);
    var result := Evaluate(op, current, s.isDegreesMode, p.math);
    s.(display := Format(result, p), shouldReset := true)
  }

  /** `insertPi()`: show pi; the next digit starts a fresh number. */
  function InsertPi(s: State, p: Platform): (r: State)
    ensures r == s.(display := r.display, shouldReset := true)
    ensures r.display == p.formatFinite(p.math.pi)
  {
    s.(display := Format(Finite(p.math.pi), p), shouldReset := true)
  }

  /** `insertE()`: show e; the next digit starts a fresh number. */
  function InsertE(s: State, p: Platform): (r: State)
    ensures r == s.(display := r.display, shouldReset := true)
    ensures r.display == p.formatFinite(p.math.e)
  {
    s.(display := Format(Finite(p.math.e), p), shouldReset := true)
  }

  /** `toggleDegRad()`: switch between degrees and radians and nothing else. */
  function ToggleDegRad(s: State): (r: State)
    ensures r == s.(isDegreesMode := r.isDegreesMode)
    ensures r.isDegreesMode != s.isDegreesMode
  {
    s.(isDegreesMode := !s.isDegreesMode)
  }

  /** `memoryClear()`: zero the memory register and nothing else. */
  function MemoryClear(s: State): (r: State)
    ensures r == s.(memoryValue := r.memoryValue)
    ensures r.memoryValue == 0.0
  {
    s.(memoryValue := 0.0)
  }

  /** `memoryRecall()`: show the register (always finite); the next digit
      starts a fresh number. */
  function MemoryRecall(s: State, p: Platform): (r: State)
    ensures r == s.(display := r.display, shouldReset := true)
    ensures r.display == p.formatFinite(s.memoryValue)
  {
    s.(display := Format(Finite(s.memoryValue), p), shouldReset := true)
  }

  /** The amount `memoryAdd` and `memorySubtract` move the register by:
      the displayed value, or 0 when it is not finite. */
  function MemoryOperand(s: State, p: Platform): (x: real)
    ensures CurrentValue(s, p).Finite? ==> x == CurrentValue(s, p).value
    ensures CurrentValue(s, p).NaN? ==> x == 0.0
  {
    var current := CurrentValue(s, p);
    if current.Finite? then current.value else 0.0
  }

  /** `memoryAdd()`: add the displayed value to the register; nothing else changes. */
  function MemoryAdd(s: State, p: Platform): (r: State)
    ensures r == s.(memoryValue := r.memoryValue)
    ensures r.memoryValue - s.memoryValue == MemoryOperand(s, p)
  {
    s.(memoryValue := s.memoryValue + MemoryOperand(s, p))
  }

  /** `memorySubtract()`: subtract the displayed value from the register;
      nothing else changes. */
  function MemorySubtract(s: State, p: Platform): (r: State)
    ensures r == s.(memoryValue := r.memoryValue)
    ensures s.memoryValue - r.memoryValue == MemoryOperand(s, p)
  {
    s.(memoryValue := s.memoryValue - MemoryOperand(s, p))
  }
}
