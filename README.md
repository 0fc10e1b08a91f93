# Calculator state machine

A Dafny model of the browser calculator in `script.js`: the closure that
folds key presses (digits, the decimal point, operators, equals, sign,
percent, memory keys, scientific keys, constants and the DEG/RAD switch)
into a running result shown on a text display.

The model has two layers.

- `Machine` (machine.dfy) describes each key press as a function from one
  `State` to the next. `State` holds the display text and the closure's five
  variables: `firstOperand`, `operator`, `shouldReset`, `memoryValue` and
  `isDegreesMode`. Each function's contract says which fields change and how.
- `CalculatorApp.Calculator` (calculator.dfy) is the object the page runs.
  Its fields are those variables. It has one method per key, which updates
  the fields in place. Each method is proved to perform the matching
  `Machine` transition. Each method also keeps the invariant `Valid`: a first
  operand is stored exactly when an operator is set.

Numbers are `Num = Finite(real) | NaN`. The real part is exact. `NaN` is the
non-finite sentinel that `formatNumber` shows as "Error". The calculator also
uses things it does not define: `parseFloat`, the finite branch of
`formatNumber` and the `Math` functions and constants. These come in as
function-valued fields of a `Platform` value. The model relies only on what
the calculator itself decides: its guards, its flags, its string edits and
its error cases.

`Numbers` (numbers.dfy) holds `compute`, `formatNumber`, `toRadians` and the
closures of the scientific keys. `DisplayText` (display_text.dfy) holds
`getDisplayValue`, decimal-point counting and numerals. `Properties`
(properties.dfy) holds the lemmas that relate several key presses. It also
has `Press` and `Run`, which apply a sequence of key presses.

The pending operator is a string, as in the source. `compute` dispatches on
the names "add", "subtract", "multiply" and "divide" and returns its second
operand for any other name. The chaining test `operator && !shouldReset`
uses JavaScript truthiness, which the model keeps as `Pending`: the operator
is set and its name is not empty.

Two behaviours of the code worth noting:

- An error is not cleared only by `clearAll`. Every operation that shows
  "Error", except `percent`, also sets the reset flag, so the next digit
  replaces the error (`Machine.InputDigit`: the display becomes exactly the
  digit after a reset). `percent` leaves the flag as it was, so after it
  shows "Error" with the flag off the next digit is appended to the error
  text (`Properties.PercentErrorThenDigit`).
- The display is not always a numeral. Results come from `formatNumber`, so
  the display can hold "Error" or whatever the finite rendering produces.
  The numeral and single-point properties are proved for digit entry, the
  point key and the sign key, starting from a numeral or a fresh number.

## Model

| member | source | states |
|---|---|---|
| Numbers.Compute | script.js:60-66 | An unknown operator returns the second operand unchanged. For the four arithmetic operators, the result is the error sentinel exactly when an operand is one or a division has divisor 0. Otherwise the result is the sum, difference, product, or the quotient whose product with the divisor gives back the dividend. |
| Numbers.AddThenSubtract | script.js:60-66 | For finite operands, adding b and then subtracting b gives back a. |
| Numbers.MultiplyThenDivide | script.js:60-66 | For finite operands with b non-zero, multiplying by b and then dividing by b gives back a. |
| Numbers.DivideByZero | script.js:64 | Dividing any first operand by 0 gives the error sentinel, which formats as "Error". |
| Numbers.FormatNumber | script.js:90-95 | Non-finite numbers format as "Error". Finite numbers go through the rounding and rendering step. |
| Numbers.ToRadians | script.js:118-120 | Radians times 180 equals degrees times pi. |
| Numbers.Evaluate | script.js:129-159 | A scientific key gives an error exactly for an error argument or an argument outside its domain: a negative square root, the inverse of 0, or the logarithm of a non-positive number. A squared result is non-negative. A finite inverse times its argument is 1. |
| Numbers.DegreesAreConvertedRadians | script.js:141-151 | In degree mode, sin, cos and tan give the radian-mode result of the converted angle. |
| DisplayText.DisplayValue | script.js:15-17 | The value read from the display is never empty. It is the display text, or "0" when the display is empty. |
| DisplayText.DotsCountsIncludes | script.js:36 | `includes('.')` holds exactly when the count of decimal points is positive. |
| DisplayText.AppendToNumeral | script.js:19-37 | Appending a digit, or a point to a numeral without one, gives a numeral. |
| Machine.Initial | script.js:5-9 | The initial state has no first operand and no operator, the reset flag off, memory 0 and degree mode on. |
| Machine.InputDigit | script.js:19-27 | The display becomes exactly `d` iff the reset flag was set or the display read "0". Otherwise it is the old value with `d` appended. The flag always ends false, and no other field changes. |
| Machine.InputDot | script.js:29-37 | After a reset the display is "0." and the flag is cleared. A display that already has a point is left unchanged. Otherwise "." is appended. The display always has a point afterwards, and no other field changes. |
| Machine.ClearAll | script.js:39-44 | Operand and operator are cleared, the flag is false and the display is "0". Memory and angle mode are kept, and the result is valid. |
| Machine.SetOperator | script.js:46-58 | The pending operator becomes `next` and the flag is set. When chaining, the first operand becomes compute(old first, old operator, displayed value) and is shown. Otherwise the first operand is the displayed value and the display is unchanged. Memory and mode are untouched, and validity is kept. |
| Machine.Equals | script.js:68-76 | It changes nothing when the operator or the first operand is missing. Otherwise it shows the formatted compute result, clears the operand and operator, and sets the flag. Validity is kept. |
| Machine.ToggleSign | script.js:78-83 | It changes nothing on "0". Otherwise it removes exactly one leading '-' when there is one and adds one when there is none. Only the display changes. |
| Machine.Percent | script.js:85-88 | The display shows the value divided by 100, or "Error" for a non-finite value. The reset flag and every other field are untouched. |
| Machine.ApplyUnary | script.js:122-127 | The display shows the formatted value of the key's closure (`Numbers.Evaluate`) on the displayed number, in the current angle mode, and the flag is set. Operand, operator, memory and mode are untouched. An error argument or an out-of-domain argument shows "Error". |
| Machine.InsertPi | script.js:161-164 | It shows pi and sets the flag. Operand and operator are untouched. |
| Machine.InsertE | script.js:166-169 | It shows e and sets the flag. Operand and operator are untouched. |
| Machine.ToggleDegRad | script.js:171-174 | It flips the angle mode and changes nothing else. |
| Machine.MemoryClear | script.js:98-100 | Memory becomes 0 and nothing else changes. |
| Machine.MemoryRecall | script.js:102-105 | It shows the memory value and sets the flag. Nothing else changes. |
| Machine.MemoryOperand | script.js:107-115 | Memory moves by the displayed value when it is finite, and by 0 otherwise. |
| Machine.MemoryAdd | script.js:107-110 | Only memory changes, and it grows by the displayed value, or by 0 for a non-finite value. |
| Machine.MemorySubtract | script.js:112-115 | Only memory changes, and it shrinks by the displayed value, or by 0 for a non-finite value. |
| Properties.InputDigitKeepsSingleDot | script.js:19-27 | A digit key never makes the display hold a second decimal point. |
| Properties.InputDotKeepsSingleDot | script.js:29-37 | The point key never makes the display hold a second decimal point. |
| Properties.ToggleSignKeepsDots | script.js:78-83 | The sign key keeps the number of decimal points. |
| Properties.InputDotIdempotent | script.js:29-37 | Pressing the point key twice gives the same state as pressing it once. |
| Properties.InputDigitKeepsNumeral | script.js:19-27 | A digit keeps the display a numeral, and a fresh number always is one. |
| Properties.InputDotKeepsNumeral | script.js:29-37 | The point key keeps the display a numeral, and "0." after a reset is one. |
| Properties.ToggleSignKeepsNumeral | script.js:78-83 | The sign key keeps the display a numeral. |
| Properties.ToggleSignTwice | script.js:78-83 | Two sign presses restore every numeral display other than "0" and "-0". |
| Properties.EqualsIdempotent | script.js:68-76 | A second `=` changes nothing. |
| Properties.SecondOperatorReplaces | script.js:46-58 | An operator key right after another only replaces the operator and re-reads the first operand from the display. Without chaining it is as if only the second key was pressed. |
| Properties.MemoryAddThenSubtract | script.js:107-115 | M+ followed by M- on the same display restores the whole state. |
| Properties.ToggleDegRadTwice | script.js:171-174 | Two DEG/RAD presses restore the state. |
| Properties.PercentErrorThenDigit | script.js:85-88 | When `percent` shows "Error" with the reset flag off, the flag stays off and the next digit gives "Error" followed by the digit. |
| Properties.ErrorIsSticky | script.js:85-88 | With "Error" shown, every scientific key and the percent key show "Error" again. |
| Properties.Press | script.js:176-267 | Every key press keeps validity. Only the memory keys change memory, and only DEG/RAD changes the angle mode. |
| Properties.Run | script.js:176-267 | Every state reached from a valid state by any key sequence is valid. |
| Properties.ReachableStatesValid | script.js:5-9 | Every state reachable from the initial state is valid. |
| Properties.TwoPlusThree | script.js:46-76 | After clear, the keys "2 + 3 =" show 5. |
| Properties.ChainWithoutPrecedence | script.js:46-76 | The keys "2 + 3 * 4 =" show 20: the operators apply left to right with no precedence. |
| Properties.MemorySurvivesClear | script.js:39-44 | The keys "7", M+, clear, MR show 7: memory survives `clearAll`. |
| Properties.InverseOfZero | script.js:137-139 | The keys "0" then inverse show "Error". |
| Properties.SqrtThenSign | script.js:129-131 | The keys "9" then square root show 3, and the sign key then shows "-3". |
| CalculatorApp.Calculator.constructor | script.js:5-9 | The object starts in the initial state and is valid. |
| CalculatorApp.Calculator.UpdateDisplay | script.js:11-13 | Only the display changes, and it becomes `text`. |
| CalculatorApp.Calculator.GetDisplayValue | script.js:15-17 | It reads the display as the state machine's current value. |
| CalculatorApp.Calculator.InputDigit | script.js:19-27 | It updates the fields in place as Machine.InputDigit does and keeps validity. |
| CalculatorApp.Calculator.InputDot | script.js:29-37 | It updates the fields in place as Machine.InputDot does and keeps validity. |
| CalculatorApp.Calculator.ClearAll | script.js:39-44 | It updates the fields in place as Machine.ClearAll does and keeps validity. |
| CalculatorApp.Calculator.SetOperator | script.js:46-58 | It updates the fields in place as Machine.SetOperator does and keeps validity. |
| CalculatorApp.Calculator.Equals | script.js:68-76 | It updates the fields in place as Machine.Equals does and keeps validity. |
| CalculatorApp.Calculator.ToggleSign | script.js:78-83 | It updates the fields in place as Machine.ToggleSign does and keeps validity. |
| CalculatorApp.Calculator.Percent | script.js:85-88 | It updates the fields in place as Machine.Percent does and keeps validity. |
| CalculatorApp.Calculator.MemoryClear | script.js:98-100 | It updates the fields in place as Machine.MemoryClear does and keeps validity. |
| CalculatorApp.Calculator.MemoryRecall | script.js:102-105 | It updates the fields in place as Machine.MemoryRecall does and keeps validity. |
| CalculatorApp.Calculator.MemoryAdd | script.js:107-110 | It updates the fields in place as Machine.MemoryAdd does and keeps validity. |
| CalculatorApp.Calculator.MemorySubtract | script.js:112-115 | It updates the fields in place as Machine.MemorySubtract does and keeps validity. |
| CalculatorApp.Calculator.ApplyUnaryOperation | script.js:122-159 | It updates the fields in place as Machine.ApplyUnary does for the key's closure and keeps validity. |
| CalculatorApp.Calculator.InsertPi | script.js:161-164 | It updates the fields in place as Machine.InsertPi does and keeps validity. |
| CalculatorApp.Calculator.InsertE | script.js:166-169 | It updates the fields in place as Machine.InsertE does and keeps validity. |
| CalculatorApp.Calculator.ToggleDegRad | script.js:171-174 | It updates the fields in place as Machine.ToggleDegRad does and keeps validity. |
| CalculatorApp.AddTwoAndThree | script.js:19-76 | A client using only the method contracts: "2 + 3 =" leaves 5 on the display. |

## Left out

- The DOM: `document.getElementById`, `querySelector` and writing `textContent`. The display is the string field `display`, and `updateDisplay` assigns it. Listening for clicks and keys is also left out. `Properties.Press` models only which operation each control and key triggers.
- The DEG/RAD button label (script.js:173). It is output to the page only.
- Floating point. Numbers are exact reals, so there is no rounding, no overflow to an infinity, and no negative zero. `NaN` is the only non-finite value, and "Error" shows it. Overflow, for example squaring a very large number, is not modelled. A display that parses to an infinity (a very long run of nines) is covered only in that `parseFloat` may return `NaN` for it: `percent` then shows "Error" and keeps the reset flag off, as `Properties.PercentErrorThenDigit` states.
- `parseFloat` and the finite branch of `formatNumber` (`toFixed(10)`, `String`, stripping a trailing ".0"). They are parameters of `Platform`, and the model states nothing about them beyond what each scenario lemma assumes and what `Properties.ErrorIsSticky` assumes (`parseFloat("Error")` is NaN, as in JavaScript). So `formatNumber` being idempotent and the "0.1 + 0.2" rounding are not stated.
- `Math.sqrt`, `sin`, `cos`, `tan`, `log`, `log10`, `Math.PI` and `Math.E` are abstract functions and constants of `MathLibrary`. Only the guards around them are modelled. The run-time fallback from `Math.log10` to `Math.log(x) / Math.LN10` is one abstract `log10`.
- The eight key functions `sqrt` through `log10` are not separate methods. Each is `ApplyUnaryOperation` with its `UnaryOp` tag, and `Numbers.Evaluate` gives that tag's closure.
- Machine.SetOperator: it requires `Valid`, the invariant every reachable state has (Properties.ReachableStatesValid). The source never reaches a pending operator without a first operand, so `compute(null, …)` is not modelled.
- Properties.ToggleSignTwice: it is stated for numeral displays only. On a display such as "--5" or "-", which digit entry cannot produce, two presses do not restore the text.
