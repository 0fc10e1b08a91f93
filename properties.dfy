/** Properties that relate several key presses: entry keeps the display a
    numeral with one point at most, idempotent and self-inverse keys, the
    operator chain, memory round trips, the sticky error, and the scenarios
    the calculator is meant to reproduce. */
module Properties {
  import opened Optional
  import opened Numbers
  import opened DisplayText
  import opened Machine

  // ---- Digit entry and the display text ----

  lemma CurrentDots(s: State)
    ensures Dots(Current(s)) == Dots(s.display)
  {
  }

  /** A digit never brings in a second decimal point. */
  lemma InputDigitKeepsSingleDot(s: State, d: string)
    requires IsDigitKey(d)
    requires SingleDot(s.display)
    ensures SingleDot(InputDigit(s, d).display)
  {
    var r := InputDigit(s, d);
    assert Dots(d) == 0 by { assert d[1..] == []; }
    if r.display != d {
      CurrentDots(s);
      DotsAppend(Current(s), d);
    }
  }

  /** The point key never brings in a second decimal point. */
  lemma InputDotKeepsSingleDot(s: State)
    requires SingleDot(s.display)
    ensures SingleDot(InputDot(s).display)
  {
    var r := InputDot(s);
    if s.shouldReset {
      assert Dots("0.") == 1 by { assert "0."[1..] == "."; assert "."[1..] == []; }
    } else if '.' !in Current(s) {
      DotsCountsIncludes(Current(s));
      DotsAppend(Current(s), ".");
      assert Dots(".") == 1 by { assert "."[1..] == []; }
    }
  }

  /** The sign key never changes the number of decimal points. */
  lemma ToggleSignKeepsDots(s: State)
    ensures Dots(ToggleSign(s).display) == Dots(s.display)
  {
  }

  /** A second press of the point key changes nothing. */
  lemma InputDotIdempotent(s: State)
    ensures InputDot(InputDot(s)) == InputDot(s)
  {
  }

  /** Digit entry keeps a numeral display a numeral, and a fresh number
      (after an operator or result) always is one. */
  lemma InputDigitKeepsNumeral(s: State, d: string)
    requires IsDigitKey(d)
    requires IsNumeral(Current(s)) || s.shouldReset
    ensures IsNumeral(Current(InputDigit(s, d)))
  {
    var r := InputDigit(s, d);
    if r.display == d {
      assert Dots(d) == 0 by { assert d[1..] == []; }
      assert IsUnsignedNumeral(d);
    } else {
      AppendToNumeral(Current(s), d);
    }
  }

  lemma InputDotKeepsNumeral(s: State)
    requires IsNumeral(Current(s)) || s.shouldReset
    ensures IsNumeral(Current(InputDot(s)))
  {
    if s.shouldReset {
      assert Dots("0.") == 1 by { assert "0."[1..] == "."; assert "."[1..] == []; }
      assert IsUnsignedNumeral("0.");
    } else if '.' !in Current(s) {
      AppendToNumeral(Current(s), ".");
    }
  }

  lemma ToggleSignKeepsNumeral(s: State)
    requires IsNumeral(Current(s))
    ensures IsNumeral(Current(ToggleSign(s)))
  {
    var c := Current(s);
    if c != "0" && !StartsWithMinus(c) {
      assert ("-" + c)[1..] == c;
    }
  }

  /** Two presses of the sign key give back the display, for every numeral
      other than "0" and "-0" (on "-0" the first press gives "0", where the
      key does nothing). */
  lemma ToggleSignTwice(s: State)
    requires IsNumeral(Current(s))
    requires Current(s) != "0" && Current(s) != "-0"
    ensures ToggleSign(ToggleSign(s)) == s
  {
  }

  // ---- Operators, equals and the invariant ----

  /** A second press of `=` changes nothing: the first one cleared the
      pending operation. */
  lemma EqualsIdempotent(s: State, p: Platform)
    ensures Equals(Equals(s, p), p) == Equals(s, p)
  {
  }

  /** Pressing a second operator key straight after the first does not
      compute anything: it replaces the pending operator and re-reads the
      first operand from the display. Without chaining, the first key leaves
      no trace. */
  lemma SecondOperatorReplaces(s: State, first: string, second: string, p: Platform)
    requires Valid(s)
    ensures var r1 := SetOperator(s, first, p);
            SetOperator(r1, second, p)
            == r1.(firstOperand := Some(CurrentValue(r1, p)), operator := Some(second))
    ensures !Chains(s) ==> SetOperator(SetOperator(s, first, p), second, p) == SetOperator(s, second, p)
  {
  }

  /** Memory add followed by memory subtract, on the same display, leaves
      the whole state as it was. */
  lemma MemoryAddThenSubtract(s: State, p: Platform)
    ensures MemorySubtract(MemoryAdd(s, p), p) == s
  {
  }

  /** Two presses of the DEG/RAD key give back the angle mode. */
  lemma ToggleDegRadTwice(s: State)
    ensures ToggleDegRad(ToggleDegRad(s)) == s
  {
  }

  /** Once "Error" is shown, every scientific key and the percent key show
      it again: only `clearAll`, or a digit while the reset flag is set,
      leaves the error. */
  lemma ErrorIsSticky(s: State, op: UnaryOp, p: Platform)
    requires p.parseFloat(ERROR) == NaN
    requires s.display == ERROR
    ensures ApplyUnary(s, op, p).display == ERROR
    ensures Percent(s, p).display == ERROR
  {
  }

  /** When `percent` shows "Error" it leaves the reset flag off, so the
      next digit is appended to the error text ("Error7") instead of
      starting a fresh number. */
  lemma PercentErrorThenDigit(s: State, d: string, p: Platform)
    requires CurrentValue(s, p).NaN? && !s.shouldReset
    ensures Percent(s, p).display == ERROR && !Percent(s, p).shouldReset
    ensures InputDigit(Percent(s, p), d).display == ERROR + d
  {
  }

  // ---- Key sequences ----

  /** One press of each control the page offers, as the click handler and
      the keyboard handler dispatch them. */
  datatype Key =
    | Digit(d: string) | Dot | Clear | Operator(name: string) | EqualsKey
    | Sign | PercentKey | Scientific(op: UnaryOp) | Pi | E | DegRad
    | MemClear | MemRecall | MemPlus | MemMinus

  function Press(s: State, k: Key, p: Platform): (r: State)
    requires Valid(s)
    ensures Valid(r)
    ensures r.memoryValue != s.memoryValue ==> k.MemClear? || k.MemPlus? || k.MemMinus?
    ensures r.isDegreesMode != s.isDegreesMode ==> k.DegRad?
  {
    match k
    case Digit(d) => InputDigit(s, d)
    case Dot => InputDot(s)
    case Clear => ClearAll(s)
    case Operator(name) => SetOperator(s, name, p)
    case EqualsKey => Equals(s, p)
    case Sign => ToggleSign(s)
    case PercentKey => Percent(s, p)
    case Scientific(op) => ApplyUnary(s, op, p)
    case Pi => InsertPi(s, p)
    case E => InsertE(s, p)
    case DegRad => ToggleDegRad(s)
    case MemClear => MemoryClear(s)
    case MemRecall => MemoryRecall(s, p)
    case MemPlus => MemoryAdd(s, p)
    case MemMinus => MemorySubtract(s, p)
  }

  /** The state after a sequence of key presses, one transition each. Every
      state reached from a valid one is valid: there is never a first
      operand without an operator or an operator without a first operand. */
  function Run(s: State, keys: seq<Key>, p: Platform): (r: State)
    requires Valid(s)
    ensures Valid(r)
    decreases |keys|
  {
    if keys == [] then s else Run(Press(s, keys[0], p), keys[1..], p)
  }

  /** Every state the calculator reaches from its initial state is valid. */
  lemma ReachableStatesValid(text: string, keys: seq<Key>, p: Platform)
    ensures Valid(Run(Initial(text), keys, p))
  {
  }

  // ---- Scenarios ----

  /** "2", "+", "3", "=" shows 5. */
  lemma TwoPlusThree(s: State, p: Platform)
    requires p.parseFloat("2") == Finite(2.0) && p.parseFloat("3") == Finite(3.0)
    ensures Run(ClearAll(s), [Digit("2"), Operator(ADD), Digit("3"), EqualsKey], p).display
            == p.formatFinite(5.0)
  {
    var s0 := ClearAll(s);
    var s1 := InputDigit(s0, "2");
    var s2 := SetOperator(s1, ADD, p);
    assert s2.firstOperand == Some(Finite(2.0));
    var s3 := InputDigit(s2, "3");
    assert s3.display == "3";
    var s4 := Equals(s3, p);
    var keys := [Digit("2"), Operator(ADD), Digit("3"), EqualsKey];
    calc {
      Run(s0, keys, p);
      Run(s1, keys[1..], p);
      Run(s2, keys[2..], p);
      Run(s3, keys[3..], p);
      Run(s4, keys[4..], p);
    }
  }

  /** "2", "+", "3", "*", "4", "=" shows 20: operators chain left to right,
      (2 + 3) * 4, with no precedence of "*" over "+". */
  lemma ChainWithoutPrecedence(s: State, p: Platform)
    requires p.parseFloat("2") == Finite(2.0) && p.parseFloat("3") == Finite(3.0)
    requires p.parseFloat("4") == Finite(4.0)
    ensures Run(ClearAll(s), [Digit("2"), Operator(ADD), Digit("3"), Operator(MULTIPLY),
                              Digit("4"), EqualsKey], p).display
            == p.formatFinite(20.0)
  {
    var keys := [Digit("2"), Operator(ADD), Digit("3"), Operator(MULTIPLY), Digit("4"), EqualsKey];
    var s0 := ClearAll(s);
    var s1 := InputDigit(s0, "2");
    var s2 := SetOperator(s1, ADD, p);
    var s3 := InputDigit(s2, "3");
    var s4 := SetOperator(s3, MULTIPLY, p);
    assert s4.firstOperand == Some(Finite(5.0));
    assert s4.display == p.formatFinite(5.0);
    var s5 := InputDigit(s4, "4");
    assert s5.display == "4";
    var s6 := Equals(s5, p);
    assert s6.display == p.formatFinite(20.0);
    calc {
      Run(s0, keys, p);
      Run(s1, keys[1..], p);
      Run(s2, keys[2..], p);
      Run(s3, keys[3..], p);
      Run(s4, keys[4..], p);
      Run(s5, keys[5..], p);
      Run(s6, keys[6..], p);
    }
  }

  /** "7", memory add, clear, memory recall shows 7: the register survives
      `clearAll`. */
  lemma MemorySurvivesClear(s: State, p: Platform)
    requires Valid(s)
    requires p.parseFloat("7") == Finite(7.0)
    ensures Run(s, [MemClear, Clear, Digit("7"), MemPlus, Clear, MemRecall], p).display
            == p.formatFinite(7.0)
  {
  }

  /** "0", inverse shows "Error". */
  lemma InverseOfZero(s: State, p: Platform)
    requires p.parseFloat("0") == Finite(0.0)
    ensures Run(ClearAll(s), [Digit("0"), Scientific(Inverse)], p).display == ERROR
  {
    var keys := [Digit("0"), Scientific(Inverse)];
    var s0 := ClearAll(s);
    var s1 := InputDigit(s0, "0");
    var s2 := ApplyUnary(s1, Inverse, p);
    calc {
      Run(s0, keys, p);
      Run(s1, keys[1..], p);
      Run(s2, keys[2..], p);
    }
  }

  /** "9", square root shows 3, and the sign key then shows "-3" (for a
      library and formatter that give 3 and "3"). */
  lemma SqrtThenSign(s: State, p: Platform)
    requires p.parseFloat("9") == Finite(9.0)
    requires p.math.sqrt(9.0) == 3.0 && p.formatFinite(3.0) == "3"
    ensures Run(ClearAll(s), [Digit("9"), Scientific(Sqrt)], p).display == "3"
    ensures Run(ClearAll(s), [Digit("9"), Scientific(Sqrt), Sign], p).display == "-3"
  {
    var keys := [Digit("9"), Scientific(Sqrt), Sign];
    var s0 := ClearAll(s);
    var s1 := InputDigit(s0, "9");
    var s2 := ApplyUnary(s1, Sqrt, p);
    assert s2.display == "3";
    var s3 := ToggleSign(s2);
    assert s3.display == "-3";
    var first := keys[..2];
    calc {
      Run(s0, first, p);
      Run(s1, first[1..], p);
      Run(s2, first[2..], p);
    }
    calc {
      Run(s0, keys, p);
      Run(s1, keys[1..], p);
      Run(s2, keys[2..], p);
      Run(s3, keys[3..], p);
    }
  }
}
