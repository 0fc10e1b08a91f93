/** The calculator as the page runs it: one object whose fields are the
    closure's mutable variables and the display text, updated in place by
    one method per key. Each method is proved to carry out the matching
    transition of module Machine and to keep the operand/operator invariant. */
module CalculatorApp {
  import opened Optional
  import opened Numbers
  import opened DisplayText
  import M = Machine

  class Calculator {
    const platform: M.Platform

    var display: string
    var firstOperand: Option<Num>
    var operator: Option<string>
    var shouldReset: bool
    var memoryValue: real
    var isDegreesMode: bool

    /** The fields as one value of the state machine. */
    function State(): M.State
      reads this
    {
      M.State(display, firstOperand, operator, shouldReset, memoryValue, isDegreesMode)
    }

    predicate Valid()
      reads this
    {
      M.Valid(State())
    }

    /** The closure's initial values, with the text the page shows first. */
    constructor (platform: M.Platform, text: string)
      ensures Valid()
      ensures this.platform == platform
      ensures State() == M.Initial(text)
    {
      this.platform := platform;
      display := text;
      firstOperand := None;
      operator := None;
      shouldReset := false;
      memoryValue := 0.0;
      isDegreesMode := true;
    }

    function GetDisplayValue(): (t: string)
      reads this
      ensures t == M.Current(State())
    {
      DisplayValue(display)
    }

    method UpdateDisplay(text: string)
      modifies this
      ensures State() == old(State()).(display := text)
    {
      display := text;
    }

    method InputDigit(d: string)
      requires Valid()
      modifies this
      ensures Valid()
      ensures State() == M.InputDigit(old(State()), d)
    {
      var current := GetDisplayValue();
      if shouldReset || current == "0" {
        UpdateDisplay(d);
        shouldReset := false;
      } else {
        UpdateDisplay(current + d);
      }
    }

    method InputDot()
      requires Valid()
      modifies this
      ensures Valid()
      ensures State() == M.InputDot(old(State()))
    {
      var current := GetDisplayValue();
      if shouldReset {
        UpdateDisplay("0.");
        shouldReset := false;
        return;
      }
      if '.' !in current {
        UpdateDisplay(current + ".");
      }
    }

    method ClearAll()
      requires Valid()
      modifies this
      ensures Valid()
      ensures State() == M.ClearAll(old(State()))
    {
      firstOperand := None;
      operator := None;
      shouldReset := false;
      UpdateDisplay("0");
    }

    method SetOperator(nextOperator: string)
      requires Valid()
      modifies this
      ensures Valid()
      ensures State() == M.SetOperator(old(State()), nextOperator, platform)
    {
      var currentVal := platform.parseFloat(GetDisplayValue());
      if operator.Some? && operator.value != "" && !shouldReset {
        var result := Compute(firstOperand.value, operator.value, currentVal);
        UpdateDisplay(FormatNumber(result, platform.formatFinite));
        firstOperand := Some(result);
      } else {
        firstOperand := Some(currentVal);
      }
      operator := Some(nextOperator);
      shouldReset := true;
    }

    method Equals()
      requires Valid()
      modifies this
      ensures Valid()
      ensures State() == M.Equals(old(State()), platform)
    {
      if operator.None? || firstOperand.None? {
        return;
      }
      var secondOperand := platform.parseFloat(GetDisplayValue());
      var result := Compute(firstOperand.value, operator.value, secondOperand);
      UpdateDisplay(FormatNumber(result, platform.formatFinite));
      firstOperand := None;
      operator := None;
      shouldReset := true;
    }

    method ToggleSign()
      requires Valid()
      modifies this
      ensures Valid()
      ensures State() == M.ToggleSign(old(State()))
    {
      var current := GetDisplayValue();
      if current == "0" {
        return;
      }
      if StartsWithMinus(current) {
        UpdateDisplay(current[1..]);
      } else {
        UpdateDisplay("-" + current);
      }
    }

    method Percent()
      requires Valid()
      modifies this
      ensures Valid()
      ensures State() == M.Percent(old(State()), platform)
    {
      var current := platform.parseFloat(GetDisplayValue());
      UpdateDisplay(FormatNumber(Quotient(current, Finite(100.0)), platform.formatFinite));
    }

    method MemoryClear()
      requires Valid()
      modifies this
      ensures Valid()
      ensures State() == M.MemoryClear(old(State()))
    {
      memoryValue := 0.0;
    }

    method MemoryRecall()
      requires Valid()
      modifies this
      ensures Valid()
      ensures State() == M.MemoryRecall(old(State()), platform)
    {
      UpdateDisplay(FormatNumber(Finite(memoryValue), platform.formatFinite));
      shouldReset := true;
    }

    method MemoryAdd()
      requires Valid()
      modifies this
      ensures Valid()
      ensures State() == M.MemoryAdd(old(State()), platform)
    {
      var current := platform.parseFloat(GetDisplayValue());
      memoryValue := memoryValue + (if current.Finite? then current.value else 0.0);
    }

    method MemorySubtract()
      requires Valid()
      modifies this
      ensures Valid()
      ensures State() == M.MemorySubtract(old(State()), platform)
    {
      var current := platform.parseFloat(GetDisplayValue());
      memoryValue := memoryValue - (if current.Finite? then current.value else 0.0);
    }

    /** `applyUnaryOperation` with the closure of the scientific key `op`
        (`sqrt`, `square`, `inverse`, `sine`, `cosine`, `tangent`, `ln`,
        `log10`). */
    method ApplyUnaryOperation(op: UnaryOp)
      requires Valid()
      modifies this
      ensures Valid()
      ensures State() == M.ApplyUnary(old(State()), op, platform)
    {
      var current := platform.parseFloat(GetDisplayValue());
      var result := Evaluate(op, current, isDegreesMode, platform.math);
      UpdateDisplay(FormatNumber(result, platform.formatFinite));
      shouldReset := true;
    }

    method InsertPi()
      requires Valid()
      modifies this
      ensures Valid()
      ensures State() == M.InsertPi(old(State()), platform)
    {
      UpdateDisplay(FormatNumber(Finite(platform.math.pi), platform.formatFinite));
      shouldReset := true;
    }

    method InsertE()
      requires Valid()
      modifies this
      ensures Valid()
      ensures State() == M.InsertE(old(State()), platform)
    {
      UpdateDisplay(FormatNumber(Finite(platform.math.e), platform.formatFinite));
      shouldReset := true;
    }

    method ToggleDegRad()
      requires Valid()
      modifies this
      ensures Valid()
      ensures State() == M.ToggleDegRad(old(State()))
    {
      isDegreesMode := !isDegreesMode;
    }
  }

  /** A session on the page: "2", "+", "3", "=" leaves 5 on the display,
      with nothing pending and the next digit starting a fresh number. */
  method AddTwoAndThree(platform: M.Platform, text: string) returns (shown: string)
    requires platform.parseFloat("2") == Finite(2.0) && platform.parseFloat("3") == Finite(3.0)
    ensures shown == platform.formatFinite(5.0)
  {
    var c := new Calculator(platform, text);
    c.ClearAll();
    c.InputDigit("2");
    c.SetOperator(ADD);
    c.InputDigit("3");
    c.Equals();
    assert c.firstOperand.None? && c.operator.None? && c.shouldReset;
    shown := c.display;
  }
}
