/** The calculator window's event handlers. The display text is a string
    field; the engine is the `CalculatorOperations` object the window builds
    once and keeps. Python's `float()` and `str()` are the window's `parse`
    and `format`. Each handler is specified by the matching transition of
    module Transitions. */
module CalculatorGui {
  import opened Operations
  import Transitions

  class CalculatorApp {
    var display: string
    const calculator: CalculatorOperations
    const parse: string -> Option<real>
    const format: real -> string

    /** The display and the engine's fields, as one value. */
    ghost function View(): Transitions.Snapshot
      reads this, calculator
    {
      Transitions.Snapshot(display, calculator.State())
    }

    /** The parts of window construction that matter to the handlers: a new
        engine and a display reading "0". */
    constructor (parse: string -> Option<real>, format: real -> string)
      ensures View() == Transitions.Start && fresh(calculator)
      ensures this.parse == parse && this.format == format
    {
      this.parse := parse;
      this.format := format;
      calculator := new CalculatorOperations();
      display := "0";
    }

    method OnDigitClick(digit: char)
      modifies this, calculator
      ensures View() == Transitions.Digit(old(View()), digit)
    {
      var current := display;
      if current == "0" || calculator.resetNextInput {
        current := "";
        calculator.resetNextInput := false;
        calculator.hasDecimal := false;
      }
      display := current + [digit];
    }

    method OnDecimalClick()
      modifies this, calculator
      ensures View() == Transitions.Decimal(old(View()))
    {
      var current := display;
      if calculator.resetNextInput {
        current := "0";
        calculator.resetNextInput := false;
        calculator.hasDecimal := false;
      }
      if '.' !in current && !calculator.hasDecimal {
        display := current + ".";
        calculator.hasDecimal := true;
      }
    }

    method OnOperatorClick(op: char)
      modifies this, calculator
      ensures View() == Transitions.Operator(old(View()), op, parse, format)
    {
      var value := Transitions.ParseOrZero(parse, display);
      if calculator.operation.Some? && !calculator.resetNextInput {
        var result := Calculate(calculator.currentValue, value, calculator.operation.value);
        display := Transitions.Show(format, result);
        calculator.currentValue := if result.Ok? then result.value else 0.0;
      } else {
        calculator.currentValue := value;
      }
      calculator.operation := Some(op);
      calculator.resetNextInput := true;
      calculator.hasDecimal := false;
    }

    method OnEqualsClick()
      modifies this, calculator
      ensures View() == Transitions.Equals(old(View()), parse, format)
    {
      var value := Transitions.ParseOrZero(parse, display);
      if calculator.operation.Some? {
        var result := Calculate(calculator.currentValue, value, calculator.operation.value);
        display := Transitions.Show(format, result);
        calculator.currentValue := if result.Ok? then result.value else 0.0;
        calculator.operation := None;
        calculator.resetNextInput := true;
        calculator.hasDecimal := '.' in Transitions.Show(format, result);
      }
    }

    method OnClearClick()
      modifies this, calculator
      ensures View() == Transitions.Clear(old(View()))
    {
      display := calculator.Clear();
    }
  }

  /** Pressing the point button twice in a row on the window: the second
      press leaves the display and every flag as the first left them. */
  method PointTwice(app: CalculatorApp)
    modifies app, app.calculator
    ensures app.View() == Transitions.Decimal(old(app.View()))
  {
    app.OnDecimalClick();
    ghost var afterOne := app.View();
    app.OnDecimalClick();
    Transitions.DecimalTwiceIsDecimalOnce(old(app.View()));
    assert app.View() == afterOne;
  }
}
