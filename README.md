# Simple_Calc: a verified model of the calculator's state machine

The calculator is a window with a display and seventeen buttons: ten digits,
a point, four operators (`+`, `-`, `×`, `÷`), equals and clear. Sixteen of
them form the grid; clear sits beside the display. Behind the
buttons sits a small engine, `CalculatorOperations`. It has four fields:
the first operand (`current_value`), the pending operator (`operation`), a
flag saying that the next digit starts a new number (`reset_next_input`),
and a flag saying that the number being typed already has a point
(`has_decimal`). Each button handler reads the display text, reads and
updates the engine's fields, and writes new display text. `calculate`
applies one operator to two operands. Division by zero gives the `"Error"`
sentinel, and an unknown operator gives back the second operand.

The model has three modules:

- `Operations` (operations.dfy) holds the engine. `Calculate` is a pure
  function with a tagged result `Ok(real) | Error`. The class
  `CalculatorOperations` has the four fields, a constructor and `Clear`.
- `Transitions` (transitions.dfy) describes each handler as a function on a
  `Snapshot`, which is the display text plus the engine's fields. It also
  describes a run of button presses, the invariant every reachable state
  keeps, and worked key sequences.
- `CalculatorGui` (gui.dfy) holds the class `CalculatorApp`. Its `display`
  field is a string and its `calculator` field is the engine object. Its five
  handler methods update these fields in place. Each method's postcondition
  equates the new snapshot with the matching `Transitions` function applied
  to the old one.

Two Python built-ins become parameters of the window:

- `parse` stands for `float()`. It has type `string -> Option<real>`, where
  `None` is the `ValueError` that the handlers catch and read as 0.
- `format` stands for `str()` on a number. It has type `real -> string`. The
  `Error` result is always shown as the text `"Error"`.

Two details of the source that the model keeps:

- Subtraction is the ASCII hyphen `-` in `calculate` (operations.py:26) and
  on its button (GUI_Calc.py:64, 70).
- After an operator or equals, the point handler writes `"0."` in one step;
  the display never shows a `"0"` in between (GUI_Calc.py:123-130).

## Model

| member | source | states |
|---|---|---|
| `Operations.Calculate` | operations.py:14-32 | the result is `Error` exactly when the operator is `÷` and the second operand is 0; `+`, `-`, `×` give the sum, difference and product; `÷` by a non-zero operand gives the number that multiplied by it is the first operand; any other operator gives the second operand unchanged; it takes no engine state |
| `Operations.SubtractUndoesAdd` | operations.py:24-27 | evaluating `a + b` and then subtracting `b` gives back `a` |
| `Operations.DivideUndoesMultiply` | operations.py:28-31 | for a non-zero `b`, multiplying by `b` and then dividing by `b` gives back `a`, and so does the reverse order |
| `Operations.CalculatorOperations.constructor` | operations.py:7-12 | a new engine has first operand 0, no pending operator and both flags false |
| `Operations.CalculatorOperations.Clear` | operations.py:34-44 | returns `"0"` and leaves the engine in exactly the state of a newly built one, whatever the state was before |
| `Operations.ClearIsIdempotent` | operations.py:40-44 | two calls of clear return the same `"0"` and leave the same state as one call, and that state is the state after construction |
| `Transitions.ParseOrZero` | GUI_Calc.py:135-138 | the parsed display value, or 0 when the text does not parse |
| `Transitions.Show` | GUI_Calc.py:147 | the `Error` result is shown as `"Error"`; a number is shown as its formatted text |
| `Transitions.Accumulated` | GUI_Calc.py:148 | the first operand kept after an evaluation is the result, or 0 in place of `Error` |
| `Transitions.Digit` | GUI_Calc.py:111-118 | on a display of `"0"` or a pending reset the display becomes the digit alone and both flags become false; otherwise the digit is appended and the flags are unchanged; operand and operator are never touched |
| `Transitions.Decimal` | GUI_Calc.py:120-131 | with a pending reset the display becomes `"0."`, reset becomes false and `has_decimal` true; with no reset and a point already shown or flagged nothing changes; otherwise `"."` is appended and `has_decimal` becomes true |
| `Transitions.Operator` | GUI_Calc.py:133-155 | the pending operator becomes the pressed one, reset becomes true and `has_decimal` false; with no operator pending or a reset pending, the display is unchanged and the first operand becomes the parsed display (0 if unparseable); otherwise the display shows `calculate(operand, parsed, pending)` and the first operand becomes that result, or 0 on `Error` |
| `Transitions.Equals` | GUI_Calc.py:157-174 | with no operator pending nothing changes; otherwise the display shows the result of the pending operation, the first operand becomes the result (0 on `Error`), no operator is pending, reset is true and `has_decimal` holds exactly when the shown text contains a point |
| `Transitions.Clear` | GUI_Calc.py:176-178 | the display reads `"0"` and the engine is in its initial state |
| `Transitions.Press` | GUI_Calc.py:68-105 | each button calls exactly its own handler: a digit the digit handler with that digit, the point, an operator (with its symbol), equals and clear theirs; a clear press always ends in the starting window |
| `Transitions.Run` | GUI_Calc.py:184 | the event loop handles presses one at a time, in order: no presses change nothing, one press is one handler call, and any run whose last press is clear ends in the starting window whatever came before |
| `Transitions.RunConcat` | GUI_Calc.py:184 | handling one batch of presses and then another gives the same state as handling all of them in order |
| `Transitions.ClearIdempotent` | GUI_Calc.py:176-178 | pressing clear twice gives the same state as pressing it once, and that state is the window's starting state |
| `Transitions.DecimalTwiceIsDecimalOnce` | GUI_Calc.py:120-131 | a second consecutive press of the point button changes nothing, so it never adds a second point |
| `Transitions.PressKeepsConsistent` | GUI_Calc.py:111-178 | every button press keeps two facts: the pending operator is one of the four, and while a number is being typed the display is a well-formed number (digit first, at most one point, no leading zero before a digit) whose point `has_decimal` tracks exactly |
| `Transitions.RunKeepsConsistent` | GUI_Calc.py:111-178 | any sequence of button presses keeps those two facts |
| `Transitions.ReachableStatesAreConsistent` | GUI_Calc.py:61-105 | starting from a new window and pressing any buttons, the number being typed never has a second point or a leading zero, and `calculate` is only ever called with one of the four operators, so its fall-back branch is never taken |
| `Transitions.PressKeepsSameButPointFlag` | GUI_Calc.py:111-178 | two states that differ only in `has_decimal` while a reset is pending stay that close after any press |
| `Transitions.RunKeepsSameButPointFlag` | GUI_Calc.py:111-178 | the same holds after any sequence of presses |
| `Transitions.EqualsPointFlagIsUnobservable` | GUI_Calc.py:174 | the `has_decimal` value that equals computes from the result text never changes what the display shows afterwards, whatever is pressed next |
| `Transitions.FivePlusThree` | GUI_Calc.py:133-174 | pressing 5 + 3 = shows the number 8, keeps 8 as the first operand and leaves no operator pending |
| `Transitions.SixDividedByZero` | GUI_Calc.py:133-174 | pressing 6 ÷ 0 = shows `"Error"`, sets the first operand to 0 and leaves no operator pending |
| `Transitions.TwoPointFivePlusOne` | GUI_Calc.py:111-174 | pressing 2 . 5 + 1 = shows the number 3.5 and keeps 3.5 as the first operand |
| `Transitions.PlusThenEquals` | GUI_Calc.py:133-174 | pressing + = on a new window reads the display `"0"` as 0 for both operands and shows the number 0 |
| `Transitions.ErrorThenPlusEquals` | GUI_Calc.py:135-171 | after 6 ÷ 0 = shows `"Error"`, pressing + reads that text as 0 because it does not parse, and = then shows the number 0 with no operator pending |
| `CalculatorGui.CalculatorApp.constructor` | GUI_Calc.py:20-44 | the window starts with display `"0"` and a newly built engine |
| `CalculatorGui.CalculatorApp.OnDigitClick` | GUI_Calc.py:111-118 | updates the display and the engine's flags in place exactly as `Transitions.Digit` describes |
| `CalculatorGui.CalculatorApp.OnDecimalClick` | GUI_Calc.py:120-131 | updates the display and the engine's flags in place exactly as `Transitions.Decimal` describes |
| `CalculatorGui.CalculatorApp.OnOperatorClick` | GUI_Calc.py:133-155 | updates the display and all four engine fields in place exactly as `Transitions.Operator` describes |
| `CalculatorGui.CalculatorApp.OnEqualsClick` | GUI_Calc.py:157-174 | updates the display and all four engine fields in place exactly as `Transitions.Equals` describes |
| `CalculatorGui.CalculatorApp.OnClearClick` | GUI_Calc.py:176-178 | shows what the engine's clear returns and leaves the engine in its initial state |
| `CalculatorGui.PointTwice` | GUI_Calc.py:120-131 | two point presses on the window leave it in the state one press leaves it in |

## Left out

- Window construction is not part of this model. That covers `CalculatorApp.__init__` apart from building the engine and showing `"0"`, and it covers `setup_display`, `setup_buttons` and the `__main__` block. All of it is Tk layout and callback wiring. The wiring appears as the `Key` datatype, the `IsButton` predicate and the `Press` function, which name the seventeen buttons and the handler each one calls.
- Operations.SubtractUndoesAdd: holds for the model's exact reals only. With the program's floats it can fail; for example 0.1 + 0.2 - 0.2 gives 0.10000000000000003.
- Operations.DivideUndoesMultiply: holds for the model's exact reals only. With the program's floats it can fail through rounding or overflow; for example 1e308 × 10 gives `inf`, and `inf` ÷ 10 stays `inf`.
- Floating point is not modelled. Numbers are exact reals, so IEEE-754 rounding, overflow to `inf` and `nan` do not arise.
- `float()` and `str()` are not modelled beyond their role here. Both are parameters. The model assumes only that a failed parse reads as 0 and that the `Error` result shows as `"Error"`. The worked key sequences state the parses they rely on as preconditions, for example that `"5"` parses as 5, and that `"Error"` does not parse where the recovery after an error is shown (`ErrorThenPlusEquals`). Other lemmas hold for every `parse`.
- Python's distinction between the integer 0 and the float 0.0 is not modelled. The source keeps the integer 0 in three places: after clear (operations.py:40), after a failed parse (GUI_Calc.py:138, 162), and in place of an `"Error"` result (GUI_Calc.py:148, 171). In those cases `str()` prints `0` rather than `0.0`; for example 6 ÷ 0 = followed by + = shows `0`. The model has a single `format` on reals.
- Python's dynamic typing of the `"Error"` sentinel is replaced by the tagged result `CalcResult`.
- Button labels are single characters (`char`), not arbitrary Python strings. So the case of an empty operator string, which Python treats as false in `if self.calculator.operation`, is not modelled. The window never produces it.
