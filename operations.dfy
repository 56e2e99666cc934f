/** The calculator engine: the one-step arithmetic of `calculate` and the
    four fields that the input handlers read and update. */
module Operations {

  datatype Option<T> = None | Some(value: T)

  /** What `calculate` returns: a number, or the "Error" sentinel that the
      engine produces for a division by zero. */
  datatype CalcResult = Ok(value: real) | Error

  /** The four operator buttons. The engine compares against exactly these
      characters: an ASCII hyphen for subtraction, U+00D7 and U+00F7 for
      multiplication and division. */
  const Plus: char := '+'
  const Minus: char := '-'
  const Times: char := '\U{00D7}'
  const Divide: char := '\U{00F7}'

  predicate IsOperator(op: char) {
    op == Plus || op == Minus || op == Times || op == Divide
  }

  /** One arithmetic step. It takes both operands as arguments and touches
      no engine field; an operator it does not recognise yields `b`. */
  function Calculate(a: real, b: real, op: char): (r: CalcResult)
    ensures r.Error? <==> op == Divide && b == 0.0
    ensures op == Plus ==> r == Ok(a + b)
    ensures op == Minus ==> r == Ok(a - b)
    ensures op == Times ==> r == Ok(a * b)
    ensures op == Divide && b != 0.0 ==> r.Ok? && r.value * b == a
    ensures !IsOperator(op) ==> r == Ok(b)
  {
    if op == Plus then Ok(a + b)
    else if op == Minus then Ok(a - b)
    else if op == Times then Ok(a * b)
    else if op == Divide then (if b != 0.0 then Ok(a / b) else Error)
    else Ok(b)
  }

  /** Subtraction undoes addition: evaluating `a + b` and then `- b` gives back `a`. */
  lemma SubtractUndoesAdd(a: real, b: real)
    ensures Calculate(Calculate(a, b, Plus).value, b, Minus) == Ok(a)
  {
  }

  /** Division undoes multiplication by a non-zero operand, and the other way round. */
  lemma DivideUndoesMultiply(a: real, b: real)
    requires b != 0.0
    ensures Calculate(Calculate(a, b, Times).value, b, Divide) == Ok(a)
    ensures Calculate(Calculate(a, b, Divide).value, b, Times) == Ok(a)
  {
  }

  /** A snapshot of the engine's four fields. */
  datatype EngineState = EngineState(
    currentValue: real,        // the first operand of the pending operation
    operation: Option<char>,   // the pending operator, if any
    resetNextInput: bool,      // the next digit starts a new number
    hasDecimal: bool)          // the number being entered already has a '.'

  /** The state the engine is created in, and the one `clear` returns it to. */
  const Initial := EngineState(0.0, None, false, false)

  /** The display text that `clear` hands back. */
  const ClearedDisplay := "0"

  class CalculatorOperations {
    var currentValue: real
    var operation: Option<char>
    var resetNextInput: bool
    var hasDecimal: bool

    ghost function State(): EngineState
      reads this
    {
      EngineState(currentValue, operation, resetNextInput, hasDecimal)
    }

    constructor ()
      ensures State() == Initial
    {
      currentValue := 0.0;
      operation := None;
      resetNextInput := false;
      hasDecimal := false;
    }

    /** Puts every field back to its initial value and returns "0". The
        result and the new state do not depend on the old state, so a
        second call changes nothing. */
    method Clear() returns (display: string)
      modifies this
      ensures display == ClearedDisplay
      ensures State() == Initial
    {
      currentValue := 0.0;
      operation := None;
      resetNextInput := false;
      hasDecimal := false;
      display := ClearedDisplay;
    }
  }

  /** Two calls of `clear` in a row return the same text and leave the
      same state as one call, and both equal a freshly built engine. */
  method ClearIsIdempotent(c: CalculatorOperations) returns (first: string, second: string)
    modifies c
    ensures first == second == ClearedDisplay
    ensures c.State() == Initial
  {
    first := c.Clear();
    ghost var afterOne := c.State();
    second := c.Clear();
    assert c.State() == afterOne;
    var built := new CalculatorOperations();
    assert built.State() == c.State();
  }
}
