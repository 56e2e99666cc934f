/** The five button handlers of the calculator window as transitions on a
    snapshot of its state: the display text together with the engine's four
    fields. `float()` and `str()` enter as the parameters `parse` and
    `format`; a failed parse is read as 0 and the "Error" sentinel is shown
    as the text "Error". */
module Transitions {
  import opened Operations

  datatype Snapshot = Snapshot(display: string, engine: EngineState)

  /** The window as it starts: display "0" and a newly built engine. */
  const Start := Snapshot("0", Initial)

  /** `float(text)`, with the failure that the handlers catch read as 0. */
  function ParseOrZero(parse: string -> Option<real>, text: string): (x: real)
    ensures parse(text).None? ==> x == 0.0
    ensures parse(text).Some? ==> x == parse(text).value
  {
    match parse(text)
    case Some(v) => v
    case None => 0.0
  }

  /** `str(result)`: the sentinel reads "Error", a number whatever `format` makes of it. */
  function Show(format: real -> string, r: CalcResult): (text: string)
    ensures r.Error? ==> text == "Error"
    ensures r.Ok? ==> text == format(r.value)
  {
    match r
    case Ok(v) => format(v)
    case Error => "Error"
  }

  /** The value kept as first operand after an evaluation: 0 in place of the sentinel. */
  function Accumulated(r: CalcResult): (x: real)
    ensures r.Error? ==> x == 0.0
    ensures r.Ok? ==> x == r.value
  {
    if r.Ok? then r.value else 0.0
  }

  /** A digit button: it starts a new number on a display of "0" or after an
      operator or equals, and extends the number being typed otherwise. */
  function Digit(s: Snapshot, digit: char): (t: Snapshot)
    ensures s.display == "0" || s.engine.resetNextInput ==>
      t.display == [digit] && !t.engine.resetNextInput && !t.engine.hasDecimal
    ensures s.display != "0" && !s.engine.resetNextInput ==>
      t.display == s.display + [digit] && t.engine == s.engine
    ensures t.engine.currentValue == s.engine.currentValue && t.engine.operation == s.engine.operation
  {
    if s.display == "0" || s.engine.resetNextInput then
      Snapshot([digit], s.engine.(resetNextInput := false, hasDecimal := false))
    else
      Snapshot(s.display + [digit], s.engine)
  }

  /** The point button: after an operator or equals it starts the number
      "0."; otherwise it appends a point unless the number already has one. */
  function Decimal(s: Snapshot): (t: Snapshot)
    ensures s.engine.resetNextInput ==>
      t.display == "0." && !t.engine.resetNextInput && t.engine.hasDecimal
    ensures !s.engine.resetNextInput && ('.' in s.display || s.engine.hasDecimal) ==> t == s
    ensures !s.engine.resetNextInput && '.' !in s.display && !s.engine.hasDecimal ==>
      t.display == s.display + "." && t.engine == s.engine.(hasDecimal := true)
    ensures t.engine.currentValue == s.engine.currentValue && t.engine.operation == s.engine.operation
  {
    var current := if s.engine.resetNextInput then "0" else s.display;
    var engine := if s.engine.resetNextInput
      then s.engine.(resetNextInput := false, hasDecimal := false)
      else s.engine;
    if '.' !in current && !engine.hasDecimal then
      Snapshot(current + ".", engine.(hasDecimal := true))
    else
      Snapshot(s.display, engine)
  }

  /** An operator button: it evaluates a pending operation whose second
      operand has been typed, or else takes the display as the first operand;
      then it makes `op` the pending operation and waits for a new number. */
  function Operator(s: Snapshot, op: char, parse: string -> Option<real>, format: real -> string): (t: Snapshot)
    ensures t.engine.operation == Some(op) && t.engine.resetNextInput && !t.engine.hasDecimal
    ensures s.engine.operation.None? || s.engine.resetNextInput ==>
      t.display == s.display && t.engine.currentValue == ParseOrZero(parse, s.display)
    ensures s.engine.operation.Some? && !s.engine.resetNextInput ==>
      var r := Calculate(s.engine.currentValue, ParseOrZero(parse, s.display), s.engine.operation.value);
      t.display == Show(format, r) && t.engine.currentValue == Accumulated(r)
  {
    var value := ParseOrZero(parse, s.display);
    var (display, currentValue) :=
      if s.engine.operation.Some? && !s.engine.resetNextInput then
        var r := Calculate(s.engine.currentValue, value, s.engine.operation.value);
        (Show(format, r), Accumulated(r))
      else
        (s.display, value);
    Snapshot(display, EngineState(currentValue, Some(op), true, false))
  }

  /** The equals button: it evaluates the pending operation, if there is one,
      shows the result and leaves no operation pending; with none pending it
      changes nothing. */
  function Equals(s: Snapshot, parse: string -> Option<real>, format: real -> string): (t: Snapshot)
    ensures s.engine.operation.None? ==> t == s
    ensures s.engine.operation.Some? ==>
      var r := Calculate(s.engine.currentValue, ParseOrZero(parse, s.display), s.engine.operation.value);
      && t.display == Show(format, r)
      && t.engine.currentValue == Accumulated(r)
      && t.engine.operation.None? && t.engine.resetNextInput
      && (t.engine.hasDecimal <==> '.' in t.display)
  {
    match s.engine.operation
    case None => s
    case Some(op) =>
      var r := Calculate(s.engine.currentValue, ParseOrZero(parse, s.display), op);
      var text := Show(format, r);
      Snapshot(text, EngineState(Accumulated(r), None, true, '.' in text))
  }

  /** The clear button: the display shows what `clear` returns and the
      engine is as newly built. */
  function Clear(s: Snapshot): (t: Snapshot)
    ensures t.display == "0" && t.engine == Initial
  {
    Snapshot(ClearedDisplay, Initial)
  }

  /** Clearing twice is the same as clearing once, and both give the window's starting state. */
  lemma ClearIdempotent(s: Snapshot)
    ensures Clear(Clear(s)) == Clear(s) == Start
  {
  }

  /** A second press of the point button never changes anything. */
  lemma DecimalTwiceIsDecimalOnce(s: Snapshot)
    ensures Decimal(Decimal(s)) == Decimal(s)
  {
  }

  // ---------------------------------------------------------------------
  // Sequences of button presses

  /** The seventeen buttons of the window (the sixteen of the grid and the
      clear button beside the display), by the handler they are wired to. */
  datatype Key = DigitKey(digit: char) | PointKey | OperatorKey(op: char) | EqualsKey | ClearKey

  predicate IsDigitChar(c: char) {
    '0' <= c <= '9'
  }

  /** The labels the window puts on its buttons: ten digits and four operators. */
  predicate IsButton(k: Key) {
    match k
    case DigitKey(d) => IsDigitChar(d)
    case OperatorKey(op) => IsOperator(op)
    case _ => true
  }

  /** The callback each button is wired to: digits to the digit handler,
      the point, each operator, equals and clear to theirs. */
  function Press(s: Snapshot, k: Key, parse: string -> Option<real>, format: real -> string): (t: Snapshot)
    ensures k.DigitKey? ==> t == Digit(s, k.digit)
    ensures k.PointKey? ==> t == Decimal(s)
    ensures k.OperatorKey? ==> t == Operator(s, k.op, parse, format)
    ensures k.EqualsKey? ==> t == Equals(s, parse, format)
    ensures k.ClearKey? ==> t == Start
  {
    match k
    case DigitKey(d) => Digit(s, d)
    case PointKey => Decimal(s)
    case OperatorKey(op) => Operator(s, op, parse, format)
    case EqualsKey => Equals(s, parse, format)
    case ClearKey => Clear(s)
  }

  /** The state after the presses in `keys`, each handled to completion
      before the next, in order. No presses leave the state as it is, a
      single press is one handler call, and a run that ends with clear ends
      in the starting window whatever came before. */
  function Run(s: Snapshot, keys: seq<Key>, parse: string -> Option<real>, format: real -> string): (t: Snapshot)
    ensures keys == [] ==> t == s
    ensures |keys| == 1 ==> t == Press(s, keys[0], parse, format)
    ensures |keys| > 0 && keys[|keys| - 1] == ClearKey ==> t == Start
    decreases |keys|
  {
    if keys == [] then s else Run(Press(s, keys[0], parse, format), keys[1..], parse, format)
  }

  /** Handling one batch of presses and then another is handling them all in order. */
  lemma {:induction false} RunConcat(s: Snapshot, first: seq<Key>, second: seq<Key>, parse: string -> Option<real>, format: real -> string)
    ensures Run(Run(s, first, parse, format), second, parse, format) == Run(s, first + second, parse, format)
    decreases |first|
  {
    if first != [] {
      assert (first + second)[0] == first[0];
      assert (first + second)[1..] == first[1..] + second;
      RunConcat(Press(s, first[0], parse, format), first[1..], second, parse, format);
    } else {
      assert first + second == second;
    }
  }

  /** A number as it is typed: a digit first, then digits with at most one
      point, and no zero in front of another digit. */
  predicate IsEntry(text: string) {
    && |text| > 0 && IsDigitChar(text[0])
    && (forall i :: 0 <= i < |text| ==> IsDigitChar(text[i]) || text[i] == '.')
    && (forall i, j :: 0 <= i < j < |text| && text[i] == '.' ==> text[j] != '.')
    && (text[0] == '0' && |text| > 1 ==> text[1] == '.')
  }

  /** What holds in every state the buttons can reach: the pending operator
      is one of the four, and while a number is being typed the display is
      that number and `hasDecimal` says whether it has a point. */
  predicate Consistent(s: Snapshot) {
    && (s.engine.operation.Some? ==> IsOperator(s.engine.operation.value))
    && (!s.engine.resetNextInput ==> IsEntry(s.display) && (s.engine.hasDecimal <==> '.' in s.display))
  }

  lemma PressKeepsConsistent(s: Snapshot, k: Key, parse: string -> Option<real>, format: real -> string)
    requires Consistent(s) && IsButton(k)
    ensures Consistent(Press(s, k, parse, format))
  {
    var t := Press(s, k, parse, format);
    match k
    case DigitKey(d) =>
      if s.display != "0" && !s.engine.resetNextInput {
        var text := s.display;
        assert t.display == text + [d];
        assert |text| == 1 ==> text == [text[0]];
      }
    case PointKey =>
      if s.engine.resetNextInput {
        assert t.display == "0.";
      }
    case _ =>
  }

  /** Whatever buttons are pressed, in whatever order, every state reached is consistent. */
  lemma {:induction false} RunKeepsConsistent(s: Snapshot, keys: seq<Key>, parse: string -> Option<real>, format: real -> string)
    requires Consistent(s)
    requires forall i :: 0 <= i < |keys| ==> IsButton(keys[i])
    ensures Consistent(Run(s, keys, parse, format))
    decreases |keys|
  {
    if keys != [] {
      PressKeepsConsistent(s, keys[0], parse, format);
      RunKeepsConsistent(Press(s, keys[0], parse, format), keys[1..], parse, format);
    }
  }

  /** From the starting window, the number being typed never holds a second
      point or a leading zero, and `calculate` is only ever asked about one
      of the four operators, so its fall-back branch is never taken. */
  lemma ReachableStatesAreConsistent(keys: seq<Key>, parse: string -> Option<real>, format: real -> string)
    requires forall i :: 0 <= i < |keys| ==> IsButton(keys[i])
    ensures var t := Run(Start, keys, parse, format);
      && (!t.engine.resetNextInput ==> IsEntry(t.display) && (t.engine.hasDecimal <==> '.' in t.display))
      && (t.engine.operation.Some? ==> IsOperator(t.engine.operation.value))
  {
    assert IsEntry(Start.display);
    RunKeepsConsistent(Start, keys, parse, format);
  }

  // ---------------------------------------------------------------------
  // The point flag written by equals is never read

  /** Two states that differ at most in `hasDecimal`, and only while the next
      press starts a new number. */
  predicate SameButPointFlag(s1: Snapshot, s2: Snapshot) {
    s1 == s2 || (s1.engine.resetNextInput && s2 == s1.(engine := s1.engine.(hasDecimal := s2.engine.hasDecimal)))
  }

  lemma PressKeepsSameButPointFlag(s1: Snapshot, s2: Snapshot, k: Key, parse: string -> Option<real>, format: real -> string)
    requires SameButPointFlag(s1, s2)
    ensures SameButPointFlag(Press(s1, k, parse, format), Press(s2, k, parse, format))
  {
  }

  lemma {:induction false} RunKeepsSameButPointFlag(s1: Snapshot, s2: Snapshot, keys: seq<Key>, parse: string -> Option<real>, format: real -> string)
    requires SameButPointFlag(s1, s2)
    ensures SameButPointFlag(Run(s1, keys, parse, format), Run(s2, keys, parse, format))
    decreases |keys|
  {
    if keys != [] {
      PressKeepsSameButPointFlag(s1, s2, keys[0], parse, format);
      RunKeepsSameButPointFlag(Press(s1, keys[0], parse, format), Press(s2, keys[0], parse, format), keys[1..], parse, format);
    }
  }

  /** The `hasDecimal` value that equals computes from the result text has
      no effect on anything the window later shows: whatever is pressed next,
      the display is the same as if equals had set it to false. */
  lemma EqualsPointFlagIsUnobservable(s: Snapshot, keys: seq<Key>, parse: string -> Option<real>, format: real -> string)
    requires s.engine.operation.Some?
    ensures var t := Equals(s, parse, format);
      Run(t, keys, parse, format).display == Run(t.(engine := t.engine.(hasDecimal := false)), keys, parse, format).display
  {
    var t := Equals(s, parse, format);
    RunKeepsSameButPointFlag(t, t.(engine := t.engine.(hasDecimal := false)), keys, parse, format);
  }

  // ---------------------------------------------------------------------
  // Worked sequences of presses

  /** 5 + 3 = shows the number 8 and leaves no operation pending. */
  lemma FivePlusThree(parse: string -> Option<real>, format: real -> string)
    requires parse("5") == Some(5.0) && parse("3") == Some(3.0)
    ensures var t := Run(Start, [DigitKey('5'), OperatorKey(Plus), DigitKey('3'), EqualsKey], parse, format);
      t.display == format(8.0) && t.engine.currentValue == 8.0 && t.engine.operation == None
  {
    var s1 := Digit(Start, '5');
    var s2 := Operator(s1, Plus, parse, format);
    var s3 := Digit(s2, '3');
    assert s3.display == "3" && s3.engine == EngineState(5.0, Some(Plus), false, false);
    var s4 := Equals(s3, parse, format);
    assert Run(s3, [EqualsKey], parse, format) == s4;
    assert Run(Start, [DigitKey('5'), OperatorKey(Plus), DigitKey('3'), EqualsKey], parse, format) == Run(s1, [OperatorKey(Plus), DigitKey('3'), EqualsKey], parse, format);
    assert Run(s1, [OperatorKey(Plus), DigitKey('3'), EqualsKey], parse, format) == Run(s2, [DigitKey('3'), EqualsKey], parse, format);
    assert Run(s2, [DigitKey('3'), EqualsKey], parse, format) == Run(s3, [EqualsKey], parse, format);
  }

  /** 6 ÷ 0 = shows "Error" and sets the first operand back to 0. */
  lemma SixDividedByZero(parse: string -> Option<real>, format: real -> string)
    requires parse("6") == Some(6.0) && parse("0") == Some(0.0)
    ensures var t := Run(Start, [DigitKey('6'), OperatorKey(Divide), DigitKey('0'), EqualsKey], parse, format);
      t.display == "Error" && t.engine.currentValue == 0.0 && t.engine.operation == None
  {
    var s1 := Digit(Start, '6');
    var s2 := Operator(s1, Divide, parse, format);
    var s3 := Digit(s2, '0');
    assert s3.display == "0" && s3.engine == EngineState(6.0, Some(Divide), false, false);
    var s4 := Equals(s3, parse, format);
    assert Run(s3, [EqualsKey], parse, format) == s4;
    assert Run(Start, [DigitKey('6'), OperatorKey(Divide), DigitKey('0'), EqualsKey], parse, format) == Run(s1, [OperatorKey(Divide), DigitKey('0'), EqualsKey], parse, format);
    assert Run(s1, [OperatorKey(Divide), DigitKey('0'), EqualsKey], parse, format) == Run(s2, [DigitKey('0'), EqualsKey], parse, format);
    assert Run(s2, [DigitKey('0'), EqualsKey], parse, format) == Run(s3, [EqualsKey], parse, format);
  }

  /** 2 . 5 + 1 = shows the number 3.5. */
  lemma TwoPointFivePlusOne(parse: string -> Option<real>, format: real -> string)
    requires parse("2.5") == Some(2.5) && parse("1") == Some(1.0)
    ensures var t := Run(Start, [DigitKey('2'), PointKey, DigitKey('5'), OperatorKey(Plus), DigitKey('1'), EqualsKey], parse, format);
      t.display == format(3.5) && t.engine.currentValue == 3.5
  {
    var s1 := Digit(Start, '2');
    var s2 := Decimal(s1);
    var s3 := Digit(s2, '5');
    assert s3.display == "2.5" && s3.engine == EngineState(0.0, None, false, true);
    var s4 := Operator(s3, Plus, parse, format);
    var s5 := Digit(s4, '1');
    assert s5.display == "1" && s5.engine == EngineState(2.5, Some(Plus), false, false);
    var s6 := Equals(s5, parse, format);
    assert Run(s5, [EqualsKey], parse, format) == s6;
    assert Run(Start, [DigitKey('2'), PointKey, DigitKey('5'), OperatorKey(Plus), DigitKey('1'), EqualsKey], parse, format) == Run(s1, [PointKey, DigitKey('5'), OperatorKey(Plus), DigitKey('1'), EqualsKey], parse, format);
    assert Run(s1, [PointKey, DigitKey('5'), OperatorKey(Plus), DigitKey('1'), EqualsKey], parse, format) == Run(s2, [DigitKey('5'), OperatorKey(Plus), DigitKey('1'), EqualsKey], parse, format);
    assert Run(s2, [DigitKey('5'), OperatorKey(Plus), DigitKey('1'), EqualsKey], parse, format) == Run(s3, [OperatorKey(Plus), DigitKey('1'), EqualsKey], parse, format);
    assert Run(s3, [OperatorKey(Plus), DigitKey('1'), EqualsKey], parse, format) == Run(s4, [DigitKey('1'), EqualsKey], parse, format);
    assert Run(s4, [DigitKey('1'), EqualsKey], parse, format) == Run(s5, [EqualsKey], parse, format);
  }

  /** + = on a fresh window reads the display "0" as 0 for both operands. */
  lemma PlusThenEquals(parse: string -> Option<real>, format: real -> string)
    requires parse("0") == Some(0.0)
    ensures var t := Run(Start, [OperatorKey(Plus), EqualsKey], parse, format);
      t.display == format(0.0) && t.engine.currentValue == 0.0 && t.engine.operation == None
  {
    var s1 := Operator(Start, Plus, parse, format);
    assert s1 == Snapshot("0", EngineState(0.0, Some(Plus), true, false));
    var s2 := Equals(s1, parse, format);
    assert Run(s1, [EqualsKey], parse, format) == s2;
    assert Run(Start, [OperatorKey(Plus), EqualsKey], parse, format) == Run(s1, [EqualsKey], parse, format);
  }

  /** After 6 ÷ 0 = the display reads "Error"; the next + reads that text as 0
      (it does not parse), and = then shows the number 0. */
  lemma ErrorThenPlusEquals(parse: string -> Option<real>, format: real -> string)
    requires parse("6") == Some(6.0) && parse("0") == Some(0.0) && parse("Error").None?
    ensures var t := Run(Start, [DigitKey('6'), OperatorKey(Divide), DigitKey('0'), EqualsKey, OperatorKey(Plus), EqualsKey], parse, format);
      t.display == format(0.0) && t.engine.currentValue == 0.0 && t.engine.operation == None
  {
    var keys := [DigitKey('6'), OperatorKey(Divide), DigitKey('0'), EqualsKey];
    SixDividedByZero(parse, format);
    var s4 := Run(Start, keys, parse, format);
    var s5 := Operator(s4, Plus, parse, format);
    assert s5 == Snapshot("Error", EngineState(0.0, Some(Plus), true, false));
    var s6 := Equals(s5, parse, format);
    assert Run(s5, [EqualsKey], parse, format) == s6;
    assert Run(s4, [OperatorKey(Plus), EqualsKey], parse, format) == Run(s5, [EqualsKey], parse, format);
    RunConcat(Start, keys, [OperatorKey(Plus), EqualsKey], parse, format);
    assert keys + [OperatorKey(Plus), EqualsKey]
        == [DigitKey('6'), OperatorKey(Divide), DigitKey('0'), EqualsKey, OperatorKey(Plus), EqualsKey];
  }
}
