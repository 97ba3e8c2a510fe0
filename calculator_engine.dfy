/**
 * The floating calculator's behaviour as values: its arithmetic, its state
 * record and one transition function per event handler.  The widget class in
 * calculator_widget.dfy performs these transitions in place.
 */
module CalculatorEngine {
  import opened Wrappers

  /** A JavaScript number as the calculator sees it: finite, or one of
      Infinity, -Infinity and NaN, which the model does not tell apart. */
  datatype Num = Finite(value: real) | NonFinite

  /** `Number.parseFloat` and `String(number)`, which the model takes as given. */
  datatype NumberText = NumberText(parse: string -> Num, show: Num -> string)

  /** Every number prints as at least one character. */
  ghost predicate ShowsNonEmpty(text: NumberText) {
    forall n :: text.show(n) != ""
  }

  /** The operators `calculate` gives arithmetic to; "=" and every other
      string pass the second operand through. */
  predicate IsOperator(op: string) {
    op == "+" || op == "-" || op == "×" || op == "÷" || op == "%"
  }

  /** The calculator's `calculate` switch. */
  function Calculate(a: Num, b: Num, op: string): (r: Num)
    ensures !IsOperator(op) ==> r == b
    ensures IsOperator(op) && (a.NonFinite? || b.NonFinite?) ==> r == NonFinite
    ensures op == "÷" && b == Finite(0.0) ==> r == NonFinite
    ensures IsOperator(op) && a.Finite? && b.Finite? && !(op == "÷" && b.value == 0.0) ==> r.Finite?
  {
    if !IsOperator(op) then b
    else if a.NonFinite? || b.NonFinite? then NonFinite
    else
      var x, y := a.value, b.value;
      if op == "+" then Finite(x + y)
      else if op == "-" then Finite(x - y)
      else if op == "×" then Finite(x * y)
      else if op == "÷" then (if y == 0.0 then NonFinite else Finite(x / y))
      else Finite(x * y / 100.0)
  }

  /** `÷` undoes `×` by the same nonzero finite number. */
  lemma DivisionUndoesMultiplication(a: Num, y: real)
    requires y != 0.0
    ensures Calculate(Calculate(a, Finite(y), "×"), Finite(y), "÷") == a
  {
    if a.Finite? {
      assert a.value * y / y == a.value;
    }
  }

  /** `-` undoes `+` by the same finite number. */
  lemma SubtractionUndoesAddition(a: Num, y: real)
    ensures Calculate(Calculate(a, Finite(y), "+"), Finite(y), "-") == a
  {
  }

  /** The `%` operator is the product scaled down by a hundred. */
  lemma PercentIsScaledProduct(a: Num, b: Num)
    ensures Calculate(a, b, "%") == Calculate(Calculate(a, b, "×"), Finite(100.0), "÷")
  {
  }

  /** `value / 100`, used by the percent key. */
  function Hundredth(v: Num): (r: Num)
    ensures r == Calculate(v, Finite(100.0), "÷")
  {
    if v.Finite? then Finite(v.value / 100.0) else NonFinite
  }

  /** The percent key with a pending operator `op` anchored at `p` and entered value `v`. */
  function PercentResult(p: Num, v: Num, op: string): (r: Num)
    ensures op == "+" ==> r == Calculate(p, Calculate(p, v, "%"), "+")
    ensures op == "-" ==> r == Calculate(p, Calculate(p, v, "%"), "-")
    ensures op == "×" ==> r == Calculate(p, v, "%")
    ensures op == "÷" ==> r == Calculate(p, Hundredth(v), "÷")
    ensures op !in {"+", "-", "×", "÷"} ==> r == Hundredth(v)
  {
    if op !in {"+", "-", "×", "÷"} then Hundredth(v)
    else if p.NonFinite? || v.NonFinite? then NonFinite
    else
      var a, b := p.value, v.value;
      if op == "+" then Finite(a + a * b / 100.0)
      else if op == "-" then Finite(a - a * b / 100.0)
      else if op == "×" then Finite(a * (b / 100.0))
      else if b / 100.0 == 0.0 then NonFinite
      else Finite(a / (b / 100.0))
  }

  /** A pixel position or offset. */
  datatype Point = Point(x: int, y: int)

  /** Everything the widget (and the calculator store) keeps. */
  datatype CalculatorState = CalculatorState(
    display: string,
    previousValue: Option<Num>,
    operation: Option<string>,
    waitingForOperand: bool,
    isMinimized: bool,
    position: Point,
    isDragging: bool,
    dragOffset: Point)

  /** The state a freshly mounted widget starts in. */
  const InitialState: CalculatorState :=
    CalculatorState("0", None, None, false, false, Point(24, 24), false, Point(0, 0))

  /** The digit and decimal-point keys "0" to "9" and ".". */
  predicate IsKey(key: string) {
    |key| == 1 && ('0' <= key[0] <= '9' || key[0] == '.')
  }

  /** Footprints used when clamping: a 60-pixel badge, or a 320 x 400 panel. */
  const MinimizedSize: int := 60
  const ExpandedWidth: int := 320
  const ExpandedHeight: int := 400

  function FootprintWidth(minimized: bool): int {
    if minimized then MinimizedSize else ExpandedWidth
  }

  function FootprintHeight(minimized: bool): int {
    if minimized then MinimizedSize else ExpandedHeight
  }

  /** The invariant every handler keeps: the display is never empty, a
      pending operand exists exactly when a pending operator does, and the
      widget's top-left corner is never left or above the viewport. */
  predicate Consistent(s: CalculatorState) {
    && s.display != ""
    && (s.previousValue.Some? <==> s.operation.Some?)
    && s.position.x >= 0 && s.position.y >= 0
  }

  lemma InitialStateIsConsistent()
    ensures Consistent(InitialState)
  {
  }

  /** The guard `previousValue !== null && operation`: an operator is pending. */
  predicate Pending(s: CalculatorState) {
    s.previousValue.Some? && s.operation.Some? && s.operation.value != ""
  }

  /** `inputNumber`: a digit or decimal point was pressed. */
  function InputNumber(s: CalculatorState, key: string): (r: CalculatorState)
    requires IsKey(key)
    ensures r == s.(display := r.display, waitingForOperand := false)
    ensures |r.display| >= 1 && r.display[|r.display| - 1] == key[0]
    ensures s.waitingForOperand || s.display == "0" ==> r.display == key
    ensures Consistent(s) ==> Consistent(r)
  {
    if s.waitingForOperand then s.(display := key, waitingForOperand := false)
    else s.(display := if s.display == "0" then key else s.display + key)
  }

  /** `inputOperation`: an operator key was pressed. */
  function InputOperation(text: NumberText, s: CalculatorState, nextOperation: string): (r: CalculatorState)
    ensures r.operation == Some(nextOperation) && r.waitingForOperand
    ensures s.previousValue.None? ==>
              r == s.(previousValue := Some(text.parse(s.display)), operation := Some(nextOperation), waitingForOperand := true)
    ensures Pending(s) ==>
              var v := Calculate(s.previousValue.value, text.parse(s.display), s.operation.value);
              r.previousValue == Some(v) && r.display == text.show(v)
    ensures s.previousValue.Some? && !Pending(s) ==>
              r == s.(operation := Some(nextOperation), waitingForOperand := true)
    ensures r.isMinimized == s.isMinimized && r.position == s.position
    ensures r.isDragging == s.isDragging && r.dragOffset == s.dragOffset
    ensures Consistent(s) && ShowsNonEmpty(text) ==> Consistent(r)
  {
    var inputValue := text.parse(s.display);
    var s' :=
      if s.previousValue.None? then s.(previousValue := Some(inputValue))
      else if Pending(s) then
        var newValue := Calculate(s.previousValue.value, inputValue, s.operation.value);
        s.(display := text.show(newValue), previousValue := Some(newValue))
      else s;
    s'.(waitingForOperand := true, operation := Some(nextOperation))
  }

  /** `performCalculation`: the equals key. */
  function PerformCalculation(text: NumberText, s: CalculatorState): (r: CalculatorState)
    ensures !Pending(s) ==> r == s
    ensures Pending(s) ==>
              && r.previousValue.None? && r.operation.None? && r.waitingForOperand
              && r.display == text.show(Calculate(s.previousValue.value, text.parse(s.display), s.operation.value))
              && r == s.(display := r.display, previousValue := None, operation := None, waitingForOperand := true)
    ensures Consistent(s) && ShowsNonEmpty(text) ==> Consistent(r)
  {
    if Pending(s) then
      var newValue := Calculate(s.previousValue.value, text.parse(s.display), s.operation.value);
      s.(display := text.show(newValue), previousValue := None, operation := None, waitingForOperand := true)
    else s
  }

  /** `calculatePercentage`: the percent key. */
  function CalculatePercentage(text: NumberText, s: CalculatorState): (r: CalculatorState)
    ensures r.waitingForOperand
    ensures Pending(s) ==>
              && r.previousValue.None? && r.operation.None?
              && r.display == text.show(PercentResult(s.previousValue.value, text.parse(s.display), s.operation.value))
    ensures !Pending(s) ==>
              r == s.(display := text.show(Hundredth(text.parse(s.display))), waitingForOperand := true)
    ensures r.isMinimized == s.isMinimized && r.position == s.position
    ensures r.isDragging == s.isDragging && r.dragOffset == s.dragOffset
    ensures Consistent(s) && ShowsNonEmpty(text) ==> Consistent(r)
  {
    var currentValue := text.parse(s.display);
    if Pending(s) then
      var result := PercentResult(s.previousValue.value, currentValue, s.operation.value);
      s.(display := text.show(result), previousValue := None, operation := None, waitingForOperand := true)
    else
      s.(display := text.show(Hundredth(currentValue)), waitingForOperand := true)
  }

  /** `clear`: the C key. */
  function Clear(s: CalculatorState): (r: CalculatorState)
    ensures r.display == InitialState.display && r.previousValue == InitialState.previousValue
    ensures r.operation == InitialState.operation && r.waitingForOperand == InitialState.waitingForOperand
    ensures r.isMinimized == s.isMinimized && r.position == s.position
    ensures r.isDragging == s.isDragging && r.dragOffset == s.dragOffset
    ensures Consistent(s) ==> Consistent(r)
  {
    s.(display := "0", previousValue := None, operation := None, waitingForOperand := false)
  }

  /** Clearing twice is clearing once. */
  lemma ClearIdempotent(s: CalculatorState)
    ensures Clear(Clear(s)) == Clear(s)
  {
  }

  /** `backspace`: drops the last character, or falls back to "0". */
  function Backspace(s: CalculatorState): (r: CalculatorState)
    ensures r == s.(display := r.display)
    ensures r.display != ""
    ensures |s.display| > 1 ==> r.display + [s.display[|s.display| - 1]] == s.display
    ensures |s.display| <= 1 ==> r.display == "0"
    ensures s.display == "0" ==> r == s
  {
    if |s.display| > 1 then s.(display := s.display[..|s.display| - 1]) else s.(display := "0")
  }

  /** `n` presses of the backspace key. */
  function BackspaceTimes(s: CalculatorState, n: nat): CalculatorState
    decreases n
  {
    if n == 0 then s else BackspaceTimes(Backspace(s), n - 1)
  }

  /** As many presses as the display has characters always reach "0", and
      from "0" backspace changes nothing. */
  lemma {:induction false} BackspaceReachesZero(s: CalculatorState, n: nat)
    requires s.display != ""
    requires s.display == "0" || n >= |s.display|
    ensures BackspaceTimes(s, n).display == "0"
    ensures BackspaceTimes(s, n) == s.(display := "0")
    decreases n
  {
    if n > 0 {
      BackspaceReachesZero(Backspace(s), n - 1);
    }
  }

  /** Pressing the keys `keys` one after the other. */
  function TypeKeys(s: CalculatorState, keys: seq<string>): CalculatorState
    requires forall k :: 0 <= k < |keys| ==> IsKey(keys[k])
    decreases keys
  {
    if keys == [] then s else TypeKeys(InputNumber(s, keys[0]), keys[1..])
  }

  /** The keys after any leading "0" keys. */
  function DropLeadingZeros(keys: seq<string>): (r: seq<string>)
    ensures |r| <= |keys| && r == keys[|keys| - |r|..]
    ensures r != [] ==> r[0] != "0"
  {
    if keys != [] && keys[0] == "0" then DropLeadingZeros(keys[1..]) else keys
  }

  function Concat(keys: seq<string>): string {
    if keys == [] then "" else keys[0] + Concat(keys[1..])
  }

  /** What the display should read after typing `keys` into a fresh
      operand: the keys written out, with leading zeros collapsed. */
  function Entered(keys: seq<string>): string {
    var rest := DropLeadingZeros(keys);
    if rest == [] then "0" else Concat(rest)
  }

  /** Once the display holds a number other than "0", keys are appended. */
  lemma {:induction false} TypingAppends(s: CalculatorState, keys: seq<string>)
    requires forall k :: 0 <= k < |keys| ==> IsKey(keys[k])
    requires !s.waitingForOperand && s.display != "" && s.display != "0"
    ensures TypeKeys(s, keys) == s.(display := s.display + Concat(keys))
    decreases keys
  {
    if keys != [] {
      var k := keys[0];
      assert IsKey(k);
      var s1 := InputNumber(s, k);
      assert s1 == s.(display := s.display + k);
      assert |s1.display| >= 2;
      TypingAppends(s1, keys[1..]);
      assert TypeKeys(s, keys) == TypeKeys(s1, keys[1..]);
      assert Concat(keys) == k + Concat(keys[1..]);
      assert (s.display + k) + Concat(keys[1..]) == s.display + (k + Concat(keys[1..]));
    } else {
      assert s.display + Concat(keys) == s.display;
    }
  }

  /** A key pressed into a fresh operand replaces the display. */
  lemma FreshOperandKey(s: CalculatorState, key: string)
    requires IsKey(key) && (s.waitingForOperand || s.display == "0")
    ensures InputNumber(s, key) == s.(display := key, waitingForOperand := false)
  {
  }

  /** Typing digits into a fresh operand (after an operator, or from "0")
      gives the keys written out with leading zeros collapsed:
      "0","5" reads "5" and "0","0" reads "0". */
  lemma {:induction false} TypingCollapsesLeadingZeros(s: CalculatorState, keys: seq<string>)
    requires forall k :: 0 <= k < |keys| ==> IsKey(keys[k])
    requires (s.waitingForOperand && keys != []) || (!s.waitingForOperand && s.display == "0")
    ensures TypeKeys(s, keys) == s.(display := Entered(keys), waitingForOperand := false)
    decreases keys
  {
    if keys != [] {
      var k, rest := keys[0], keys[1..];
      FreshOperandKey(s, k);
      var s1 := s.(display := k, waitingForOperand := false);
      if k == "0" {
        TypingCollapsesLeadingZeros(s1, rest);
        assert Entered(keys) == Entered(rest);
      } else {
        TypingAppends(s1, rest);
        assert Entered(keys) == k + Concat(rest);
      }
    }
  }

  /** `Math.max(0, Math.min(v, hi))`: one axis of the drag clamp. */
  function Clamp(v: int, hi: int): (r: int)
    ensures r >= 0
    ensures r <= hi <==> hi >= 0
    ensures 0 <= v <= hi ==> r == v
    ensures v < 0 ==> r == 0
    ensures hi >= 0 && v >= hi ==> r == hi
    ensures hi < 0 ==> r == 0
  {
    var upper := if v < hi then v else hi;
    if upper > 0 then upper else 0
  }

  /** `handleMouseDown`: the grab offset is the pointer minus the widget's
      top-left corner; nothing happens while the widget is not mounted. */
  function MouseDown(s: CalculatorState, clientX: int, clientY: int, rect: Option<Point>): (r: CalculatorState)
    ensures rect.None? ==> r == s
    ensures rect.Some? ==> r == s.(dragOffset := r.dragOffset, isDragging := true)
    ensures rect.Some? ==> r.dragOffset.x + rect.value.x == clientX && r.dragOffset.y + rect.value.y == clientY
    ensures Consistent(s) ==> Consistent(r)
  {
    if rect.None? then s
    else s.(dragOffset := Point(clientX - rect.value.x, clientY - rect.value.y), isDragging := true)
  }

  /** `handleMouseMove`: while dragging, the widget follows the pointer,
      clamped to the viewport less the current footprint. */
  function MouseMove(s: CalculatorState, clientX: int, clientY: int, innerWidth: int, innerHeight: int): (r: CalculatorState)
    ensures !s.isDragging ==> r == s
    ensures r == s.(position := r.position)
    ensures s.isDragging ==> r.position.x >= 0 && r.position.y >= 0
    ensures s.isDragging ==>
              var maxX := innerWidth - FootprintWidth(s.isMinimized);
              var maxY := innerHeight - FootprintHeight(s.isMinimized);
              && (maxX >= 0 ==> r.position.x <= maxX)
              && (maxY >= 0 ==> r.position.y <= maxY)
              && (0 <= clientX - s.dragOffset.x <= maxX ==> r.position.x == clientX - s.dragOffset.x)
              && (0 <= clientY - s.dragOffset.y <= maxY ==> r.position.y == clientY - s.dragOffset.y)
              && r.position == Point(Clamp(clientX - s.dragOffset.x, maxX), Clamp(clientY - s.dragOffset.y, maxY))
    ensures Consistent(s) ==> Consistent(r)
  {
    if !s.isDragging then s
    else
      var maxX := innerWidth - FootprintWidth(s.isMinimized);
      var maxY := innerHeight - FootprintHeight(s.isMinimized);
      s.(position := Point(Clamp(clientX - s.dragOffset.x, maxX), Clamp(clientY - s.dragOffset.y, maxY)))
  }

  /** `handleMouseUp`: the drag ends wherever the pointer is. */
  function MouseUp(s: CalculatorState): (r: CalculatorState)
    ensures !r.isDragging && r == s.(isDragging := false)
    ensures Consistent(s) ==> Consistent(r)
  {
    s.(isDragging := false)
  }

  /** The minimize and restore buttons: the widget does not move. */
  function SetMinimized(s: CalculatorState, minimized: bool): (r: CalculatorState)
    ensures r.isMinimized == minimized && r.position == s.position
    ensures r == s.(isMinimized := minimized)
    ensures Consistent(s) ==> Consistent(r)
  {
    s.(isMinimized := minimized)
  }

  /** Grabbing the widget and moving by zero does not make it jump, as long
      as it already lies within the clamp bounds. */
  lemma GrabDoesNotJump(s: CalculatorState, clientX: int, clientY: int, innerWidth: int, innerHeight: int)
    requires 0 <= s.position.x <= innerWidth - FootprintWidth(s.isMinimized)
    requires 0 <= s.position.y <= innerHeight - FootprintHeight(s.isMinimized)
    ensures MouseMove(MouseDown(s, clientX, clientY, Some(s.position)), clientX, clientY, innerWidth, innerHeight).position
            == s.position
  {
  }

  /** `5 + 3 × 2 =` evaluates left to right and shows 16. */
  lemma ChainingIsLeftToRight(text: NumberText)
    requires text.parse("5") == Finite(5.0) && text.parse("3") == Finite(3.0) && text.parse("2") == Finite(2.0)
    ensures
      var s1 := InputOperation(text, InputNumber(InitialState, "5"), "+");
      var s2 := InputOperation(text, InputNumber(s1, "3"), "×");
      var s3 := PerformCalculation(text, InputNumber(s2, "2"));
      s3.display == text.show(Finite(16.0)) && s3.previousValue.None? && s3.operation.None?
  {
    var t0 := InputNumber(InitialState, "5");
    assert t0 == InitialState.(display := "5") by {
      FreshOperandKey(InitialState, "5");
    }
    var s1 := InputOperation(text, t0, "+");
    assert s1 == t0.(previousValue := Some(Finite(5.0)), operation := Some("+"), waitingForOperand := true);
    var t1 := InputNumber(s1, "3");
    assert t1 == s1.(display := "3", waitingForOperand := false) by {
      FreshOperandKey(s1, "3");
    }
    var s2 := InputOperation(text, t1, "×");
    assert s2.previousValue == Some(Finite(8.0)) && s2.operation == Some("×") by {
      assert Pending(t1) && text.parse(t1.display) == Finite(3.0);
      assert Calculate(Finite(5.0), Finite(3.0), "+") == Finite(8.0);
    }
    var t2 := InputNumber(s2, "2");
    assert t2.display == "2" && t2.previousValue == Some(Finite(8.0)) && t2.operation == Some("×") by {
      FreshOperandKey(s2, "2");
    }
    assert Calculate(Finite(8.0), Finite(2.0), "×") == Finite(16.0);
  }

  /** `200 + 10 %` adds ten percent of 200 and ends the chain. */
  lemma PercentInChain(text: NumberText)
    requires text.parse("200") == Finite(200.0) && text.parse("10") == Finite(10.0)
    ensures
      var t0 := InputNumber(InputNumber(InputNumber(InitialState, "2"), "0"), "0");
      var s1 := InputOperation(text, t0, "+");
      var s2 := CalculatePercentage(text, InputNumber(InputNumber(s1, "1"), "0"));
      s2.display == text.show(Finite(220.0)) && s2.previousValue.None? && s2.operation.None? && s2.waitingForOperand
  {
    assert "2" + "0" == "20";
    assert "20" + "0" == "200";
    assert "1" + "0" == "10";
    var t0 := InputNumber(InputNumber(InputNumber(InitialState, "2"), "0"), "0");
    assert t0 == InitialState.(display := "200");
    var s1 := InputOperation(text, t0, "+");
    assert s1.previousValue == Some(Finite(200.0)) && s1.operation == Some("+") && s1.waitingForOperand;
    var t1 := InputNumber(InputNumber(s1, "1"), "0");
    assert t1.display == "10" && t1.previousValue == s1.previousValue && t1.operation == s1.operation;
    assert PercentResult(Finite(200.0), Finite(10.0), "+") == Finite(220.0);
  }

  /** `5 ÷ 0 =` shows a non-finite number instead of failing or resetting. */
  lemma DivisionByZeroShowsNonFinite(text: NumberText)
    requires text.parse("5") == Finite(5.0) && text.parse("0") == Finite(0.0)
    ensures
      var s1 := InputOperation(text, InputNumber(InitialState, "5"), "÷");
      PerformCalculation(text, InputNumber(s1, "0")).display == text.show(NonFinite)
  {
    var t0 := InputNumber(InitialState, "5");
    assert t0 == InitialState.(display := "5") by {
      FreshOperandKey(InitialState, "5");
    }
    var s1 := InputOperation(text, t0, "÷");
    assert s1 == t0.(previousValue := Some(Finite(5.0)), operation := Some("÷"), waitingForOperand := true);
    var t1 := InputNumber(s1, "0");
    assert t1 == s1.(display := "0", waitingForOperand := false) by {
      FreshOperandKey(s1, "0");
    }
    assert Calculate(Finite(5.0), Finite(0.0), "÷") == NonFinite;
  }

  /** Pressing a second operator without typing re-applies the first one to
      the unchanged display: `5 + +` shows 10. */
  lemma DoubleOperatorReapplies(text: NumberText)
    requires text.parse("5") == Finite(5.0)
    ensures
      var s1 := InputOperation(text, InputNumber(InitialState, "5"), "+");
      var s2 := InputOperation(text, s1, "+");
      s2.display == text.show(Finite(10.0)) && s2.previousValue == Some(Finite(10.0))
  {
    var t0 := InputNumber(InitialState, "5");
    assert t0 == InitialState.(display := "5") by {
      FreshOperandKey(InitialState, "5");
    }
    var s1 := InputOperation(text, t0, "+");
    assert s1 == t0.(previousValue := Some(Finite(5.0)), operation := Some("+"), waitingForOperand := true);
    assert Calculate(Finite(5.0), Finite(5.0), "+") == Finite(10.0);
  }
}
