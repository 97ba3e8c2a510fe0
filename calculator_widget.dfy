/**
 * The floating calculator widget: one object whose event handlers update its
 * fields in place.  Each handler is proved to perform the transition that
 * calculator_engine.dfy gives for it, and to keep the widget consistent.
 */
module CalculatorWidget {
  import opened Wrappers
  import opened CalculatorEngine

  class FloatingCalculator {
    /** How the widget reads and prints numbers. */
    const text: NumberText

    var display: string
    var previousValue: Option<Num>
    var operation: Option<string>
    var waitingForOperand: bool
    var isMinimized: bool
    var position: Point
    var isDragging: bool
    var dragOffset: Point

    /** The widget's fields as one record. */
    function State(): CalculatorState
      reads this
    {
      CalculatorState(display, previousValue, operation, waitingForOperand,
                      isMinimized, position, isDragging, dragOffset)
    }

    ghost predicate Valid()
      reads this
    {
      ShowsNonEmpty(text) && Consistent(State())
    }

    /** Mounting the widget. */
    constructor (text: NumberText)
      requires ShowsNonEmpty(text)
      ensures Valid() && this.text == text
      ensures State() == InitialState
    {
      this.text := text;
      display := "0";
      previousValue := None;
      operation := None;
      waitingForOperand := false;
      isMinimized := false;
      position := Point(24, 24);
      isDragging := false;
      dragOffset := Point(0, 0);
    }

    method InputNumber(key: string)
      requires Valid() && IsKey(key)
      modifies this
      ensures Valid()
      ensures State() == CalculatorEngine.InputNumber(old(State()), key)
    {
      if waitingForOperand {
        display := key;
        waitingForOperand := false;
      } else {
        display := if display == "0" then key else display + key;
      }
    }

    method InputOperation(nextOperation: string)
      requires Valid()
      modifies this
      ensures Valid()
      ensures State() == CalculatorEngine.InputOperation(text, old(State()), nextOperation)
    {
      var inputValue := text.parse(display);
      if previousValue.None? {
        previousValue := Some(inputValue);
      } else if operation.Some? && operation.value != "" {
        var newValue := Calculate(previousValue.value, inputValue, operation.value);
        display := text.show(newValue);
        previousValue := Some(newValue);
      }
      waitingForOperand := true;
      operation := Some(nextOperation);
    }

    method PerformCalculation()
      requires Valid()
      modifies this
      ensures Valid()
      ensures State() == CalculatorEngine.PerformCalculation(text, old(State()))
    {
      var inputValue := text.parse(display);
      if previousValue.Some? && operation.Some? && operation.value != "" {
        var newValue := Calculate(previousValue.value, inputValue, operation.value);
        display := text.show(newValue);
        previousValue := None;
        operation := None;
        waitingForOperand := true;
      }
    }

    method CalculatePercentage()
      requires Valid()
      modifies this
      ensures Valid()
      ensures State() == CalculatorEngine.CalculatePercentage(text, old(State()))
    {
      var currentValue := text.parse(display);
      if previousValue.Some? && operation.Some? && operation.value != "" {
        var result := PercentResult(previousValue.value, currentValue, operation.value);
        display := text.show(result);
        previousValue := None;
        operation := None;
        waitingForOperand := true;
      } else {
        display := text.show(Hundredth(currentValue));
        waitingForOperand := true;
      }
    }

    method Clear()
      requires Valid()
      modifies this
      ensures Valid()
      ensures State() == CalculatorEngine.Clear(old(State()))
    {
      display := "0";
      previousValue := None;
      operation := None;
      waitingForOperand := false;
    }

    method Backspace()
      requires Valid()
      modifies this
      ensures Valid()
      ensures State() == CalculatorEngine.Backspace(old(State()))
    {
      if |display| > 1 {
        display := display[..|display| - 1];
      } else {
        display := "0";
      }
    }

    /** `handleMouseDown`; `rect` is the widget's bounding box, absent while it is not mounted. */
    method HandleMouseDown(clientX: int, clientY: int, rect: Option<Point>)
      requires Valid()
      modifies this
      ensures Valid()
      ensures State() == MouseDown(old(State()), clientX, clientY, rect)
    {
      if rect.None? {
        return;
      }
      dragOffset := Point(clientX - rect.value.x, clientY - rect.value.y);
      isDragging := true;
    }

    /** `handleMouseMove`, with the viewport size passed in. */
    method HandleMouseMove(clientX: int, clientY: int, innerWidth: int, innerHeight: int)
      requires Valid()
      modifies this
      ensures Valid()
      ensures State() == MouseMove(old(State()), clientX, clientY, innerWidth, innerHeight)
    {
      if !isDragging {
        return;
      }
      var newX := clientX - dragOffset.x;
      var newY := clientY - dragOffset.y;
      var maxX := innerWidth - FootprintWidth(isMinimized);
      var maxY := innerHeight - FootprintHeight(isMinimized);
      position := Point(Clamp(newX, maxX), Clamp(newY, maxY));
    }

    method HandleMouseUp()
      requires Valid()
      modifies this
      ensures Valid()
      ensures State() == MouseUp(old(State()))
    {
      isDragging := false;
    }

    /** The minimize (`true`) and restore (`false`) buttons. */
    method SetIsMinimized(minimized: bool)
      requires Valid()
      modifies this
      ensures Valid()
      ensures State() == SetMinimized(old(State()), minimized)
    {
      isMinimized := minimized;
    }
  }

  /** A client of the widget: `5 + 3 × 2 =` on a freshly mounted widget. */
  method ChainedSession(text: NumberText) returns (shown: string)
    requires ShowsNonEmpty(text)
    requires text.parse("5") == Finite(5.0) && text.parse("3") == Finite(3.0) && text.parse("2") == Finite(2.0)
    ensures shown == text.show(Finite(16.0))
  {
    var widget := new FloatingCalculator(text);
    widget.InputNumber("5");
    widget.InputOperation("+");
    widget.InputNumber("3");
    widget.InputOperation("×");
    widget.InputNumber("2");
    widget.PerformCalculation();
    ChainingIsLeftToRight(text);
    shown := widget.display;
  }
}
