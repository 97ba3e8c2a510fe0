/**
 * The calculator store: a mutable record of the widget's eight state fields
 * with one setter per field.  Each setter replaces its own field, whole, and
 * nothing else.
 */
module CalculatorStore {
  import opened Wrappers
  import opened CalculatorEngine

  class Store {
    var display: string
    var previousValue: Option<Num>
    var operation: Option<string>
    var waitingForOperand: bool
    var isMinimized: bool
    var position: Point
    var isDragging: bool
    var dragOffset: Point

    /** The store's fields as one record. */
    function State(): CalculatorState
      reads this
    {
      CalculatorState(display, previousValue, operation, waitingForOperand,
                      isMinimized, position, isDragging, dragOffset)
    }

    /** Creating the store: the same initial values as a freshly mounted widget. */
    constructor ()
      ensures State() == InitialState
    {
      display := "0";
      previousValue := None;
      operation := None;
      waitingForOperand := false;
      isMinimized := false;
      position := Point(24, 24);
      isDragging := false;
      dragOffset := Point(0, 0);
    }

    method SetDisplay(value: string)
      modifies this
      ensures State() == old(State()).(display := value)
    {
      display := value;
    }

    method SetPreviousValue(value: Option<Num>)
      modifies this
      ensures State() == old(State()).(previousValue := value)
    {
      previousValue := value;
    }

    method SetOperation(value: Option<string>)
      modifies this
      ensures State() == old(State()).(operation := value)
    {
      operation := value;
    }

    method SetWaitingForOperand(value: bool)
      modifies this
      ensures State() == old(State()).(waitingForOperand := value)
    {
      waitingForOperand := value;
    }

    method SetIsMinimized(value: bool)
      modifies this
      ensures State() == old(State()).(isMinimized := value)
    {
      isMinimized := value;
    }

    /** Replaces the whole position record; nothing of the old one survives. */
    method SetPosition(value: Point)
      modifies this
      ensures State() == old(State()).(position := value)
    {
      position := value;
    }

    method SetIsDragging(value: bool)
      modifies this
      ensures State() == old(State()).(isDragging := value)
    {
      isDragging := value;
    }

    /** Replaces the whole drag-offset record. */
    method SetDragOffset(value: Point)
      modifies this
      ensures State() == old(State()).(dragOffset := value)
    {
      dragOffset := value;
    }
  }

  /** A client of the store: setting a field twice to the same value is
      setting it once, and each setter leaves the other seven fields alone. */
  method SetTwice(display: string, position: Point) returns (once: CalculatorState, twice: CalculatorState)
    ensures once == twice
    ensures once == InitialState.(display := display, position := position)
  {
    var a := new Store();
    a.SetDisplay(display);
    a.SetPosition(position);
    once := a.State();
    var b := new Store();
    b.SetDisplay(display);
    b.SetDisplay(display);
    b.SetPosition(position);
    b.SetPosition(position);
    twice := b.State();
  }
}
