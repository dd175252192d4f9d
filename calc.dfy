/** The calculator's global state record and its button handlers, which
    update that record field by field. Each handler is proved to move the
    record exactly as the matching transition of module Machine. */
module Calc {
  import opened Arith
  import opened Digits
  import opened Machine

  class Calculator {
    var displayValue: real
    var accumulator: real
    /** NoOp when no operator is pending. */
    var lastOperator: char
    var newNumber: bool
    /** The last value handed to the display text field. */
    ghost var shown: real

    /** The record as a value of the specification's state type. */
    ghost function Snapshot(): State
      reads this
    {
      State(displayValue, accumulator, lastOperator, newNumber, shown)
    }

    /** The record at program start; the display text field starts at "0". */
    constructor ()
      ensures Snapshot() == Init()
      ensures WellFormed(Snapshot())
    {
      displayValue, accumulator, lastOperator, newNumber := 0.0, 0.0, NoOp, true;
      shown := 0.0;
    }

    /** Shows `value`; only the text of the display changes. */
    method UpdateDisplay(value: real)
      modifies this`shown
      ensures shown == value
    {
      shown := value;
    }

    method HandleNumber(title: seq<char>)
      modifies this
      ensures Snapshot() == NumberStep(old(Snapshot()), title)
      ensures accumulator == old(accumulator) && lastOperator == old(lastOperator)
      ensures !newNumber
    {
      var digit := Atof(title);
      if newNumber {
        displayValue := digit;
        newNumber := false;
      } else {
        if |title| > 0 && title[0] == '.' {
          return;
        }
        displayValue := displayValue * 10.0 + digit;
      }
      UpdateDisplay(displayValue);
    }

    method HandleOperator(op: char)
      modifies this
      ensures Snapshot() == OperatorStep(old(Snapshot()), op)
      ensures lastOperator == op && newNumber && displayValue == old(displayValue)
    {
      if lastOperator != NoOp && !newNumber {
        accumulator := Perform(accumulator, lastOperator, displayValue);
        UpdateDisplay(accumulator);
      } else {
        accumulator := displayValue;
      }
      lastOperator := op;
      newNumber := true;
    }

    method HandleEquals()
      modifies this
      ensures Snapshot() == EqualsStep(old(Snapshot()))
      ensures lastOperator == NoOp
      ensures old(lastOperator) == NoOp ==> Snapshot() == old(Snapshot())
    {
      if lastOperator != NoOp {
        displayValue := Perform(accumulator, lastOperator, displayValue);
        UpdateDisplay(displayValue);
        accumulator := 0.0;
        lastOperator := NoOp;
        newNumber := true;
      }
    }

    /** A button press, dispatched on the first character of its title. */
    method ButtonClicked(title: seq<char>)
      modifies this
      ensures Snapshot() == ButtonStep(old(Snapshot()), title)
      ensures old(WellFormed(Snapshot())) ==> WellFormed(Snapshot())
    {
      var c := if |title| > 0 then title[0] else '\0';
      if '0' <= c <= '9' {
        HandleNumber(title);
      } else if c == '.' {
        // Decimal entry is not implemented: the press is only reported.
      } else if c == '=' {
        HandleEquals();
      } else if c == '+' || c == '-' || c == '*' || c == '/' {
        HandleOperator(c);
      } else {
        // An unknown title is only reported.
      }
    }
  }
}
