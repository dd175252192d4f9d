# Calculator input state machine

A Dafny model of the arithmetic core of a minimal macOS calculator written in
plain C (`calculator.c`). The calculator keeps one global state record: the
value being entered or shown (`display_value`), the left operand held across a
pending operator (`accumulator`), the pending operator character (`last_operator`,
NUL when none) and a flag saying that the next digit starts a new number
(`new_number`). Button presses are dispatched on the first character of the
button title to three handlers (digit, operator, equals), which update the
record in place. The evaluator `perform_operation` applies `+ - * /` with
division by zero yielding 0.

Layout:

- `arith.dfy`, module `Arith`: the evaluator `Perform` and the operator characters.
- `digits.dfy`, module `Digits`: digit titles, `Atof` on a title, and the decimal
  value of a digit run (Horner's left-to-right accumulation and the positional sum,
  proved equal).
- `machine.dfy`, module `Machine`: the state record as a value (`State`) and one
  pure transition per handler plus the dispatcher. These are the specification.
  Lemmas about them cover well-formedness, digit entry, operator replacement,
  equals and left-to-right chaining.
- `calc.dfy`, module `Calc`: class `Calculator`, the global record with its fields.
  Its handler methods update the fields step by step as the C code does. Each is
  proved to move the record exactly as the matching `Machine` transition.
- `operator_fix.dfy`, module `OperatorFix`: the finding below.

Values are exact `real`s, an abstraction of IEEE doubles. The ghost field `shown`
records the last value handed to `update_display`, standing for the text of the
display field. It starts at 0 because the field is created showing "0".

## Model

| member | source | states |
|---|---|---|
| `Arith.Perform` | calculator.c:112-119 | `+` gives the sum and `-` the difference. `*` gives the product. `/` gives a quotient q with q·rhs = lhs when rhs ≠ 0, and exactly 0 when rhs = 0. Any other operator character yields rhs. |
| `Digits.DigitPrefix` | calculator.c:124 | The result is the longest prefix of the title made of decimal digits, each read as its value. |
| `Digits.Atof` | calculator.c:124 | A title's value is non-negative. It is 0 when the title is empty or does not start with a digit (so "." reads as 0). |
| `Digits.AtofDigit` | calculator.c:298-303 | Each one-character digit title reads as that digit. |
| `Digits.DecimalIsPositional` | calculator.c:135 | Multiplying by ten and adding the next digit, repeated from the left, gives Σ d_i·10^(n-1-i). |
| `Machine.Init` | calculator.c:94-100 | The start state shows 0, has accumulator 0 and nothing pending, and is in new-number mode. |
| `Machine.NumberStep` | calculator.c:123-139 | The accumulator and the pending operator are unchanged, and new-number mode ends. In new-number mode the title's value replaces the display and is shown. Outside it, a title starting with '.' changes nothing, and any other title is appended as a further decimal digit (display·10 + value), which is shown. |
| `Machine.OperatorStep` | calculator.c:142-157 | Afterwards `op` is pending, new-number mode is on, and the display value is untouched. If an operator was pending and digits followed it, the accumulator becomes the evaluated result and is shown. Otherwise the accumulator takes the display value. |
| `Machine.EqualsStep` | calculator.c:160-172 | Nothing is pending afterwards. With nothing pending before, the state is unchanged. Otherwise the display shows the evaluated result, the accumulator is 0 and new-number mode is on. |
| `Machine.ButtonStep` | calculator.c:180-201 | Digit titles go to the number handler, "=" to equals and `+ - * /` to the operator handler. A '.' title, an unrecognised title or an empty title (read as NUL) leaves the state unchanged. |
| `Machine.ButtonWellFormed` | calculator.c:186-200 | After any button press, the pending operator is still none or one of `+ - * /`. |
| `Machine.RunWellFormed` | calculator.c:186-200 | The same holds after any sequence of button presses. |
| `Machine.DigitRun` | calculator.c:126-135 | Digits d1..dn typed from new-number mode display their decimal value. The accumulator and pending operator are unchanged, and new-number mode is off. |
| `Machine.DigitRunPositional` | calculator.c:126-135 | The same display value, read as d1·10^(n-1) + … + dn. |
| `Machine.OperatorReplaces` | calculator.c:144-155 | When an operator press does not evaluate, a second operator right after it gives the same state as pressing only the second. |
| `Machine.EqualsIdempotent` | calculator.c:160-172 | A second equals right after the first changes nothing. |
| `Machine.ChainPrefix` | calculator.c:142-157 | Typing `n0 op1 n1 … opk nk` from a fresh state leaves a state whose pending value is the chain evaluated strictly left to right. In that state `opk` is pending and new-number mode is off. |
| `Machine.ChainLeftToRight` | calculator.c:142-172 | Typing such a chain and then `=` displays its left-to-right value, with no precedence, and leaves nothing pending. |
| `Machine.SevenPlusThreePlusTwo` | calculator.c:142-172 | `7 + 3 + 2 =` displays 12. |
| `Machine.FivePlusMinusThree` | calculator.c:142-172 | `5 + - 3 =` displays 2, because the `+` is replaced rather than evaluated. |
| `Calc.Calculator.constructor` | calculator.c:94-100 | The record starts as the start state, which is well formed. |
| `Calc.Calculator.UpdateDisplay` | calculator.c:103-109 | Only the shown value changes, and it becomes `value`. |
| `Calc.Calculator.HandleNumber` | calculator.c:123-139 | The fields move exactly as `NumberStep`. The accumulator and pending operator are kept, and new-number mode is off. |
| `Calc.Calculator.HandleOperator` | calculator.c:142-157 | The fields move exactly as `OperatorStep`. `op` is pending, new-number mode is on, and the display value is kept. |
| `Calc.Calculator.HandleEquals` | calculator.c:160-172 | The fields move exactly as `EqualsStep`. Nothing is pending afterwards, and with nothing pending before, nothing changes. |
| `Calc.Calculator.ButtonClicked` | calculator.c:180-201 | The fields move exactly as `ButtonStep`, and the record stays well formed. |
| `OperatorFix.AfterSevenPlusThreePlus` | calculator.c:144-153 | After `7 + 3 +` the accumulator and the shown value are 10. The display value is still 3, and `+` is pending. |
| `OperatorFix.ReplaceAfterChainLosesResult` | calculator.c:151-153 | As written, pressing `-` there resets the accumulator to 3, and `7 + 3 + - 2 =` displays 1. |
| `OperatorFix.EqualsAfterChainReusesOperand` | calculator.c:144-153 | As written, `7 + 3 + =` displays 13 although the display read 10 just before the `=`. |
| `OperatorFix.FixedOperatorStep` | calculator.c:142-157 | Corrected step: while an operator is pending and no digit has followed, the accumulator is kept. In every other state it equals the step as written. |
| `OperatorFix.FixedReplaces` | calculator.c:144-155 | With the correction, a second operator replaces the first from every state. |
| `OperatorFix.FixedChainShowsEight` | calculator.c:142-172 | With the correction, `7 + 3 + - 2 =` displays 8. |

## Findings

| source | as written | input that shows it | evidently intended | confidence | as-written member | corrected member |
|---|---|---|---|---|---|---|
| calculator.c:144-153 | An operator press that evaluates the pending operation puts the result in `accumulator` and on screen, but never stores it in `display_value`, which keeps the last typed operand. Two symptoms follow. An operator pressed straight after it takes the `else` branch and sets `accumulator = display_value`, which discards the result. An equals pressed straight after it applies the new operator to the result and the stale operand. | `7 + 3 + - 2 =` displays 1, and `7 + 3 + =` displays 13; the screen read 10 before the `-` and before the `=`. | Back-to-back operators only replace the pending operator, so the first input gives 10 − 2 = 8. | not executed; follows from the code read as C | `OperatorFix.ReplaceAfterChainLosesResult`, `OperatorFix.EqualsAfterChainReusesOperand` | `OperatorFix.FixedOperatorStep` (property `OperatorFix.FixedReplaces`, `OperatorFix.FixedChainShowsEight`) |

The class `Calc.Calculator` and module `Machine` model the program as written, so
they reproduce this behaviour. The corrected step lives only in `OperatorFix`. It
mends only the replacement path: `7 + 3 + =` still displays 13 with it. Storing the
evaluated result in `display_value` as well (calculator.c:145-150) is the other
candidate fix, and it would mend both symptoms; which of the two outcomes the authors
wanted for `7 + 3 + =` the code does not say, so it is not modelled.

## Left out

- The Objective-C runtime work is not modelled. This covers delegate class registration, the window, text field and button construction, the menu, and the event loop with its `running` flag (calculator.c:203-355). It is GUI plumbing with no logic of its own.
- `update_display`'s `%.10g` formatting and the `setStringValue:` call are not modelled. They are presentation only; the value passed is recorded in the ghost field `shown`.
- The `printf` reports for the decimal point and for unknown titles are left out. They are console output; the model leaves the state unchanged in both cases.
- IEEE-754 double rounding, overflow, infinities and NaN are not modelled; values are exact reals.
- Digits.Atof: reads only the leading run of decimal digits. `atof`'s leading whitespace, sign, fraction and exponent are not modelled, because every button title is a single character.
- Decimal-point entry and a "has decimal point" flag are not part of the code. The '.' button only prints a message, and `handle_number` returns early on a '.' title when not in new-number mode. The model follows the code here, not a fractional-entry design.
- menu-without-bundle.c, test_menu.c and test_menu_detailed.c are not part of this model. They only build NSApplication, NSMenu and NSWindow objects and run the event loop.
