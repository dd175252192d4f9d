/** The arithmetic evaluator of the calculator: one binary operation on
    exact reals, selected by the operator character. */
module Arith {

  /** The four operator characters the calculator's buttons carry. */
  predicate IsOperator(c: char) {
    c == '+' || c == '-' || c == '*' || c == '/'
  }

  /** The "no pending operator" marker (a NUL character in the source). */
  const NoOp: char := '\0'

  /** `lhs op rhs`. Division by zero yields 0 rather than a fault, and an
      unknown operator character yields the right operand unchanged. */
  function Perform(lhs: real, op: char, rhs: real): (r: real)
    ensures op == '+' ==> r - rhs == lhs
    ensures op == '-' ==> r + rhs == lhs
    ensures op == '*' ==> r == lhs * rhs
    ensures op == '/' && rhs != 0.0 ==> r * rhs == lhs
    ensures op == '/' && rhs == 0.0 ==> r == 0.0
    ensures !IsOperator(op) ==> r == rhs
  {
    match op
    case '+' => lhs + rhs
    case '-' => lhs - rhs
    case '*' => lhs * rhs
    case '/' => if rhs != 0.0 then lhs / rhs else 0.0
    case _ => rhs
  }
}
