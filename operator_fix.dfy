/** Operator replacement after a chained evaluation. When an operator press
    evaluates a pending operation, the result goes to the accumulator (and
    to the display text) but the display value keeps the last typed operand.
    A second operator pressed straight away then takes the accumulator from
    that operand, so the evaluated result is lost. This module exhibits the
    behaviour of the step as written and proves the replacement property of
    a corrected step that keeps the accumulator while an operator is pending
    and no digit has followed it. That correction mends only the replacement
    path; an equals pressed straight after an evaluating operator still
    reuses the stale operand (storing the result in the display value as
    well would mend both). */
module OperatorFix {
  import opened Arith
  import opened Digits
  import opened Machine

  /** The state after `7 + 3 +`, reached by pressing one button at a time. */
  ghost function AfterSevenPlusThreePlus(): (s: State)
    ensures s == Run(Init(), [['7'], ['+'], ['3'], ['+']])
    ensures s.acc == 10.0 && s.shown == 10.0 && s.display == 3.0
    ensures s.lastOp == '+' && s.newNumber
  {
    AtofDigit(7);
    AtofDigit(3);
    RunSnoc(Init(), [], ['7']);
    assert [] + [['7']] == [['7']];
    RunSnoc(Init(), [['7']], ['+']);
    assert [['7']] + [['+']] == [['7'], ['+']];
    RunSnoc(Init(), [['7'], ['+']], ['3']);
    assert [['7'], ['+']] + [['3']] == [['7'], ['+'], ['3']];
    RunSnoc(Init(), [['7'], ['+'], ['3']], ['+']);
    assert [['7'], ['+'], ['3']] + [['+']] == [['7'], ['+'], ['3'], ['+']];
    ButtonStep(ButtonStep(ButtonStep(ButtonStep(Init(), ['7']), ['+']), ['3']), ['+'])
  }

  /** As written: `7 + 3 + - 2 =` shows 1. The display read 10 before the
      `-`, and replacing `+` by `-` resets the accumulator to 3. */
  lemma ReplaceAfterChainLosesResult()
    ensures OperatorStep(AfterSevenPlusThreePlus(), '-').acc == 3.0
    ensures Run(Init(), [['7'], ['+'], ['3'], ['+'], ['-'], ['2'], ['=']]).display == 1.0
  {
    var s := AfterSevenPlusThreePlus();
    var pre := [['7'], ['+'], ['3'], ['+']];
    AtofDigit(2);
    RunSnoc(Init(), pre, ['-']);
    RunSnoc(Init(), pre + [['-']], ['2']);
    RunSnoc(Init(), pre + [['-']] + [['2']], ['=']);
    assert pre + [['-']] + [['2']] + [['=']] == [['7'], ['+'], ['3'], ['+'], ['-'], ['2'], ['=']];
  }

  /** As written, the same root cause: `7 + 3 + =` shows 13. The display
      read 10 before the `=`, yet equals applies the pending `+` to the
      accumulated 10 and the stale operand 3. */
  lemma EqualsAfterChainReusesOperand()
    ensures AfterSevenPlusThreePlus().shown == 10.0
    ensures Run(Init(), [['7'], ['+'], ['3'], ['+'], ['=']]).display == 13.0
  {
    var pre := [['7'], ['+'], ['3'], ['+']];
    RunSnoc(Init(), pre, ['=']);
    assert pre + [['=']] == [['7'], ['+'], ['3'], ['+'], ['=']];
  }

  /** The corrected operator press: while an operator is pending and no digit
      has followed it, the accumulator is kept and only the operator changes. */
  function FixedOperatorStep(s: State, op: char): (r: State)
    ensures r.lastOp == op && r.newNumber && r.display == s.display && r.shown == OperatorStep(s, op).shown
    ensures s.lastOp != NoOp && s.newNumber ==> r.acc == s.acc
    ensures !(s.lastOp != NoOp && s.newNumber) ==> r == OperatorStep(s, op)
  {
    if s.lastOp != NoOp && s.newNumber then
      s.(lastOp := op)
    else
      OperatorStep(s, op)
  }

  /** With the correction, a second operator replaces the first from every
      state, including right after a chained evaluation. */
  lemma FixedReplaces(s: State, a: char, b: char)
    requires IsOperator(a)
    ensures FixedOperatorStep(FixedOperatorStep(s, a), b) == FixedOperatorStep(s, b)
  {
  }

  /** With the correction, `7 + 3 + - 2 =` shows 8. */
  lemma FixedChainShowsEight()
    ensures EqualsStep(NumberStep(FixedOperatorStep(AfterSevenPlusThreePlus(), '-'), ['2'])).display == 8.0
  {
    AtofDigit(2);
  }
}
