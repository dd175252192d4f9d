/** The calculator's input state machine as values: one state record and one
    transition per kind of button. These functions are the specification the
    imperative handlers of module Calc are proved against. */
module Machine {
  import opened Arith
  import opened Digits

  /** The calculator state record. `lastOp` is NoOp when nothing is pending;
      `shown` is the last value handed to the display. */
  datatype State = State(
    display: real,
    acc: real,
    lastOp: char,
    newNumber: bool,
    shown: real)

  /** Every state the buttons can reach has no operator or one of + - * /. */
  predicate WellFormed(s: State) {
    s.lastOp == NoOp || IsOperator(s.lastOp)
  }

  /** The state at program start: value 0, nothing pending, a new number due. */
  function Init(): (s: State)
    ensures WellFormed(s) && s.lastOp == NoOp && s.newNumber
    ensures s.display == 0.0 && s.shown == 0.0 && s.acc == 0.0
  {
    State(0.0, 0.0, NoOp, true, 0.0)
  }

  /** A digit button. In new-number mode the label's value replaces the
      display; otherwise it is appended as a further decimal digit, except
      that a label starting with '.' is ignored. */
  function NumberStep(s: State, title: seq<char>): (r: State)
    ensures r.acc == s.acc && r.lastOp == s.lastOp && !r.newNumber
    ensures s.newNumber ==> r.display == Atof(title) && r.shown == r.display
    ensures !s.newNumber && |title| > 0 && title[0] == '.' ==> r == s
    ensures !s.newNumber && !(|title| > 0 && title[0] == '.') ==>
      r.display - Atof(title) == s.display * 10.0 && r.shown == r.display
  {
    if s.newNumber then
      s.(display := Atof(title), newNumber := false, shown := Atof(title))
    else if |title| > 0 && title[0] == '.' then
      s
    else
      var v := s.display * 10.0 + Atof(title);
      s.(display := v, shown := v)
  }

  /** Whether an operator press evaluates the pending operation first. */
  predicate Evaluates(s: State) {
    s.lastOp != NoOp && !s.newNumber
  }

  /** An operator button. A pending operation whose right operand has been
      typed is evaluated into the accumulator; otherwise the accumulator takes
      the display value. Either way `op` becomes pending and a new number is
      due; the display value itself is never touched. */
  function OperatorStep(s: State, op: char): (r: State)
    ensures r.lastOp == op && r.newNumber && r.display == s.display
    ensures Evaluates(s) ==> r.acc == Perform(s.acc, s.lastOp, s.display) && r.shown == r.acc
    ensures !Evaluates(s) ==> r.acc == s.display && r.shown == s.shown
  {
    if Evaluates(s) then
      var a := Perform(s.acc, s.lastOp, s.display);
      s.(acc := a, shown := a, lastOp := op, newNumber := true)
    else
      s.(acc := s.display, lastOp := op, newNumber := true)
  }

  /** The equals button. With nothing pending it changes nothing; otherwise
      the result goes to the display and the machine returns to the start
      condition: accumulator 0, nothing pending, a new number due. */
  function EqualsStep(s: State): (r: State)
    ensures r.lastOp == NoOp
    ensures s.lastOp == NoOp ==> r == s
    ensures s.lastOp != NoOp ==>
      r.display == Perform(s.acc, s.lastOp, s.display) && r.shown == r.display &&
      r.acc == 0.0 && r.newNumber
  {
    if s.lastOp != NoOp then
      var v := Perform(s.acc, s.lastOp, s.display);
      s.(display := v, shown := v, acc := 0.0, lastOp := NoOp, newNumber := true)
    else
      s
  }

  /** The first character of a button title; an empty title reads as NUL. */
  function Lead(title: seq<char>): (c: char)
    ensures |title| > 0 ==> c == title[0]
  {
    if |title| > 0 then title[0] else '\0'
  }

  /** A button press, dispatched on the first character of its title: digit
      titles go to the number handler, "=" to equals and + - * / to the
      operator handler; a decimal point, an unrecognised or an empty title
      changes nothing. */
  function ButtonStep(s: State, title: seq<char>): (r: State)
    ensures |title| > 0 && IsDigitChar(title[0]) ==> r == NumberStep(s, title)
    ensures |title| > 0 && title[0] == '=' ==> r == EqualsStep(s)
    ensures |title| > 0 && IsOperator(title[0]) ==> r == OperatorStep(s, title[0])
    ensures |title| == 0 || !(IsDigitChar(title[0]) || title[0] == '=' || IsOperator(title[0]))
            ==> r == s
  {
    var c := Lead(title);
    if IsDigitChar(c) then NumberStep(s, title)
    else if c == '.' then s
    else if c == '=' then EqualsStep(s)
    else if IsOperator(c) then OperatorStep(s, c)
    else s
  }

  /** The state after a sequence of button presses, oldest first. */
  function Run(s: State, titles: seq<seq<char>>): State
  {
    if titles == [] then s else ButtonStep(Run(s, titles[..|titles| - 1]), titles[|titles| - 1])
  }

  // ---------------------------------------------------------------------
  // Invariants of button presses

  /** Button presses keep the pending operator among none, + - * /. */
  lemma ButtonWellFormed(s: State, title: seq<char>)
    requires WellFormed(s)
    ensures WellFormed(ButtonStep(s, title))
  {
  }

  lemma {:induction false} RunWellFormed(s: State, titles: seq<seq<char>>)
    requires WellFormed(s)
    ensures WellFormed(Run(s, titles))
  {
    if titles != [] {
      RunWellFormed(s, titles[..|titles| - 1]);
      ButtonWellFormed(Run(s, titles[..|titles| - 1]), titles[|titles| - 1]);
    }
  }

  lemma RunSnoc(s: State, titles: seq<seq<char>>, t: seq<char>)
    ensures Run(s, titles + [t]) == ButtonStep(Run(s, titles), t)
  {
    assert (titles + [t])[..|titles|] == titles;
  }

  /** Pressing a sequence of buttons in two parts is pressing them all. */
  lemma {:induction false} RunAppend(s: State, a: seq<seq<char>>, b: seq<seq<char>>)
    ensures Run(s, a + b) == Run(Run(s, a), b)
  {
    if b == [] {
      assert a + b == a;
    } else {
      assert (a + b)[..|a + b| - 1] == a + b[..|b| - 1];
      RunAppend(s, a, b[..|b| - 1]);
    }
  }

  // ---------------------------------------------------------------------
  // Number entry

  /** The one-character titles of a digit string. */
  function Titles(ds: seq<Digit>): (ts: seq<seq<char>>)
    ensures |ts| == |ds|
    ensures forall i :: 0 <= i < |ds| ==> ts[i] == [DigitChar(ds[i])]
  {
    if ds == [] then [] else Titles(ds[..|ds| - 1]) + [[DigitChar(ds[|ds| - 1])]]
  }

  /** Typing digits d1..dn starting in new-number mode shows their decimal
      value, and leaves the accumulator and the pending operator alone. */
  lemma {:induction false} DigitRun(s: State, ds: seq<Digit>)
    requires s.newNumber && ds != []
    ensures var r := Run(s, Titles(ds));
      r.display == DecimalValue(ds) && r.shown == r.display &&
      r.acc == s.acc && r.lastOp == s.lastOp && !r.newNumber
  {
    var init, last := ds[..|ds| - 1], ds[|ds| - 1];
    var ts := Titles(ds);
    assert ts[..|ts| - 1] == Titles(init);
    AtofDigit(last);
    if init == [] {
      assert Run(s, Titles(init)) == s;
    } else {
      DigitRun(s, init);
    }
  }

  /** The same, read positionally: d1*10^(n-1) + ... + dn. */
  lemma DigitRunPositional(s: State, ds: seq<Digit>)
    requires s.newNumber && ds != []
    ensures Run(s, Titles(ds)).display == PositionalSum(ds)
  {
    DigitRun(s, ds);
    DecimalIsPositional(ds);
  }

  // ---------------------------------------------------------------------
  // Operators and equals

  /** Two operators back to back with no evaluation pending: the second
      simply replaces the first. */
  lemma OperatorReplaces(s: State, a: char, b: char)
    requires !Evaluates(s)
    ensures OperatorStep(OperatorStep(s, a), b) == OperatorStep(s, b)
  {
  }

  /** A second equals right after the first changes nothing. */
  lemma EqualsIdempotent(s: State)
    ensures EqualsStep(EqualsStep(s)) == EqualsStep(s)
  {
  }

  // ---------------------------------------------------------------------
  // Left-to-right chaining

  /** An operator followed by the digits of its right operand. */
  datatype Term = Term(op: char, operand: seq<Digit>)

  /** A chain `n0 op1 n1 ... opk nk` is well formed when every operand has
      at least one digit and every operator is one of + - * /. */
  predicate ValidChain(first: seq<Digit>, rest: seq<Term>) {
    first != [] && forall i :: 0 <= i < |rest| ==> IsOperator(rest[i].op) && rest[i].operand != []
  }

  /** The button titles that type the chain. */
  function ChainTitles(first: seq<Digit>, rest: seq<Term>): seq<seq<char>> {
    if rest == [] then Titles(first)
    else
      var t := rest[|rest| - 1];
      ChainTitles(first, rest[..|rest| - 1]) + [[t.op]] + Titles(t.operand)
  }

  /** The chain's value evaluated strictly left to right, no precedence. */
  function EvalLeft(first: seq<Digit>, rest: seq<Term>): real {
    if rest == [] then DecimalValue(first)
    else
      var t := rest[|rest| - 1];
      Perform(EvalLeft(first, rest[..|rest| - 1]), t.op, DecimalValue(t.operand))
  }

  /** The value an equals press would show in state `s`. */
  function Pending(s: State): (v: real)
    ensures EqualsStep(s).display == v
  {
    if s.lastOp == NoOp then s.display else Perform(s.acc, s.lastOp, s.display)
  }

  lemma {:induction false} ChainPrefix(s: State, first: seq<Digit>, rest: seq<Term>)
    requires s.newNumber && s.lastOp == NoOp && ValidChain(first, rest)
    ensures var r := Run(s, ChainTitles(first, rest));
      Pending(r) == EvalLeft(first, rest) && !r.newNumber &&
      r.lastOp == (if rest == [] then NoOp else rest[|rest| - 1].op)
  {
    if rest == [] {
      DigitRun(s, first);
    } else {
      var init, t := rest[..|rest| - 1], rest[|rest| - 1];
      assert ValidChain(first, init);
      ChainPrefix(s, first, init);
      var pre := ChainTitles(first, init);
      var p := Run(s, pre);
      RunAppend(s, pre + [[t.op]], Titles(t.operand));
      RunAppend(s, pre, [[t.op]]);
      assert [[t.op]][..0] == [];
      var q := Run(s, pre + [[t.op]]);
      assert q == OperatorStep(p, t.op);
      assert q.acc == EvalLeft(first, init);
      DigitRun(q, t.operand);
    }
  }

  /** Typing a chain and pressing equals shows its left-to-right value and
      returns to the start condition. */
  lemma ChainLeftToRight(s: State, first: seq<Digit>, rest: seq<Term>)
    requires s.newNumber && s.lastOp == NoOp && ValidChain(first, rest)
    ensures var r := Run(s, ChainTitles(first, rest) + [['=']]);
      r.display == EvalLeft(first, rest) && r.lastOp == NoOp && (rest != [] ==> r.newNumber)
  {
    ChainPrefix(s, first, rest);
    var ts := ChainTitles(first, rest);
    assert (ts + [['=']])[..|ts|] == ts;
  }

  /** `7 + 3 + 2 =` shows 12. */
  lemma SevenPlusThreePlusTwo()
    ensures Run(Init(), [['7'], ['+'], ['3'], ['+'], ['2'], ['=']]).display == 12.0
  {
    var rest := [Term('+', [3]), Term('+', [2])];
    ChainLeftToRight(Init(), [7], rest);
    assert ChainTitles([7], rest) + [['=']] == [['7'], ['+'], ['3'], ['+'], ['2'], ['=']];
  }

  /** `5 + - 3 =` shows 2: the `+` is replaced, not evaluated. */
  lemma FivePlusMinusThree()
    ensures Run(Init(), [['5'], ['+'], ['-'], ['3'], ['=']]).display == 2.0
  {
    AtofDigit(5);
    AtofDigit(3);
    var s1 := ButtonStep(Init(), ['5']);
    assert s1.display == 5.0 && s1.lastOp == NoOp && !s1.newNumber;
    var s2 := ButtonStep(s1, ['+']);
    var s3 := ButtonStep(s2, ['-']);
    assert s3.acc == 5.0 && s3.lastOp == '-' && s3.newNumber;
    var s4 := ButtonStep(s3, ['3']);
    assert s4.display == 3.0 && s4.acc == 5.0 && s4.lastOp == '-';
    var t1, t2, t3, t4 := [['5']], [['5'], ['+']], [['5'], ['+'], ['-']], [['5'], ['+'], ['-'], ['3']];
    RunSnoc(Init(), [], ['5']);
    assert [] + [['5']] == t1;
    RunSnoc(Init(), t1, ['+']);
    assert t1 + [['+']] == t2;
    RunSnoc(Init(), t2, ['-']);
    assert t2 + [['-']] == t3;
    RunSnoc(Init(), t3, ['3']);
    assert t3 + [['3']] == t4;
    assert Run(Init(), t4) == s4;
    RunSnoc(Init(), t4, ['=']);
    assert t4 + [['=']] == [['5'], ['+'], ['-'], ['3'], ['=']];
  }
}
