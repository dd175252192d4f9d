/** Digit labels and the decimal value of a run of digits. */
module Digits {

  type Digit = d: int | 0 <= d <= 9

  predicate IsDigitChar(c: char) {
    '0' <= c <= '9'
  }

  /** The character that shows digit `d` on its button. */
  function DigitChar(d: Digit): (c: char)
    ensures IsDigitChar(c)
    ensures c as int - '0' as int == d
  {
    ('0' as int + d) as char
  }

  /** The value of a digit character. */
  function CharValue(c: char): (d: Digit)
    requires IsDigitChar(c)
    ensures DigitChar(d) == c
  {
    c as int - '0' as int
  }

  /** The longest prefix of `s` made of decimal digits, as digit values. */
  function DigitPrefix(s: seq<char>): (ds: seq<Digit>)
    ensures |ds| <= |s|
    ensures forall i :: 0 <= i < |ds| ==> IsDigitChar(s[i]) && ds[i] == CharValue(s[i])
    ensures |ds| < |s| ==> !IsDigitChar(s[|ds|])
  {
    if s == [] || !IsDigitChar(s[0]) then [] else [CharValue(s[0])] + DigitPrefix(s[1..])
  }

  /** Horner's rule, one digit at a time from the left: the value a display
      reaches when it is multiplied by ten and the next digit added. */
  function DecimalValue(ds: seq<Digit>): (v: real)
    ensures 0.0 <= v
  {
    if ds == [] then 0.0 else DecimalValue(ds[..|ds| - 1]) * 10.0 + ds[|ds| - 1] as real
  }

  function Pow10(n: nat): (p: real)
    ensures 1.0 <= p
  {
    if n == 0 then 1.0 else 10.0 * Pow10(n - 1)
  }

  /** The positional reading of a digit string: the sum of d_i * 10^(n-1-i). */
  function PositionalSum(ds: seq<Digit>): real {
    if ds == [] then 0.0 else ds[0] as real * Pow10(|ds| - 1) + PositionalSum(ds[1..])
  }

  lemma {:induction false} PositionalSnoc(ds: seq<Digit>, d: Digit)
    ensures PositionalSum(ds + [d]) == PositionalSum(ds) * 10.0 + d as real
  {
    if ds == [] {
      assert [d][1..] == [];
    } else {
      assert (ds + [d])[1..] == ds[1..] + [d];
      PositionalSnoc(ds[1..], d);
      calc {
        PositionalSum(ds + [d]);
        ds[0] as real * Pow10(|ds|) + PositionalSum(ds[1..] + [d]);
        ds[0] as real * (10.0 * Pow10(|ds| - 1)) + PositionalSum(ds[1..]) * 10.0 + d as real;
        (ds[0] as real * Pow10(|ds| - 1) + PositionalSum(ds[1..])) * 10.0 + d as real;
      }
    }
  }

  /** Horner's left-to-right accumulation and the positional sum agree. */
  lemma {:induction false} DecimalIsPositional(ds: seq<Digit>)
    ensures DecimalValue(ds) == PositionalSum(ds)
  {
    if ds != [] {
      var init, last := ds[..|ds| - 1], ds[|ds| - 1];
      assert ds == init + [last];
      DecimalIsPositional(init);
      PositionalSnoc(init, last);
    }
  }

  /** `atof` on a button label: the value of its leading digits (0 when it
      does not start with a digit). */
  function Atof(title: seq<char>): (v: real)
    ensures 0.0 <= v
    ensures |title| == 0 || !IsDigitChar(title[0]) ==> v == 0.0
  {
    DecimalValue(DigitPrefix(title))
  }

  /** A single-character digit label reads as that digit. */
  lemma AtofDigit(d: Digit)
    ensures Atof([DigitChar(d)]) == d as real
  {
    var c := DigitChar(d);
    assert [c][1..] == [];
    assert DigitPrefix([c]) == [CharValue(c)] + DigitPrefix([]);
    assert DigitPrefix([c]) == [d];
    assert [d][..0] == [];
    assert DecimalValue([d]) == DecimalValue([]) * 10.0 + d as real;
  }
}
