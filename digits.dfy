/**
 * The input alphabet of the automaton: the ten digit characters, the list
 * `n = [str(x) for x in range(10)]` of main.py, and the decimal spelling
 * `str(x)` of a natural number that the state names are made of.
 */
module Digits {

  /** A symbol of the alphabet. */
  predicate IsDigit(c: char) {
    '0' <= c <= '9'
  }

  /** The value `int(c)` of a digit character. */
  function Val(c: char): int {
    c as int - '0' as int
  }

  /** `n[d]` in main.py: the symbol that spells the digit `d`. */
  function Digit(d: nat): (c: char)
    requires d <= 9
    ensures IsDigit(c) && Val(c) == d
  {
    (48 + d) as char
  }

  /** Every symbol is the spelling of its own value. */
  lemma DigitOfVal(c: char)
    requires IsDigit(c)
    ensures 0 <= Val(c) <= 9 && Digit(Val(c)) == c
  {
  }

  /** `str(x)` for a natural number: its decimal spelling, most significant digit first. */
  function NatToString(x: nat): (s: string)
    ensures 1 <= |s|
    ensures forall i :: 0 <= i < |s| ==> IsDigit(s[i])
    ensures x < 10 <==> |s| == 1
  {
    if x < 10 then [Digit(x)] else NatToString(x / 10) + [Digit(x % 10)]
  }

  /** Distinct numbers have distinct spellings. */
  lemma {:induction false} NatToStringInjective(x: nat, y: nat)
    requires NatToString(x) == NatToString(y)
    ensures x == y
    decreases x
  {
    var sx, sy := NatToString(x), NatToString(y);
    if x >= 10 && y >= 10 {
      assert sx[|sx| - 1] == Digit(x % 10);
      assert sy[|sy| - 1] == Digit(y % 10);
      assert NatToString(x / 10) == sx[..|sx| - 1] == sy[..|sy| - 1] == NatToString(y / 10);
      NatToStringInjective(x / 10, y / 10);
    }
  }
}
