/**
 * Luhn's weighting of digits (`modi` in main.py) and the weighted sum of a
 * digit string that the card-number check compares against 0 modulo 10.
 */
module Luhn {
  import opened Digits

  /**
   * `modi(p, n)`: at an even position the digit is doubled, and nine is taken
   * off a doubled digit above 4; at an odd position the digit counts as it is.
   */
  function Modi(pos: nat, d: int): int {
    if pos % 2 == 0 then
      if d > 4 then d * 2 - 9 else d * 2
    else
      d
  }

  /** The sum of the decimal digits of a number: the textbook reading of Luhn's doubling. */
  function DigitSum(x: nat): nat {
    if x < 10 then x else x % 10 + DigitSum(x / 10)
  }

  /**
   * For a digit, the weight is again a digit: the digit sum of its double at
   * an even position and the digit itself at an odd one.
   */
  lemma ModiIsLuhnWeight(pos: nat, d: int)
    requires 0 <= d <= 9
    ensures 0 <= Modi(pos, d) <= 9
    ensures pos % 2 == 0 ==> Modi(pos, d) == DigitSum(2 * d)
    ensures pos % 2 == 1 ==> Modi(pos, d) == d
  {
  }

  /** At a fixed position, different digits have different weights. */
  lemma ModiInjective(pos: nat, d1: int, d2: int)
    requires 0 <= d1 <= 9 && 0 <= d2 <= 9 && d1 != d2
    ensures Modi(pos, d1) != Modi(pos, d2)
  {
  }

  /**
   * The weighted sum of a string: the sum over positions i of
   * `modi(i, int(s[i]))`, the quantity accumulated at main.py:103-105.
   */
  function LuhnSum(s: string): int
    decreases |s|
  {
    if s == [] then 0 else LuhnSum(s[..|s| - 1]) + Modi(|s| - 1, Val(s[|s| - 1]))
  }

  /** Luhn's check passes: the weighted sum is a multiple of ten. */
  predicate LuhnValid(s: string) {
    LuhnSum(s) % 10 == 0
  }

  /** The checksum loop of main.py:103-105, accumulating the weights from left to right. */
  method Checksum(s: string) returns (sum: int)
    ensures sum == LuhnSum(s)
  {
    sum := 0;
    for i := 0 to |s|
      invariant sum == LuhnSum(s[..i])
    {
      LuhnSumSnoc(s, i);
      sum := sum + Modi(i, Val(s[i]));
    }
    assert s[..|s|] == s;
  }

  /** Two strings that differ at one position only differ in sum by the two weights there. */
  lemma {:induction false} LuhnSumOneChange(s: string, u: string, k: nat)
    requires |s| == |u| && k < |s|
    requires forall i :: 0 <= i < |s| && i != k ==> s[i] == u[i]
    ensures LuhnSum(s) - LuhnSum(u) == Modi(k, Val(s[k])) - Modi(k, Val(u[k]))
    decreases |s|
  {
    var n := |s| - 1;
    if k == n {
      assert s[..n] == u[..n];
    } else {
      LuhnSumOneChange(s[..n], u[..n], k);
    }
  }

  /** Two integers less than ten apart, but not equal, lie in different residue classes modulo 10. */
  lemma ResiduesApart(a: int, b: int)
    requires a != b && -10 < a - b < 10
    ensures a % 10 != b % 10
  {
  }

  /**
   * Luhn's check catches every single mistyped digit: of two digit strings
   * that differ at exactly one position, at most one passes.
   */
  lemma SingleErrorDetected(s: string, u: string, k: nat)
    requires |s| == |u| && k < |s| && s[k] != u[k]
    requires IsDigit(s[k]) && IsDigit(u[k])
    requires forall i :: 0 <= i < |s| && i != k ==> s[i] == u[i]
    ensures LuhnSum(s) % 10 != LuhnSum(u) % 10
  {
    LuhnSumOneChange(s, u, k);
    ModiIsLuhnWeight(k, Val(s[k]));
    ModiIsLuhnWeight(k, Val(u[k]));
    ModiInjective(k, Val(s[k]), Val(u[k]));
    ResiduesApart(LuhnSum(s), LuhnSum(u));
  }

  /** One more position adds its weight to the sum of the prefix before it. */
  lemma LuhnSumSnoc(s: string, k: nat)
    requires k < |s|
    ensures LuhnSum(s[..k + 1]) == LuhnSum(s[..k]) + Modi(k, Val(s[k]))
  {
    assert s[..k + 1][..k] == s[..k];
  }

  /** The sum of a 16-symbol string written out term by term. */
  lemma LuhnSum16(s: string)
    requires |s| == 16
    ensures LuhnSum(s) ==
      Modi(0, Val(s[0])) + Modi(1, Val(s[1])) + Modi(2, Val(s[2])) + Modi(3, Val(s[3])) +
      Modi(4, Val(s[4])) + Modi(5, Val(s[5])) + Modi(6, Val(s[6])) + Modi(7, Val(s[7])) +
      Modi(8, Val(s[8])) + Modi(9, Val(s[9])) + Modi(10, Val(s[10])) + Modi(11, Val(s[11])) +
      Modi(12, Val(s[12])) + Modi(13, Val(s[13])) + Modi(14, Val(s[14])) + Modi(15, Val(s[15]))
  {
    assert s[..0] == [];
    LuhnSumSnoc(s, 0); LuhnSumSnoc(s, 1); LuhnSumSnoc(s, 2); LuhnSumSnoc(s, 3);
    LuhnSumSnoc(s, 4); LuhnSumSnoc(s, 5); LuhnSumSnoc(s, 6); LuhnSumSnoc(s, 7);
    LuhnSumSnoc(s, 8); LuhnSumSnoc(s, 9); LuhnSumSnoc(s, 10); LuhnSumSnoc(s, 11);
    LuhnSumSnoc(s, 12); LuhnSumSnoc(s, 13); LuhnSumSnoc(s, 14); LuhnSumSnoc(s, 15);
    assert s[..16] == s;
  }
}
