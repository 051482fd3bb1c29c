/**
 * The Luhn "double-add-double" mod-10 check of ISO/IEC 7812-1 (Annex B), as both
 * credit-card validators compute it: walking the digit string from the right,
 * every second digit (the second from the right, the fourth, ...) is doubled,
 * 9 is subtracted from a doubled value above 9, and everything is summed. The
 * number passes when the sum is a multiple of 10.
 */
module Luhn {
  import opened Text

  /** What one digit contributes, doubled or not. */
  function Contribution(c: char, doubled: bool): (v: int)
    ensures 0 <= v <= 9
  {
    var d := DigitValue(c);
    if doubled then (if d * 2 > 9 then d * 2 - 9 else d * 2) else d
  }

  /** The sum over `s`, peeling digits off its right end; `doubled` says whether the last digit is doubled. */
  function SumFrom(s: string, doubled: bool): int {
    if s == [] then 0 else SumFrom(s[..|s| - 1], !doubled) + Contribution(s[|s| - 1], doubled)
  }

  /** The Luhn sum of a digit string: its rightmost digit is not doubled. */
  function LuhnSum(s: string): int {
    SumFrom(s, false)
  }

  predicate PassesLuhn(s: string) {
    LuhnSum(s) % 10 == 0
  }

  /**
   * The loop both validators run: `sum` and `isEven` are updated digit by digit
   * from the right end of the string.
   */
  method LuhnChecksum(digits: string) returns (sum: int)
    ensures sum == LuhnSum(digits)
    ensures 0 <= sum <= 9 * |digits|
  {
    sum := 0;
    var isEven := false;
    var i := |digits|;
    assert digits[..i] == digits;
    while i > 0
      invariant 0 <= i <= |digits|
      invariant sum + SumFrom(digits[..i], isEven) == LuhnSum(digits)
      invariant 0 <= sum <= 9 * (|digits| - i)
    {
      assert digits[..i][..i - 1] == digits[..i - 1];
      i := i - 1;
      var digit := DigitValue(digits[i]);
      if isEven {
        digit := digit * 2;
        if digit > 9 {
          digit := digit - 9;
        }
      }
      sum := sum + digit;
      isEven := !isEven;
    }
  }

  /** Each step adds a value in 0..9, so the sum lies between 0 and nine times the length. */
  lemma {:induction false} SumBounds(s: string, doubled: bool)
    ensures 0 <= SumFrom(s, doubled) <= 9 * |s|
  {
    if s != [] {
      SumBounds(s[..|s| - 1], !doubled);
    }
  }

  /** Whether position `i` of an `n`-digit string is doubled when the last digit has flag `doubled`. */
  function DoubledAt(n: nat, i: nat, doubled: bool): bool
    requires i < n
  {
    if (n - 1 - i) % 2 == 0 then doubled else !doubled
  }

  /** Replacing one digit changes the sum by exactly the change in that digit's contribution. */
  lemma {:induction false} ReplaceDigit(s: string, i: nat, c: char, doubled: bool)
    requires i < |s|
    ensures SumFrom(s[i := c], doubled) - SumFrom(s, doubled)
         == Contribution(c, DoubledAt(|s|, i, doubled)) - Contribution(s[i], DoubledAt(|s|, i, doubled))
  {
    var t := s[i := c];
    var n := |s|;
    if i == n - 1 {
      assert t[..n - 1] == s[..n - 1];
    } else {
      assert t[..n - 1] == s[..n - 1][i := c];
      ReplaceDigit(s[..n - 1], i, c, !doubled);
    }
  }

  /** Two different digits never contribute the same value, doubled or not. */
  lemma ContributionInjective(a: char, b: char, doubled: bool)
    requires IsDigit(a) && IsDigit(b) && a != b
    ensures Contribution(a, doubled) != Contribution(b, doubled)
  {
  }

  /**
   * The purpose of the check digit: changing any single digit of a number that
   * passes the check yields a number that fails it.
   */
  lemma SingleDigitErrorDetected(s: string, i: nat, c: char)
    requires AllDigits(s) && i < |s| && IsDigit(c) && c != s[i]
    requires PassesLuhn(s)
    ensures !PassesLuhn(s[i := c])
  {
    var b := DoubledAt(|s|, i, false);
    ReplaceDigit(s, i, c, false);
    ContributionInjective(c, s[i], b);
    var change := Contribution(c, b) - Contribution(s[i], b);
    assert LuhnSum(s[i := c]) == LuhnSum(s) + change;
    NonzeroShiftLeavesMultiple(LuhnSum(s), change);
  }

  /** Adding a nonzero amount smaller than ten in size to a multiple of ten never gives a multiple of ten. */
  lemma NonzeroShiftLeavesMultiple(x: int, k: int)
    requires x % 10 == 0 && -10 < k < 10 && k != 0
    ensures (x + k) % 10 != 0
  {
    var q := x / 10;
    assert x == 10 * q;
    if k > 0 {
      assert (10 * q + k) % 10 == k;
    } else {
      assert 10 * q + k == 10 * (q - 1) + (k + 10);
      assert (10 * (q - 1) + (k + 10)) % 10 == k + 10;
    }
  }
}
