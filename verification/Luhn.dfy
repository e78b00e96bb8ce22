/** The check on candidate card numbers, against the formula of Annex B of ISO/IEC 7812-1. */
module Luhn {
  import opened Decimal

  /** What a digit adds to the sum: itself, or the digits of its double. */
  function Weight(digit: nat, doubled: bool): nat
    requires digit < 10
  {
    if !doubled then digit else if 2 * digit >= 10 then 1 + (2 * digit - 10) else 2 * digit
  }

  /** The sum from right to left, every second digit doubled; `doubled` says whether the rightmost one is. */
  function LuhnSum(digits: string, doubled: bool): nat
    requires AllDigits(digits)
  {
    if digits == [] then 0
    else Weight(DigitValue(digits[|digits| - 1]), doubled) + LuhnSum(digits[..|digits| - 1], !doubled)
  }

  predicate IsLuhn(digits: string)
    requires AllDigits(digits)
  {
    LuhnSum(digits, false) % 10 == 0
  }

  lemma SumStep(digits: string, k: nat, doubled: bool)
    requires k < |digits| && AllDigits(digits[..k + 1])
    ensures AllDigits(digits[..k]) && IsDigit(digits[k])
    ensures LuhnSum(digits[..k + 1], doubled) == Weight(DigitValue(digits[k]), doubled) + LuhnSum(digits[..k], !doubled)
  {
    assert digits[..k + 1][..k] == digits[..k] && digits[..k + 1][k] == digits[k];
  }

  lemma PlacesAlternate(index: nat, parity: nat)
    requires parity < 2
    ensures ((index + 2) % 2 == parity) == (index % 2 == parity) == !((index + 1) % 2 == parity)
  {
  }

  lemma NothingYet(digits: string, doubled: bool)
    ensures LuhnSum(digits[..0], doubled) == 0
  {
  }

  lemma WholeSum(digits: string)
    requires AllDigits(digits)
    ensures digits[..|digits|] == digits && ((|digits| + 1) % 2 == |digits| % 2) == false
  {
  }

  /** The scan from left to right accepts exactly the numbers of 13 to 19 digits that meet the formula. */
  method LuhnValid(digits: string) returns (valid: bool)
    ensures valid <==> 13 <= |digits| <= 19 && AllDigits(digits) && IsLuhn(digits)
  {
    if !(13 <= |digits| <= 19) {
      return false;
    }
    var sum := 0;
    var parity := |digits| % 2;
    NothingYet(digits, 1 % 2 == parity);
    for index := 0 to |digits|
      invariant AllDigits(digits[..index])
      invariant sum == LuhnSum(digits[..index], (index + 1) % 2 == parity)
    {
      hide LuhnSum;
      if !IsDigit(digits[index]) {
        return false;
      }
      PlacesAlternate(index, parity);
      SumStep(digits, index, index % 2 == parity);
      var value := DigitValue(digits[index]);
      if index % 2 == parity {
        value := value * 2;
        if value > 9 {
          value := value - 9;
        }
      }
      sum := sum + value;
    }
    WholeSum(digits);
    valid := sum % 10 == 0;
  }

  // ----- what the formula detects -----

  /** Whether digit `i` of `n` is doubled, when the rightmost one is as `doubled` says. */
  predicate Place(n: nat, i: nat, doubled: bool)
    requires i < n
  {
    if i == n - 1 then doubled else Place(n - 1, i, !doubled)
  }

  lemma {:induction false} NeighboursAlternate(n: nat, i: nat, doubled: bool)
    requires i + 1 < n
    ensures Place(n, i + 1, doubled) == !Place(n, i, doubled)
    decreases n
  {
    if i + 2 < n {
      NeighboursAlternate(n - 1, i, !doubled);
    }
  }

  lemma {:induction false} SumAfterChange(digits: string, i: nat, c: char, doubled: bool)
    requires AllDigits(digits) && i < |digits| && IsDigit(c)
    ensures AllDigits(digits[i := c])
    ensures LuhnSum(digits[i := c], doubled) + Weight(DigitValue(digits[i]), Place(|digits|, i, doubled))
      == LuhnSum(digits, doubled) + Weight(DigitValue(c), Place(|digits|, i, doubled))
    decreases |digits|
  {
    hide Weight;
    var (changed, last) := (digits[i := c], |digits| - 1);
    if i == last {
      assert changed[..last] == digits[..last];
    } else {
      assert changed[..last] == digits[..last][i := c];
      SumAfterChange(digits[..last], i, c, !doubled);
    }
  }

  /** Two close numbers have the same remainder only if they are the same, or ten apart. */
  lemma CloseRemainders(x: nat, y: nat)
    requires -20 < x - y < 20
    ensures x % 10 == y % 10 <==> x - y == 0 || x - y == 10 || y - x == 10
  {
    var (q, r) := (x / 10, y / 10);
    assert x == 10 * q + x % 10 && y == 10 * r + y % 10;
  }

  lemma WeightIsInjective(a: nat, b: nat, doubled: bool)
    requires a < 10 && b < 10 && a != b
    ensures Weight(a, doubled) != Weight(b, doubled) && Weight(a, doubled) <= 9 && Weight(b, doubled) <= 9
  {
  }

  /** Changing one digit always changes the remainder, so a valid number becomes invalid. */
  lemma OneWrongDigit(digits: string, i: nat, c: char)
    requires AllDigits(digits) && i < |digits| && IsDigit(c) && c != digits[i]
    ensures AllDigits(digits[i := c]) && LuhnSum(digits[i := c], false) % 10 != LuhnSum(digits, false) % 10
    ensures IsLuhn(digits) ==> !IsLuhn(digits[i := c])
  {
    SumAfterChange(digits, i, c, false);
    WeightIsInjective(DigitValue(c), DigitValue(digits[i]), Place(|digits|, i, false));
    CloseRemainders(LuhnSum(digits[i := c], false), LuhnSum(digits, false));
    hide LuhnSum, Weight, Place;
  }

  function Swapped(digits: string, i: nat): string
    requires i + 1 < |digits|
  {
    digits[i := digits[i + 1]][i + 1 := digits[i]]
  }

  /** Two neighbours `a` and `b`, one of them doubled. */
  function PairWeight(a: nat, b: nat, firstDoubled: bool): nat
    requires a < 10 && b < 10
  {
    Weight(a, firstDoubled) + Weight(b, !firstDoubled)
  }

  lemma SumAfterTwoChanges(digits: string, i: nat, a: char, b: char)
    requires AllDigits(digits) && i + 1 < |digits| && IsDigit(a) && IsDigit(b)
    ensures
      var (changed, doubled) := (digits[i := a][i + 1 := b], Place(|digits|, i, false));
      AllDigits(changed) &&
      LuhnSum(changed, false) + PairWeight(DigitValue(digits[i]), DigitValue(digits[i + 1]), doubled)
        == LuhnSum(digits, false) + PairWeight(DigitValue(a), DigitValue(b), doubled)
  {
    SumAfterChange(digits, i, a, false);
    SumAfterChange(digits[i := a], i + 1, b, false);
    NeighboursAlternate(|digits|, i, false);
    hide LuhnSum, Weight, Place;
  }

  /** The two sums are the same modulo ten. */
  predicate Alike(x: nat, y: nat) {
    x == y || x == y + 10 || y == x + 10
  }

  lemma PairBound(a: nat, b: nat, doubled: bool)
    requires a < 10 && b < 10
    ensures PairWeight(a, b, doubled) <= 18
  {
  }

  /** After two neighbours change, the number stays valid exactly when their pair weighs alike. */
  lemma PairChanged(digits: string, i: nat, a: char, b: char)
    requires AllDigits(digits) && i + 1 < |digits| && IsDigit(a) && IsDigit(b) && IsLuhn(digits)
    ensures AllDigits(digits[i := a][i + 1 := b])
    ensures
      var doubled := Place(|digits|, i, false);
      IsLuhn(digits[i := a][i + 1 := b]) <==>
        Alike(PairWeight(DigitValue(digits[i]), DigitValue(digits[i + 1]), doubled),
          PairWeight(DigitValue(a), DigitValue(b), doubled))
  {
    var doubled := Place(|digits|, i, false);
    SumAfterTwoChanges(digits, i, a, b);
    PairBound(DigitValue(digits[i]), DigitValue(digits[i + 1]), doubled);
    PairBound(DigitValue(a), DigitValue(b), doubled);
    CloseRemainders(LuhnSum(digits[i := a][i + 1 := b], false), LuhnSum(digits, false));
    hide LuhnSum, PairWeight, Place;
  }

  predicate ZeroAndNine(a: nat, b: nat) {
    (a == 0 && b == 9) || (a == 9 && b == 0)
  }

  lemma SwapWeights(a: nat, b: nat, doubled: bool)
    requires a < 10 && b < 10
    ensures Alike(PairWeight(a, b, doubled), PairWeight(b, a, doubled)) <==> a == b || ZeroAndNine(a, b)
  {
  }

  /** Swapping two neighbours of a valid number goes unnoticed exactly when they are equal, or are 0 and 9. */
  lemma NeighboursSwapped(digits: string, i: nat)
    requires AllDigits(digits) && i + 1 < |digits| && IsLuhn(digits)
    ensures AllDigits(Swapped(digits, i))
    ensures IsLuhn(Swapped(digits, i)) <==>
      digits[i] == digits[i + 1] || ZeroAndNine(DigitValue(digits[i]), DigitValue(digits[i + 1]))
  {
    PairChanged(digits, i, digits[i + 1], digits[i]);
    SwapWeights(DigitValue(digits[i]), DigitValue(digits[i + 1]), Place(|digits|, i, false));
    hide IsLuhn, PairWeight, Alike, Place, ZeroAndNine;
  }

  /** The digits of a pair that can stand in for each other, twice over, without being noticed. */
  predicate Twins(a: nat, b: nat) {
    a == b || (2 <= a <= 4 && b == a + 3) || (2 <= b <= 4 && a == b + 3)
  }

  lemma TwinWeights(a: nat, b: nat, doubled: bool)
    requires a < 10 && b < 10
    ensures Alike(PairWeight(a, a, doubled), PairWeight(b, b, doubled)) <==> Twins(a, b)
  {
  }

  /** Replacing a doubled digit `aa` by `bb` goes unnoticed exactly for 22 and 55, 33 and 66, 44 and 77. */
  lemma TwinReplaced(digits: string, i: nat, c: char)
    requires AllDigits(digits) && i + 1 < |digits| && digits[i] == digits[i + 1] && IsDigit(c) && IsLuhn(digits)
    ensures AllDigits(digits[i := c][i + 1 := c])
    ensures IsLuhn(digits[i := c][i + 1 := c]) <==> Twins(DigitValue(digits[i]), DigitValue(c))
  {
    PairChanged(digits, i, c, c);
    TwinWeights(DigitValue(digits[i]), DigitValue(c), Place(|digits|, i, false));
    hide IsLuhn, PairWeight, Alike, Place, Twins;
  }

  /** The check digit of a payload. */
  function CheckDigit(payload: string): (c: char)
    requires AllDigits(payload)
    ensures IsDigit(c)
  {
    Digit((10 - LuhnSum(payload, true) % 10) % 10)
  }

  /** Each payload has exactly one check digit that makes it valid. */
  lemma CheckDigitIsUnique(payload: string, c: char)
    requires AllDigits(payload) && IsDigit(c)
    ensures AllDigits(payload + [c]) && (IsLuhn(payload + [c]) <==> c == CheckDigit(payload))
  {
    SumStep(payload + [c], |payload|, false);
    assert (payload + [c])[..|payload|] == payload && (payload + [c])[..|payload| + 1] == payload + [c];
    hide LuhnSum;
    Complement(DigitValue(c), LuhnSum(payload, true));
  }

  lemma Complement(d: nat, sum: nat)
    requires d < 10
    ensures (d + sum) % 10 == 0 <==> d == (10 - sum % 10) % 10
  {
    assert sum == 10 * (sum / 10) + sum % 10 && (d + sum) == 10 * ((d + sum) / 10) + (d + sum) % 10;
    if sum % 10 > 0 {
      assert (10 - sum % 10) % 10 == 10 - sum % 10;
    }
  }
}
