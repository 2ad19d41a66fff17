/**
 * `Number.prototype.toFixed(1)` and `toFixed(2)` read back as numbers, on exact
 * reals: the nearest multiple of a tenth or a hundredth, ties broken away from
 * zero (toFixed rounds the magnitude and keeps the sign).
 */
module Rounding {

  /** The integer nearest to `y`, a tie going away from zero. */
  function NearestInt(y: real): int {
    if y >= 0.0 then (y + 0.5).Floor else -((-y) + 0.5).Floor
  }

  /** These bounds determine the nearest integer uniquely, ties included. */
  lemma NearestIntBounds(y: real)
    ensures y >= 0.0 ==> y - 0.5 < NearestInt(y) as real <= y + 0.5
    ensures y < 0.0 ==> y - 0.5 <= NearestInt(y) as real < y + 0.5
  {
  }

  /** An integer is its own nearest integer. */
  lemma NearestIntOfInt(k: int)
    ensures NearestInt(k as real) == k
  {
    if k >= 0 {
      assert (k as real + 0.5).Floor == k;
    } else {
      assert ((-k) as real + 0.5).Floor == -k;
    }
  }

  lemma NearestIntOdd(y: real)
    ensures NearestInt(-y) == -NearestInt(y)
  {
    if y < 0.0 {
      assert -(-y) == y;
    }
  }

  /** `toFixed(1)`. */
  function RoundTenths(x: real): real {
    NearestInt(x * 10.0) as real / 10.0
  }

  /** `toFixed(2)`. */
  function RoundHundredths(x: real): real {
    NearestInt(x * 100.0) as real / 100.0
  }

  /** Within half a tenth, and never of the opposite sign. */
  lemma RoundTenthsBounds(x: real)
    ensures x - 0.05 <= RoundTenths(x) <= x + 0.05
    ensures x >= 0.0 ==> RoundTenths(x) >= 0.0
    ensures x <= 0.0 ==> RoundTenths(x) <= 0.0
  {
    NearestIntBounds(x * 10.0);
  }

  /** Within half a hundredth, and never of the opposite sign. */
  lemma RoundHundredthsBounds(x: real)
    ensures x - 0.005 <= RoundHundredths(x) <= x + 0.005
    ensures x >= 0.0 ==> RoundHundredths(x) >= 0.0
    ensures x <= 0.0 ==> RoundHundredths(x) <= 0.0
  {
    NearestIntBounds(x * 100.0);
  }

  /** A value with at most one decimal is left unchanged. */
  lemma RoundTenthsExact(x: real, k: int)
    requires x * 10.0 == k as real
    ensures RoundTenths(x) == x
  {
    NearestIntOfInt(k);
    assert NearestInt(x * 10.0) == k;
  }

  /** A value with at most two decimals is left unchanged. */
  lemma RoundHundredthsExact(x: real, k: int)
    requires x * 100.0 == k as real
    ensures RoundHundredths(x) == x
  {
    NearestIntOfInt(k);
    assert NearestInt(x * 100.0) == k;
  }

  /** Rounding commutes with negation: ties go away from zero on both sides. */
  lemma RoundNegate(x: real)
    ensures RoundTenths(-x) == -RoundTenths(x)
    ensures RoundHundredths(-x) == -RoundHundredths(x)
  {
    NearestIntOdd(x * 10.0);
    NearestIntOdd(x * 100.0);
  }
}
