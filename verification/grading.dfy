/** The derivation of a student's graduation flag from the grades. */
module Grading {

  /** The sum of the grades, accumulated left to right like the Go loop.
      Go's `int` is 64 bits wide; here the sum is unbounded. */
  function Sum(grades: seq<int>): int
  {
    if |grades| == 0 then 0 else Sum(grades[..|grades| - 1]) + grades[|grades| - 1]
  }

  /** The accumulation loop of the reconciler. */
  method SumGrades(grades: seq<int>) returns (sum: int)
    ensures sum == Sum(grades)
  {
    sum := 0;
    var i := 0;
    while i < |grades|
      invariant 0 <= i <= |grades|
      invariant sum == Sum(grades[..i])
    {
      assert grades[..i + 1][..i] == grades[..i];
      sum := sum + grades[i];
      i := i + 1;
    }
    assert grades[..i] == grades;
  }

  /** The mean grade, in exact real arithmetic. */
  ghost function Average(grades: seq<int>): real
    requires |grades| > 0
  {
    (Sum(grades) as real) / (|grades| as real)
  }

  /** The inclusive graduation threshold on the mean grade. */
  const PassingAverage: real := 3.0

  /** Comparing the mean with 3 is the same as comparing the sum with three
      times the count. */
  lemma AverageAtLeastThree(grades: seq<int>)
    requires |grades| > 0
    ensures Average(grades) >= PassingAverage <==> Sum(grades) >= 3 * |grades|
  {
  }

  /** The graduation flag for a non-empty list of grades: the mean is at
      least 3, boundary included.

      The Go code computes `float64(sum) / float64(len)` and compares it with
      3.0. The model uses exact real division, and decides it with the integer
      test `sum >= 3 * len`. This is exact under an assumption we make
      explicit: |sum| <= 2^53 and len < 2^50, so both conversions are exact,
      3.0 is representable, and IEEE rounding of the quotient is monotone and
      cannot carry a mean at least 1/len below 3 up to 3.0. */
  function Graduate(grades: seq<int>): (graduate: bool)
    requires |grades| > 0
    ensures graduate <==> Average(grades) >= PassingAverage
  {
    AverageAtLeastThree(grades);
    Sum(grades) >= 3 * |grades|
  }

  /** The threshold on three examples: a mean of exactly 3 graduates,
      4 graduates, 2 does not. */
  lemma ThresholdExamples()
    ensures Graduate([3, 3, 3, 3])
    ensures Graduate([4, 4, 4])
    ensures !Graduate([2, 2, 2])
  {
    assert Sum([3, 3, 3, 3]) == 12 by {
      assert [3, 3, 3, 3][..3] == [3, 3, 3];
      assert [3, 3, 3][..2] == [3, 3];
      assert [3, 3][..1] == [3];
      assert [3][..0] == [];
    }
    assert Sum([4, 4, 4]) == 12 by {
      assert [4, 4, 4][..2] == [4, 4];
      assert [4, 4][..1] == [4];
      assert [4][..0] == [];
    }
    assert Sum([2, 2, 2]) == 6 by {
      assert [2, 2, 2][..2] == [2, 2];
      assert [2, 2][..1] == [2];
      assert [2][..0] == [];
    }
  }
}
