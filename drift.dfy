/** The drift detector (`DriftDetector` in app/lib/algorithms.ts): a bounded
    FIFO window of filtered values and the ordinary-least-squares slope of
    those values against their position 0..n-1 in the window. */
module Drift {

  // ---------------------------------------------------------------------
  // Specification of the window

  /** `push` then, on overflow, one `shift`. */
  function Slide(w: seq<real>, v: real, size: nat): (r: seq<real>)
    requires |w| <= size
    ensures |r| == if |w| < size then |w| + 1 else size
    ensures r == (w + [v])[|w| + 1 - |r|..]
  {
    var pushed := w + [v];
    if |pushed| > size then pushed[1..] else pushed
  }

  /** After a push the window is bounded, the new value is last, everything
      earlier keeps its order, and only the oldest value can have gone. */
  lemma SlideIsFifo(w: seq<real>, v: real, size: nat)
    requires |w| <= size && size >= 1
    ensures |Slide(w, v, size)| <= size
    ensures Slide(w, v, size)[|Slide(w, v, size)| - 1] == v
    ensures |w| < size ==> Slide(w, v, size) == w + [v]
    ensures |w| == size ==> Slide(w, v, size) == w[1..] + [v]
  {
    if |w| == size {
      assert (w + [v])[1..] == w[1..] + [v];
    }
  }

  // ---------------------------------------------------------------------
  // Specification of the slope: the running sums of the loop

  /** The four running sums of `calculateSlope`: of i, of y_i, of i*y_i and
      of i*i, over the positions 0..n-1. */
  datatype Sums = Sums(x: real, y: real, xy: real, xx: real)

  /** The sums after one pass over `w`, one position at a time. */
  function Accumulate(w: seq<real>): Sums {
    if w == [] then Sums(0.0, 0.0, 0.0, 0.0)
    else Extend(Accumulate(w[..|w| - 1]), (|w| - 1) as real, w[|w| - 1])
  }

  /** One iteration of the loop: position i holding value y. */
  function Extend(s: Sums, i: real, y: real): Sums {
    Sums(s.x + i, s.y + y, s.xy + i * y, s.xx + i * i)
  }

  /** n(n-1)/2, the sum of 0..n-1 */
  function IndexSum(n: real): real {
    n * (n - 1.0) / 2.0
  }

  /** n(n-1)(2n-1)/6, the sum of the squares of 0..n-1 */
  function IndexSquareSum(n: real): real {
    n * (n - 1.0) * (2.0 * n - 1.0) / 6.0
  }

  /** n*Sxx - Sx*Sx, the least-squares denominator. */
  function Denominator(n: real, s: Sums): real {
    n * s.xx - s.x * s.x
  }

  /** The least-squares slope formula (n*Sxy - Sx*Sy) / (n*Sxx - Sx*Sx). */
  function SlopeOf(n: real, s: Sums): real
    requires Denominator(n, s) != 0.0
  {
    (n * s.xy - s.x * s.y) / Denominator(n, s)
  }

  /** The OLS slope of the window against its indices, 0 below two points. */
  function Slope(w: seq<real>): real {
    if |w| < 2 then 0.0
    else
      WindowDenominatorPositive(w);
      SlopeOf(|w| as real, Accumulate(w))
  }

  // ---------------------------------------------------------------------
  // Properties of the slope

  /** The index sums depend only on the window length, in closed form. */
  lemma {:induction false} AccumulateIndexSums(w: seq<real>)
    ensures Accumulate(w).x == IndexSum(|w| as real)
    ensures Accumulate(w).xx == IndexSquareSum(|w| as real)
  {
    if w != [] {
      AccumulateIndexSums(w[..|w| - 1]);
      IndexSumsStep((|w| - 1) as real);
    }
  }

  lemma IndexSumsStep(i: real)
    ensures IndexSum(i + 1.0) == IndexSum(i) + i
    ensures IndexSquareSum(i + 1.0) == IndexSquareSum(i) + i * i
  {
  }

  /** For n >= 2 the denominator is n^2 (n^2 - 1) / 12 > 0. */
  lemma DenominatorClosed(n: real)
    requires n >= 2.0
    ensures 12.0 * (n * IndexSquareSum(n) - IndexSum(n) * IndexSum(n)) == n * n * (n * n - 1.0)
    ensures n * IndexSquareSum(n) - IndexSum(n) * IndexSum(n) > 0.0
  {
    assert n * n >= 4.0;
    MulPositive(n * n, n * n - 1.0);
  }

  lemma MulPositive(a: real, b: real)
    requires a > 0.0 && b > 0.0
    ensures a * b > 0.0
  {
  }

  /** From two points on, the slope never divides by zero. */
  lemma WindowDenominatorPositive(w: seq<real>)
    requires |w| >= 2
    ensures Denominator(|w| as real, Accumulate(w)) > 0.0
  {
    AccumulateIndexSums(w);
    DenominatorClosed(|w| as real);
  }

  /** The values of a line m*i + b over the positions 0..n-1. */
  function Line(m: real, b: real, n: nat): (w: seq<real>)
    ensures |w| == n
  {
    if n == 0 then [] else Line(m, b, n - 1) + [m * (n - 1) as real + b]
  }

  /** Position i of the line holds m*i + b. */
  lemma {:induction false} LineAt(m: real, b: real, n: nat, i: nat)
    requires i < n
    ensures Line(m, b, n)[i] == m * i as real + b
  {
    if i < n - 1 {
      LineAt(m, b, n - 1, i);
    }
  }

  /** The sums of the line m*i + b over n positions, in closed form. */
  function LineSums(m: real, b: real, n: real): Sums {
    Sums(IndexSum(n), m * IndexSum(n) + n * b, m * IndexSquareSum(n) + b * IndexSum(n), IndexSquareSum(n))
  }

  lemma LineSumsStep(m: real, b: real, i: real)
    ensures LineSums(m, b, i + 1.0) == Extend(LineSums(m, b, i), i, m * i + b)
  {
    IndexSumsStep(i);
    var sx, sxx := IndexSum(i), IndexSquareSum(i);
    assert m * IndexSum(i + 1.0) == m * sx + m * i;
    assert b * IndexSum(i + 1.0) == b * sx + b * i;
    assert m * IndexSquareSum(i + 1.0) == m * sxx + m * (i * i);
    assert (i + 1.0) * b == i * b + b;
    assert i * (m * i + b) == m * (i * i) + b * i;
  }

  lemma {:induction false} AccumulateLine(m: real, b: real, n: nat)
    ensures Accumulate(Line(m, b, n)) == LineSums(m, b, n as real)
  {
    if n > 0 {
      var w, i := Line(m, b, n), (n - 1) as real;
      assert w[..n - 1] == Line(m, b, n - 1);
      assert w[n - 1] == m * i + b;
      AccumulateLine(m, b, n - 1);
      LineSumsStep(m, b, i);
    }
  }

  /** The formula recovers m from the sums of any line. */
  lemma LineSlopeAlgebra(m: real, b: real, n: real)
    requires n >= 2.0
    ensures Denominator(n, LineSums(m, b, n)) > 0.0
    ensures SlopeOf(n, LineSums(m, b, n)) == m
  {
    var s := LineSums(m, b, n);
    var d := Denominator(n, s);
    assert d > 0.0 by {
      DenominatorClosed(n);
    }
    assert n * s.xy - s.x * s.y == m * d by {
      LineNumerator(n, s.x, s.xx, m, b);
    }
    SlopeOfMultiple(n, s, m);
  }

  /** Whenever the numerator is m times the denominator, the slope is m. */
  lemma SlopeOfMultiple(n: real, s: Sums, m: real)
    requires Denominator(n, s) != 0.0
    requires n * s.xy - s.x * s.y == m * Denominator(n, s)
    ensures SlopeOf(n, s) == m
  {
    Cancel(m, Denominator(n, s));
  }

  lemma LineNumerator(n: real, sx: real, sxx: real, m: real, b: real)
    ensures n * (m * sxx + b * sx) - sx * (m * sx + n * b) == m * (n * sxx - sx * sx)
  {
  }

  lemma Cancel(m: real, d: real)
    requires d != 0.0
    ensures m * d / d == m
  {
  }

  /** A window holding a perfect line y_i = m*i + b has slope exactly m. */
  lemma LinearWindowSlope(m: real, b: real, w: seq<real>)
    requires |w| >= 2
    requires forall i :: 0 <= i < |w| ==> w[i] == m * i as real + b
    ensures Slope(w) == m
  {
    var n := |w|;
    forall i | 0 <= i < n
      ensures Line(m, b, n)[i] == w[i]
    {
      LineAt(m, b, n, i);
    }
    assert w == Line(m, b, n);
    AccumulateLine(m, b, n);
    LineSlopeAlgebra(m, b, n as real);
  }

  lemma FiveRisingPoints()
    ensures Slide(Slide(Slide(Slide(Slide([], 1.0, 5), 2.0, 5), 3.0, 5), 4.0, 5), 5.0, 5) == [1.0, 2.0, 3.0, 4.0, 5.0]
    ensures Slope([1.0, 2.0, 3.0, 4.0, 5.0]) == 1.0
  {
    LinearWindowSlope(1.0, 1.0, [1.0, 2.0, 3.0, 4.0, 5.0]);
  }

  /** Fewer than two points give slope 0, whatever they are. */
  lemma ShortWindowFlat(w: seq<real>)
    requires |w| < 2
    ensures Slope(w) == 0.0
  {
  }

  // ---------------------------------------------------------------------
  // The stateful detector

  class DriftDetector {
    var window: seq<real>
    const windowSize: nat

    ghost predicate Valid()
      reads this
    {
      |window| <= windowSize
    }

    /** `new DriftDetector(windowSize)`: an empty window. */
    constructor (size: nat)
      ensures Valid() && windowSize == size && window == []
    {
      windowSize := size;
      window := [];
    }

    /** `addPoint(value)`: slide the window, then return its slope. */
    method AddPoint(value: real) returns (slope: real)
      requires Valid()
      modifies this
      ensures Valid() && window == Slide(old(window), value, windowSize)
      ensures slope == Slope(window)
    {
      window := window + [value];
      if |window| > windowSize {
        window := window[1..];
      }
      slope := CalculateSlope();
    }

    /** `calculateSlope()`: the running sums of one pass over the window. */
    method CalculateSlope() returns (slope: real)
      ensures slope == Slope(window)
    {
      if |window| < 2 {
        return 0.0;
      }
      var n := |window|;
      var sumX, sumY, sumXY, sumXX := 0.0, 0.0, 0.0, 0.0;
      for i := 0 to n
        invariant Sums(sumX, sumY, sumXY, sumXX) == Accumulate(window[..i])
      {
        assert window[..i + 1][..i] == window[..i];
        sumX := sumX + i as real;
        sumY := sumY + window[i];
        sumXY := sumXY + i as real * window[i];
        sumXX := sumXX + i as real * i as real;
      }
      assert window[..n] == window;
      WindowDenominatorPositive(window);
      slope := SlopeOf(n as real, Sums(sumX, sumY, sumXY, sumXX));
    }
  }
}
