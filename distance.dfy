/** Euclidean distance between feature vectors (pml/distance_utils.py).

    numpy computes `sqrt(sum((a - b) ** 2))` in floating point. Here values are
    exact reals and the square root is not computed: `SquaredEuclidean` is the
    sum under the root, and `IsEuclidean(a, b, d)` says that `d` is its
    non-negative square root. Since the square root is monotone, comparing
    distances and comparing squared distances give the same answers
    (`DistanceOrderMatchesSquared`). */
module Distance {

  /** numpy's `.sum()` of a vector. */
  function Sum(xs: seq<real>): real
  {
    if xs == [] then 0.0 else xs[0] + Sum(xs[1..])
  }

  /** numpy's `power(a - b, 2)` for two vectors of the same length. */
  function SquaredDifferences(a: seq<real>, b: seq<real>): seq<real>
    requires |a| == |b|
  {
    seq(|a|, j requires 0 <= j < |a| => Square(a[j] - b[j]))
  }

  function Square(x: real): real
  {
    x * x
  }

  /** The squared Euclidean distance: the quantity under the square root. */
  function SquaredEuclidean(a: seq<real>, b: seq<real>): (r: real)
    requires |a| == |b|
    ensures r >= 0.0
  {
    SquaresNonNegative(a, b);
    SumNonNegative(SquaredDifferences(a, b));
    Sum(SquaredDifferences(a, b))
  }

  /** `d` is the Euclidean distance between `a` and `b`: the value
      `euclidean` returns. It is zero exactly when the squared distance is. */
  predicate IsEuclidean(a: seq<real>, b: seq<real>, d: real)
    requires |a| == |b|
    ensures IsEuclidean(a, b, d) ==> (d == 0.0 <==> SquaredEuclidean(a, b) == 0.0)
  {
    SquareZero(d);
    d >= 0.0 && Square(d) == SquaredEuclidean(a, b)
  }

  lemma {:induction false} SumNonNegative(xs: seq<real>)
    requires forall j :: 0 <= j < |xs| ==> xs[j] >= 0.0
    ensures Sum(xs) >= 0.0
  {
    if xs != [] {
      SumNonNegative(xs[1..]);
    }
  }

  lemma {:induction false} SumZeroIff(xs: seq<real>)
    requires forall j :: 0 <= j < |xs| ==> xs[j] >= 0.0
    ensures Sum(xs) == 0.0 <==> forall j :: 0 <= j < |xs| ==> xs[j] == 0.0
  {
    if xs != [] {
      SumNonNegative(xs[1..]);
      SumZeroIff(xs[1..]);
      if Sum(xs) == 0.0 {
        forall j | 0 <= j < |xs| ensures xs[j] == 0.0 {
          if j > 0 {
            assert xs[j] == xs[1..][j - 1];
          }
        }
      } else {
        assert xs[0] != 0.0 || exists j :: 0 <= j < |xs| - 1 && xs[1..][j] != 0.0;
      }
    }
  }

  lemma {:induction false} SumAppend(xs: seq<real>, x: real)
    ensures Sum(xs + [x]) == Sum(xs) + x
  {
    if xs != [] {
      assert (xs + [x])[1..] == xs[1..] + [x];
      SumAppend(xs[1..], x);
    }
  }

  /** The squared distance is the sum, component by component, of the squared
      differences: adding one component to both vectors adds its square. */
  lemma SquaredEuclideanAppend(a: seq<real>, b: seq<real>, x: real, y: real)
    requires |a| == |b|
    ensures SquaredEuclidean([], []) == 0.0
    ensures SquaredEuclidean(a + [x], b + [y]) == SquaredEuclidean(a, b) + Square(x - y)
  {
    var lhs, rhs := SquaredDifferences(a + [x], b + [y]), SquaredDifferences(a, b) + [Square(x - y)];
    assert |lhs| == |rhs|;
    forall j | 0 <= j < |lhs| ensures lhs[j] == rhs[j] {
      if j < |a| {
        assert (a + [x])[j] == a[j] && (b + [y])[j] == b[j];
      }
    }
    assert lhs == rhs;
    SumAppend(SquaredDifferences(a, b), Square(x - y));
  }

  /** The distance from a vector to itself is zero. */
  lemma SquaredEuclideanSelf(a: seq<real>)
    ensures SquaredEuclidean(a, a) == 0.0
  {
    SquaresNonNegative(a, a);
    forall j | 0 <= j < |a| ensures SquaredDifferences(a, a)[j] == 0.0 {
      SquareZero(a[j] - a[j]);
    }
    SumZeroIff(SquaredDifferences(a, a));
  }

  /** The distance does not depend on the order of its arguments. */
  lemma SquaredEuclideanSymmetric(a: seq<real>, b: seq<real>)
    requires |a| == |b|
    ensures SquaredEuclidean(a, b) == SquaredEuclidean(b, a)
  {
    forall j | 0 <= j < |a| ensures SquaredDifferences(a, b)[j] == SquaredDifferences(b, a)[j] {
      SquareNegate(a[j] - b[j]);
      assert b[j] - a[j] == -(a[j] - b[j]);
    }
    assert SquaredDifferences(a, b) == SquaredDifferences(b, a);
  }

  /** The distance is zero exactly when the vectors agree in every component. */
  lemma SquaredEuclideanZeroIff(a: seq<real>, b: seq<real>)
    requires |a| == |b|
    ensures SquaredEuclidean(a, b) == 0.0 <==> a == b
  {
    var sq := SquaredDifferences(a, b);
    SquaresNonNegative(a, b);
    SumZeroIff(sq);
    if SquaredEuclidean(a, b) == 0.0 {
      forall j | 0 <= j < |a| ensures a[j] == b[j] {
        assert sq[j] == 0.0;
        SquareZero(a[j] - b[j]);
      }
    } else {
      SquaredEuclideanSelf(a);
    }
  }

  lemma SquaresNonNegative(a: seq<real>, b: seq<real>)
    requires |a| == |b|
    ensures forall j :: 0 <= j < |a| ==> SquaredDifferences(a, b)[j] >= 0.0
  {
    forall j | 0 <= j < |a| ensures SquaredDifferences(a, b)[j] >= 0.0 {
      SquareZero(a[j] - b[j]);
    }
  }

  lemma SquareNegate(x: real)
    ensures Square(-x) == Square(x)
  {
  }

  lemma MulPositive(x: real, y: real)
    requires x > 0.0 && y > 0.0
    ensures x * y > 0.0
  {
  }

  lemma SquareStrict(x: real, y: real)
    requires 0.0 <= x < y
    ensures Square(x) < Square(y)
  {
    MulPositive(y - x, y + x);
    assert y * y - x * x == (y - x) * (y + x);
  }

  /** A square is positive away from zero and zero at zero. */
  lemma SquareZero(x: real)
    ensures Square(x) >= 0.0
    ensures Square(x) == 0.0 <==> x == 0.0
  {
    if x > 0.0 {
      SquareStrict(0.0, x);
    } else if x < 0.0 {
      SquareStrict(0.0, -x);
      SquareNegate(x);
    }
  }

  /** For non-negative roots, squaring preserves and reflects the order, so
      the smallest distance and the smallest squared distance are reached at
      the same place. */
  lemma DistanceOrderMatchesSquared(d1: real, d2: real, s1: real, s2: real)
    requires d1 >= 0.0 && d2 >= 0.0 && Square(d1) == s1 && Square(d2) == s2
    ensures d1 <= d2 <==> s1 <= s2
    ensures d1 < d2 <==> s1 < s2
  {
    if d1 < d2 {
      SquareStrict(d1, d2);
    } else if d2 < d1 {
      SquareStrict(d2, d1);
    }
  }

  /** The Euclidean distance, when it exists as a real, is unique. */
  lemma EuclideanUnique(a: seq<real>, b: seq<real>, d1: real, d2: real)
    requires |a| == |b| && IsEuclidean(a, b, d1) && IsEuclidean(a, b, d2)
    ensures d1 == d2
  {
    DistanceOrderMatchesSquared(d1, d2, Square(d1), Square(d2));
  }

  /** The Euclidean distance is symmetric, zero from a vector to itself, and
      zero only between equal vectors. */
  lemma EuclideanProperties(a: seq<real>, b: seq<real>, d: real)
    requires |a| == |b| && IsEuclidean(a, b, d)
    ensures IsEuclidean(b, a, d)
    ensures d == 0.0 <==> a == b
    ensures IsEuclidean(a, a, 0.0)
  {
    SquaredEuclideanSymmetric(a, b);
    SquaredEuclideanZeroIff(a, b);
    SquareZero(d);
    SquaredEuclideanSelf(a);
  }

  /** Two worked values: the distance from (0, 0) to (3, 4) is 5, and the
      distance from (1, 2, 3) to itself is 0. */
  lemma EuclideanExamples()
    ensures IsEuclidean([0.0, 0.0], [3.0, 4.0], 5.0)
    ensures IsEuclidean([1.0, 2.0, 3.0], [1.0, 2.0, 3.0], 0.0)
  {
    SquaredEuclideanAppend([0.0], [3.0], 0.0, 4.0);
    SquaredEuclideanAppend([], [], 0.0, 3.0);
    assert [0.0] == [] + [0.0] && [3.0] == [] + [3.0];
    assert [0.0, 0.0] == [0.0] + [0.0] && [3.0, 4.0] == [3.0] + [4.0];
    SquaredEuclideanSelf([1.0, 2.0, 3.0]);
  }

  /** Outcome of subtracting two vectors with numpy. */
  datatype Checked = Value(value: real) | DimensionMismatch

  /** numpy broadcasting: vectors of equal length are subtracted component by
      component, a vector of length one is stretched to the length of the
      other, and any other pair of lengths raises an error. */
  function CheckedSquaredEuclidean(a: seq<real>, b: seq<real>): (r: Checked)
    ensures r.DimensionMismatch? <==> |a| != |b| && |a| != 1 && |b| != 1
    ensures r.Value? ==> r.value >= 0.0
  {
    if |a| == |b| then Value(SquaredEuclidean(a, b))
    else if |a| == 1 then Value(SquaredEuclidean(seq(|b|, _ => a[0]), b))
    else if |b| == 1 then Value(SquaredEuclidean(a, seq(|a|, _ => b[0])))
    else DimensionMismatch
  }

  /** Broadcasting keeps the distance symmetric, and on equal lengths it is the
      plain squared distance. */
  lemma CheckedSquaredEuclideanSymmetric(a: seq<real>, b: seq<real>)
    ensures CheckedSquaredEuclidean(a, b) == CheckedSquaredEuclidean(b, a)
    ensures |a| == |b| ==> CheckedSquaredEuclidean(a, b) == Value(SquaredEuclidean(a, b))
  {
    if |a| == |b| {
      SquaredEuclideanSymmetric(a, b);
    } else if |a| == 1 {
      SquaredEuclideanSymmetric(seq(|b|, _ => a[0]), b);
    } else if |b| == 1 {
      SquaredEuclideanSymmetric(a, seq(|a|, _ => b[0]));
    }
  }
}
