/** Worked runs of k-means on a dataset of four samples with one feature:
    two tight pairs of points, one near 0 and one near 10. */
module Scenarios {
  import opened Distance
  import opened Clustering

  function Points(): seq<seq<real>>
  {
    [[0.0], [1.0], [10.0], [11.0]]
  }

  lemma PointsAreDataset(p: seq<seq<real>>)
    requires p == Points()
    ensures IsDataset(p) && Dim(p) == 1
  {
    assert forall s :: 0 <= s < 4 ==> |p[s]| == 1;
  }

  /** The assignment that puts each pair in a cluster of its own. */
  function Split(): seq<nat>
  {
    [0, 0, 1, 1]
  }

  /** The means of the two pairs. */
  function PairMeans(): seq<seq<real>>
  {
    [[0.5], [10.5]]
  }

  /** With one feature the squared distance is the squared difference. */
  lemma SquaredEuclideanLine(x: real, y: real)
    ensures SquaredEuclidean([x], [y]) == Square(x - y)
  {
    SquaredEuclideanAppend([], [], x, y);
    assert [x] == [] + [x] && [y] == [] + [y];
  }

  /** With two centroids a sample goes to the second one only when it is
      strictly nearer: `idxmin` keeps the first of equal distances. */
  lemma AssignOfTwo(data: seq<seq<real>>, c0: seq<real>, c1: seq<real>, s: nat)
    requires IsDataset(data) && |c0| == |c1| == Dim(data) && s < |data|
    ensures Assign(data, [c0, c1])[s] ==
      if SquaredEuclidean(data[s], c1) < SquaredEuclidean(data[s], c0) then 1 else 0
  {
    var a := Assign(data, [c0, c1]);
    var i := if SquaredEuclidean(data[s], c1) < SquaredEuclidean(data[s], c0) then 1 else 0;
    assert IsNearest(data[s], [c0, c1], i);
    NearestUnique(data[s], [c0, c1], a[s], i);
  }

  /** On a line, the nearer of two distinct centroids is the one on the
      sample's side of their midpoint. */
  lemma NearerOnLine(x: real, c0: real, c1: real)
    ensures c0 < c1 ==> (Square(x - c1) < Square(x - c0) <==> 2.0 * x > c0 + c1)
    ensures c1 < c0 ==> (Square(x - c1) < Square(x - c0) <==> 2.0 * x < c0 + c1)
  {
    var d, e := c1 - c0, c0 + c1 - 2.0 * x;
    assert Square(x - c1) - Square(x - c0) == d * e;
    if d > 0.0 && e > 0.0 {
      MulPositive(d, e);
    } else if d > 0.0 && e < 0.0 {
      MulPositive(d, -e);
    } else if d < 0.0 && e > 0.0 {
      MulPositive(-d, e);
    } else if d < 0.0 && e < 0.0 {
      MulPositive(-d, -e);
    }
  }

  /** In the dataset, sample `s` goes to the second of two distinct
      centroids exactly when it lies on that centroid's side of their
      midpoint. */
  lemma AssignOnLine(p: seq<seq<real>>, c0: real, c1: real, s: nat)
    requires p == Points() && c0 != c1 && s < 4
    ensures c0 < c1 ==> (Assign(p, [[c0], [c1]])[s] == if 2.0 * p[s][0] > c0 + c1 then 1 else 0)
    ensures c1 < c0 ==> (Assign(p, [[c0], [c1]])[s] == if 2.0 * p[s][0] < c0 + c1 then 1 else 0)
  {
    var x := p[s];
    assert x == [x[0]];
    SquaredEuclideanLine(x[0], c0);
    SquaredEuclideanLine(x[0], c1);
    NearerOnLine(x[0], c0, c1);
    AssignOfTwo(p, [c0], [c1], s);
  }

  /** Any two centroids whose midpoint lies strictly between the pairs
      separate them, the lower centroid taking the lower pair. */
  lemma SplitByMidpoint(p: seq<seq<real>>, c0: real, c1: real)
    requires p == Points() && c0 < c1 && 2.0 < c0 + c1 < 20.0
    ensures Assign(p, [[c0], [c1]]) == Split()
  {
    AssignOnLine(p, c0, c1, 0);
    AssignOnLine(p, c0, c1, 1);
    AssignOnLine(p, c0, c1, 2);
    AssignOnLine(p, c0, c1, 3);
  }

  /** A first centroid above the data, farther from every sample than the
      second, gets no member. */
  lemma FirstCentroidEmpty(p: seq<seq<real>>, c0: real, c1: real)
    requires p == Points() && c1 < c0 && c0 + c1 > 22.0
    ensures Assign(p, [[c0], [c1]]) == [1, 1, 1, 1]
  {
    AssignOnLine(p, c0, c1, 0);
    AssignOnLine(p, c0, c1, 1);
    AssignOnLine(p, c0, c1, 2);
    AssignOnLine(p, c0, c1, 3);
  }

  lemma ColumnSumOfTwo(rows: seq<seq<real>>, f: nat)
    requires |rows| == 2 && f < |rows[0]| && f < |rows[1]|
    ensures ColumnSum(rows, f) == rows[0][f] + rows[1][f]
  {
    assert ColumnSum(rows[1..], f) == rows[1][f] by {
      assert rows[1..][1..] == [];
      assert rows[1..][0] == rows[1];
    }
  }

  lemma MeanOfTwo(x: real, y: real)
    ensures Mean([[x], [y]], 1) == [(x + y) / 2.0]
  {
    ColumnSumOfTwo([[x], [y]], 0);
  }

  lemma SplitIds()
    ensures ClusterIds(Split()) == [0, 1]
  {
    var a := Split();
    assert Bound(a) == 2;
    assert IdsBelow(a, 1) == [0];
  }

  /** In a dataset of two pairs split as `Split()`, the first pair forms
      cluster 0 and the second cluster 1. */
  lemma PairMembers(p: seq<seq<real>>, a: seq<nat>, x0: real, x1: real, y0: real, y1: real, c: nat)
    requires p == [[x0], [x1], [y0], [y1]] && a == [0, 0, 1, 1] && c < 2
    ensures Members(p, a, c) == if c == 0 then [[x0], [x1]] else [[y0], [y1]]
  {
    var low, high := [[x0], [x1]], [[y0], [y1]];
    var zeros, ones: seq<nat> := [0, 0], [1, 1];
    assert p == low + high && a == zeros + ones;
    MembersAppend(low, zeros, high, ones, c);
    if c == 0 {
      MembersAll(low, zeros, 0);
      MembersNone(high, ones, 0);
    } else {
      MembersNone(low, zeros, 1);
      MembersAll(high, ones, 1);
    }
  }

  /** Each pair is a cluster whose mean is the midpoint of the pair. */
  lemma PairCluster(p: seq<seq<real>>, a: seq<nat>, x0: real, x1: real, y0: real, y1: real, c: nat, m: real)
    requires p == [[x0], [x1], [y0], [y1]] && a == [0, 0, 1, 1] && c < 2
    requires m == if c == 0 then (x0 + x1) / 2.0 else (y0 + y1) / 2.0
    ensures IsDataset(p) && |a| == |p|
    ensures |Members(p, a, c)| >= 1 && HasDim(Members(p, a, c), Dim(p))
    ensures Mean(Members(p, a, c), Dim(p)) == [m]
  {
    assert IsDataset(p) && Dim(p) == 1 by {
      assert forall s :: 0 <= s < 4 ==> |p[s]| == 1;
    }
    PairMembers(p, a, x0, x1, y0, y1, c);
    if c == 0 {
      MeanOfTwo(x0, x1);
    } else {
      MeanOfTwo(y0, y1);
    }
  }

  /** Two clusters with known means regroup to those means, in cluster
      order. */
  lemma MeansOfTwoClusters(data: seq<seq<real>>, a: seq<nat>, m0: seq<real>, m1: seq<real>)
    requires IsDataset(data) && |a| == |data| && ClusterIds(a) == [0, 1]
    requires |Members(data, a, 0)| >= 1 && HasDim(Members(data, a, 0), Dim(data))
    requires Mean(Members(data, a, 0), Dim(data)) == m0
    requires |Members(data, a, 1)| >= 1 && HasDim(Members(data, a, 1), Dim(data))
    requires Mean(Members(data, a, 1), Dim(data)) == m1
    ensures NewCentroids(data, a) == [m0, m1]
  {
    var c := NewCentroids(data, a);
    assert c[0] == m0 && c[1] == m1;
  }

  /** Regrouping two pairs split as `Split()` gives the pair means, in
      cluster order. */
  lemma PairMeansOf(p: seq<seq<real>>, a: seq<nat>, x0: real, x1: real, y0: real, y1: real, m0: real, m1: real)
    requires p == [[x0], [x1], [y0], [y1]] && a == [0, 0, 1, 1]
    requires m0 == (x0 + x1) / 2.0 && m1 == (y0 + y1) / 2.0
    ensures NewCentroids(p, a) == [[m0], [m1]]
  {
    assert ClusterIds(a) == [0, 1] by { SplitIds(); }
    PairCluster(p, a, x0, x1, y0, y1, 0, m0);
    PairCluster(p, a, x0, x1, y0, y1, 1, m1);
    MeansOfTwoClusters(p, a, [m0], [m1]);
  }

  /** Regrouping the split gives the pair means, in cluster order. */
  lemma SplitMeans(p: seq<seq<real>>, a: seq<nat>)
    requires p == Points() && a == Split()
    ensures NewCentroids(p, a) == PairMeans()
  {
    PairMeansOf(p, a, 0.0, 1.0, 10.0, 11.0, 0.5, 10.5);
  }

  lemma SplitIteration(p: seq<seq<real>>, c0: real, c1: real)
    requires p == Points() && c0 < c1 && 2.0 < c0 + c1 < 20.0
    ensures Iteration(p, [[c0], [c1]]) == (PairMeans(), Split())
  {
    PointsAreDataset(p);
    SplitByMidpoint(p, c0, c1);
    SplitMeans(p, Split());
  }

  /** From two centroids that separate the pairs, the loop finds the pair
      means and stops after its second iteration, as soon as the assignment
      repeats. */
  lemma SeparatedRun(p: seq<seq<real>>, c0: real, c1: real)
    requires p == Points() && c0 < c1 && 2.0 < c0 + c1 < 20.0
    ensures Run(p, [[c0], [c1]], None, 2) == Converged(Split(), PairMeans())
    ensures Run(p, [[c0], [c1]], None, 1) == NotConverged
  {
    PointsAreDataset(p);
    SplitIteration(p, c0, c1);
    SplitIteration(p, 0.5, 10.5);
    FixedPointStops(p, PairMeans(), Split(), Some(Split()), 1);
  }

  /** `random.random()` returning 0.0 for the first centroid and 0.5 for the
      second. */
  function Draws(): seq<seq<real>>
  {
    [[0.0], [0.5]]
  }

  /** A value that bounds a feature from below and is attained is its
      minimum; likewise for the maximum. */
  lemma FeatureRangeIs(data: seq<seq<real>>, f: nat, lo: real, hi: real)
    requires |data| >= 1 && forall s :: 0 <= s < |data| ==> f < |data[s]|
    requires forall s :: 0 <= s < |data| ==> lo <= data[s][f] <= hi
    requires (exists s :: 0 <= s < |data| && data[s][f] == lo) &&
      (exists s :: 0 <= s < |data| && data[s][f] == hi)
    ensures FeatureMin(data, f) == lo && FeatureMax(data, f) == hi
  {
  }

  /** The feature ranges over [0, 11]. */
  lemma PointsRange(p: seq<seq<real>>)
    requires p == Points()
    ensures IsDataset(p) && FeatureMin(p, 0) == 0.0 && FeatureMax(p, 0) == 11.0
  {
    PointsAreDataset(p);
    assert p[0][0] == 0.0 && p[3][0] == 11.0;
    FeatureRangeIs(p, 0, 0.0, 11.0);
  }

  lemma DrawsAreDraws(draws: seq<seq<real>>)
    requires draws == Draws()
    ensures IsDraws(draws, 2, 1) && draws[0][0] == 0.0 && draws[1][0] == 0.5
  {
    assert draws[0] == [0.0] && draws[1] == [0.5];
  }

  /** With one feature and two draws, each centroid is the lowest value of
      the feature plus its draw's share of the feature's range. */
  lemma TwoCentroidsOnLine(data: seq<seq<real>>, draws: seq<seq<real>>, lo: real, hi: real, x0: real, x1: real)
    requires IsDataset(data) && Dim(data) == 1 && IsDraws(draws, 2, 1)
    requires FeatureMin(data, 0) == lo && FeatureMax(data, 0) == hi
    requires x0 == lo + (hi - lo) * draws[0][0] && x1 == lo + (hi - lo) * draws[1][0]
    ensures CreateRandomCentroids(data, 2, draws) == [[x0], [x1]]
  {
    var cs := CreateRandomCentroids(data, 2, draws);
    assert cs[0] == [x0] && cs[1] == [x1];
  }

  /** The first centroid sits at the smallest value of the feature, the
      second halfway along its range. */
  lemma RandomCentroidsFromDraws(p: seq<seq<real>>, draws: seq<seq<real>>)
    requires p == Points() && draws == Draws()
    ensures CreateRandomCentroids(p, 2, draws) == [[0.0], [5.5]]
  {
    PointsAreDataset(p);
    PointsRange(p);
    DrawsAreDraws(draws);
    TwoCentroidsOnLine(p, draws, 0.0, 11.0, 0.0, 5.5);
  }

  /** From those random centroids the run also finds the pairs. */
  lemma RandomStartRun(p: seq<seq<real>>, draws: seq<seq<real>>)
    requires p == Points() && draws == Draws()
    ensures Run(p, CreateRandomCentroids(p, 2, draws), None, 2) == Converged(Split(), PairMeans())
  {
    PointsAreDataset(p);
    RandomCentroidsFromDraws(p, draws);
    SeparatedRun(p, 0.0, 5.5);
  }

  /** The mean of all four samples. */
  lemma PointsMean(p: seq<seq<real>>)
    requires p == Points()
    ensures Mean(p, 1) == [5.5]
  {
    assert ColumnSum(p[3..], 0) == 11.0 by {
      assert p[3..][1..] == [];
    }
    assert ColumnSum(p[2..], 0) == 21.0 by {
      assert p[2..][1..] == p[3..];
    }
    assert ColumnSum(p[1..], 0) == 22.0 by {
      assert p[1..][1..] == p[2..];
    }
  }

  /** With the first centroid above the data, the first iteration leaves
      cluster 0 empty and drops it: one centroid is left, the mean of all
      samples, while the samples still carry id 1. */
  lemma EmptyClusterDropped(p: seq<seq<real>>, c0: real, c1: real)
    requires p == Points() && c1 < c0 && c0 + c1 > 22.0
    ensures Iteration(p, [[c0], [c1]]) == ([[5.5]], [1, 1, 1, 1])
  {
    PointsAreDataset(p);
    FirstCentroidEmpty(p, c0, c1);
    OneClusterMeans(p, [1, 1, 1, 1], 1);
    PointsMean(p);
  }

  /** From the single remaining centroid, every sample goes to cluster 0,
      and the centroid stays where it is. */
  lemma MeanIsFixed(p: seq<seq<real>>)
    requires p == Points()
    ensures Iteration(p, [[5.5]]) == ([[5.5]], [0, 0, 0, 0])
  {
    PointsAreDataset(p);
    var zeros: seq<nat> := seq(4, s => 0);
    assert zeros == [0, 0, 0, 0];
    SingleCentroidIteration(p, [5.5]);
    PointsMean(p);
  }

  /** The run with a centroid above the data ends with fewer clusters than
      it started with. The second iteration renumbers the samples from
      cluster 1 to cluster 0, so the assignment only repeats in the third. */
  lemma EmptyClusterRun(p: seq<seq<real>>, c0: real, c1: real)
    requires p == Points() && c1 < c0 && c0 + c1 > 22.0
    ensures Run(p, [[c0], [c1]], None, 3) == Converged([0, 0, 0, 0], [[5.5]])
    ensures Run(p, [[c0], [c1]], None, 2) == NotConverged
  {
    PointsAreDataset(p);
    EmptyClusterDropped(p, c0, c1);
    MeanIsFixed(p);
    FixedPointStops(p, [[5.5]], [0, 0, 0, 0], Some([1, 1, 1, 1]), 2);
    FixedPointStops(p, [[5.5]], [0, 0, 0, 0], Some([1, 1, 1, 1]), 1);
  }
}
