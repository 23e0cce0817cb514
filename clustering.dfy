/** k-means clustering (pml/clustering.py).

    A dataset is a non-empty sequence of samples, each a vector of reals of
    the same length; sample `s` is identified by its position. Centroids are
    vectors of the same length, and a cluster id is a position in the current
    list of centroids. Distances are squared Euclidean distances (see module
    Distance): the square root is monotone, so it does not change which
    centroid is nearest (`AssignMatchesEuclidean`). */
module Clustering {
  import opened Distance

  datatype Option<T> = None | Some(value: T)

  /** How a k-means run ends. `Converged` carries the final assignment (the
      value `kmeans` returns) and the final centroids. `NotConverged` means the
      iteration budget ran out; `NoCentroids` that there were no initial
      centroids to assign samples to. */
  datatype Outcome =
    | Converged(assignments: seq<nat>, centroids: seq<seq<real>>)
    | NotConverged
    | NoCentroids

  /** Every vector in `vs` has `d` components. */
  predicate HasDim(vs: seq<seq<real>>, d: nat)
  {
    forall i :: 0 <= i < |vs| ==> |vs[i]| == d
  }

  /** At least one sample, and all samples have the same number of features. */
  predicate IsDataset(data: seq<seq<real>>)
  {
    |data| >= 1 && HasDim(data, |data[0]|)
  }

  /** The number of features. */
  function Dim(data: seq<seq<real>>): nat
    requires |data| >= 1
  {
    |data[0]|
  }

  // ---------------------------------------------------------------------
  // Centroid creation: create_random_centroids
  // ---------------------------------------------------------------------

  /** The smallest value of feature `f` over the dataset. */
  function FeatureMin(data: seq<seq<real>>, f: nat): (lo: real)
    requires |data| >= 1 && forall s :: 0 <= s < |data| ==> f < |data[s]|
    ensures forall s :: 0 <= s < |data| ==> lo <= data[s][f]
    ensures exists s :: 0 <= s < |data| && data[s][f] == lo
    decreases |data|
  {
    if |data| == 1 then data[0][f]
    else
      var rest := FeatureMin(data[1..], f);
      assert forall s :: 1 <= s < |data| ==> data[s] == data[1..][s - 1];
      if data[0][f] <= rest then data[0][f] else rest
  }

  /** The largest value of feature `f` over the dataset. */
  function FeatureMax(data: seq<seq<real>>, f: nat): (hi: real)
    requires |data| >= 1 && forall s :: 0 <= s < |data| ==> f < |data[s]|
    ensures forall s :: 0 <= s < |data| ==> data[s][f] <= hi
    ensures exists s :: 0 <= s < |data| && data[s][f] == hi
    decreases |data|
  {
    if |data| == 1 then data[0][f]
    else
      var rest := FeatureMax(data[1..], f);
      assert forall s :: 1 <= s < |data| ==> data[s] == data[1..][s - 1];
      if data[0][f] >= rest then data[0][f] else rest
  }

  /** Python's `random.uniform(lo, hi)` is `lo + (hi - lo) * u` for a draw `u`
      of `random.random()`, which lies in [0, 1). The result lies in
      [lo, hi], and is `lo` itself when the range is a single point. */
  function Uniform(lo: real, hi: real, u: real): (x: real)
    requires lo <= hi && 0.0 <= u < 1.0
    ensures lo <= x <= hi
    ensures lo == hi ==> x == lo
  {
    ScaleWithin(hi - lo, u);
    lo + Scale(hi - lo, u)
  }

  /** The product `w * u`, kept behind a function so that the solver does not
      expand non-linear products in the contracts that mention it. */
  function Scale(w: real, u: real): real
  {
    w * u
  }

  lemma ScaleWithin(w: real, u: real)
    requires w >= 0.0 && 0.0 <= u < 1.0
    ensures 0.0 <= Scale(w, u) <= w
  {
    if w > 0.0 && u > 0.0 {
      MulPositive(w, u);
      MulPositive(w, 1.0 - u);
      assert w - w * u == w * (1.0 - u);
    } else if w == 0.0 {
      assert w * u == 0.0 * u;
    } else {
      assert w * u == w * 0.0;
    }
  }

  /** `draws[i][f]` are the values of `random.random()` consumed for feature
      `f` of centroid `i`. */
  predicate IsDraws(draws: seq<seq<real>>, k: nat, d: nat)
  {
    |draws| == k && HasDim(draws, d) &&
    forall i, f :: 0 <= i < k && 0 <= f < d ==> 0.0 <= draws[i][f] < 1.0
  }

  /** `k` centroids whose feature `f` is drawn uniformly from the range of
      feature `f` over the dataset. */
  function CreateRandomCentroids(data: seq<seq<real>>, k: nat, draws: seq<seq<real>>): (cs: seq<seq<real>>)
    requires IsDataset(data) && IsDraws(draws, k, Dim(data))
    ensures |cs| == k && HasDim(cs, Dim(data))
    ensures forall i, f :: 0 <= i < k && 0 <= f < Dim(data) ==>
      FeatureMin(data, f) <= cs[i][f] <= FeatureMax(data, f)
  {
    var d := Dim(data);
    seq(k, i requires 0 <= i < k =>
      seq(d, f requires 0 <= f < d =>
        Uniform(FeatureMin(data, f), FeatureMax(data, f), draws[i][f])))
  }

  // ---------------------------------------------------------------------
  // Distance table: _get_distances_to_centroids
  // ---------------------------------------------------------------------

  /** Entry `i`: the distance from `x` to centroid `i`. */
  function DistanceRow(x: seq<real>, cs: seq<seq<real>>): seq<real>
    requires HasDim(cs, |x|)
  {
    seq(|cs|, i requires 0 <= i < |cs| => SquaredEuclidean(x, cs[i]))
  }

  /** A row has one entry per centroid, and no entry is negative. */
  lemma DistanceRowNonNegative(x: seq<real>, cs: seq<seq<real>>)
    requires HasDim(cs, |x|)
    ensures |DistanceRow(x, cs)| == |cs|
    ensures forall i :: 0 <= i < |cs| ==> DistanceRow(x, cs)[i] >= 0.0
  {
  }

  /** Builds the table one column per centroid, as the source fills a
      dictionary keyed by the centroid's position and reads each entry as a
      column. */
  method GetDistancesToCentroids(data: seq<seq<real>>, cs: seq<seq<real>>) returns (table: seq<seq<real>>)
    requires IsDataset(data) && HasDim(cs, Dim(data))
    ensures |table| == |data|
    ensures forall s :: 0 <= s < |data| ==> |table[s]| == |cs|
    ensures forall s, i :: 0 <= s < |data| && 0 <= i < |cs| ==>
      table[s][i] == SquaredEuclidean(data[s], cs[i]) && table[s][i] >= 0.0
  {
    var distances: map<nat, seq<real>> := map[];
    for i := 0 to |cs|
      invariant forall j: nat :: j in distances <==> j < i
      invariant forall j :: 0 <= j < i ==> |distances[j]| == |data|
      invariant forall j, s :: 0 <= j < i && 0 <= s < |data| ==>
        distances[j][s] == SquaredEuclidean(data[s], cs[j])
    {
      var column := seq(|data|, s requires 0 <= s < |data| => SquaredEuclidean(data[s], cs[i]));
      distances := distances[i := column];
    }
    table := seq(|data|, s requires 0 <= s < |data| =>
      seq(|cs|, i requires 0 <= i < |cs| => distances[i][s]));
  }

  // ---------------------------------------------------------------------
  // One iteration: _compute_iteration
  // ---------------------------------------------------------------------

  /** pandas' `idxmin` on one row: the position of the first smallest entry. */
  function ArgMin(row: seq<real>): (m: nat)
    requires |row| >= 1
    ensures m < |row|
    ensures forall j :: 0 <= j < |row| ==> row[m] <= row[j]
    ensures forall j :: 0 <= j < m ==> row[m] < row[j]
    decreases |row|
  {
    if |row| == 1 then 0
    else
      var m := ArgMin(row[..|row| - 1]);
      if row[|row| - 1] < row[m] then |row| - 1 else m
  }

  /** Only one position is a first smallest entry. */
  lemma {:induction false} ArgMinUnique(row: seq<real>, m: nat)
    requires m < |row|
    requires forall j :: 0 <= j < |row| ==> row[m] <= row[j]
    requires forall j :: 0 <= j < m ==> row[m] < row[j]
    ensures ArgMin(row) == m
    decreases |row|
  {
    if |row| > 1 {
      var front := row[..|row| - 1];
      if m < |row| - 1 {
        ArgMinUnique(front, m);
      } else {
        assert row[m] < row[ArgMin(front)];
      }
    }
  }

  /** Centroid `i` is at minimal distance from `x`, and every centroid before
      it is strictly farther. */
  predicate IsNearest(x: seq<real>, cs: seq<seq<real>>, i: nat)
    requires i < |cs| && HasDim(cs, |x|)
  {
    (forall j :: 0 <= j < |cs| ==> SquaredEuclidean(x, cs[i]) <= SquaredEuclidean(x, cs[j])) &&
    (forall j :: 0 <= j < i ==> SquaredEuclidean(x, cs[i]) < SquaredEuclidean(x, cs[j]))
  }

  /** At most one centroid is the nearest in this sense, so the assignment is
      determined by the distances alone. */
  lemma NearestUnique(x: seq<real>, cs: seq<seq<real>>, i: nat, j: nat)
    requires i < |cs| && j < |cs| && HasDim(cs, |x|)
    requires IsNearest(x, cs, i) && IsNearest(x, cs, j)
    ensures i == j
  {
    var row := DistanceRow(x, cs);
    ArgMinUnique(row, i);
    ArgMinUnique(row, j);
  }

  /** Each sample gets the position of its nearest centroid, the lowest such
      position on a tie. */
  function Assign(data: seq<seq<real>>, cs: seq<seq<real>>): (a: seq<nat>)
    requires IsDataset(data) && |cs| >= 1 && HasDim(cs, Dim(data))
    ensures |a| == |data|
    ensures forall s :: 0 <= s < |data| ==> a[s] < |cs| && IsNearest(data[s], cs, a[s])
  {
    NearestOfRows(data, cs);
    seq(|data|, s requires 0 <= s < |data| => ArgMin(DistanceRow(data[s], cs)))
  }

  lemma NearestOfRows(data: seq<seq<real>>, cs: seq<seq<real>>)
    requires IsDataset(data) && |cs| >= 1 && HasDim(cs, Dim(data))
    ensures forall s :: 0 <= s < |data| ==> IsNearest(data[s], cs, ArgMin(DistanceRow(data[s], cs)))
  {
    forall s | 0 <= s < |data| ensures IsNearest(data[s], cs, ArgMin(DistanceRow(data[s], cs))) {
      var row := DistanceRow(data[s], cs);
      var m := ArgMin(row);
      assert forall j :: 0 <= j < |cs| ==> row[j] == SquaredEuclidean(data[s], cs[j]);
    }
  }

  /** The source's `idxmin` runs on true Euclidean distances; given any table
      of them, it picks the same centroid as `Assign`. */
  lemma AssignMatchesEuclidean(data: seq<seq<real>>, cs: seq<seq<real>>, dist: seq<seq<real>>)
    requires IsDataset(data) && |cs| >= 1 && HasDim(cs, Dim(data))
    requires |dist| == |data| && HasDim(dist, |cs|)
    requires forall s, i :: 0 <= s < |data| && 0 <= i < |cs| ==> IsEuclidean(data[s], cs[i], dist[s][i])
    ensures forall s :: 0 <= s < |data| ==> ArgMin(dist[s]) == Assign(data, cs)[s]
  {
    forall s | 0 <= s < |data| ensures ArgMin(dist[s]) == Assign(data, cs)[s] {
      var m := Assign(data, cs)[s];
      forall j | 0 <= j < |cs| ensures dist[s][m] <= dist[s][j] && (j < m ==> dist[s][m] < dist[s][j]) {
        DistanceOrderMatchesSquared(dist[s][m], dist[s][j],
          SquaredEuclidean(data[s], cs[m]), SquaredEuclidean(data[s], cs[j]));
      }
      ArgMinUnique(dist[s], m);
    }
  }

  /** A bound above every id in `a`. */
  function Bound(a: seq<nat>): (b: nat)
    ensures forall s :: 0 <= s < |a| ==> a[s] < b
  {
    if a == [] then 0
    else
      var rest := Bound(a[1..]);
      assert forall s :: 1 <= s < |a| ==> a[s] == a[1..][s - 1];
      if a[0] + 1 > rest then a[0] + 1 else rest
  }

  predicate Increasing(ids: seq<nat>)
  {
    forall i, j :: 0 <= i < j < |ids| ==> ids[i] < ids[j]
  }

  /** The ids below `n` that occur in `a`, in ascending order. */
  function IdsBelow(a: seq<nat>, n: nat): (ids: seq<nat>)
    ensures Increasing(ids)
    ensures forall c :: c in ids <==> c < n && c in a
  {
    if n == 0 then []
    else
      var below := IdsBelow(a, n - 1);
      assert forall i :: 0 <= i < |below| ==> below[i] in below;
      below + (if n - 1 in a then [n - 1] else [])
  }

  /** The keys of `groupby`: every id that some sample is assigned to, once,
      in ascending order. */
  function ClusterIds(a: seq<nat>): (ids: seq<nat>)
    ensures Increasing(ids)
    ensures forall c :: c in ids <==> c in a
  {
    IdsBelow(a, Bound(a))
  }

  /** The samples assigned to cluster `c`, in dataset order. */
  function Members(data: seq<seq<real>>, a: seq<nat>, c: nat): (m: seq<seq<real>>)
    requires |a| == |data|
    ensures |m| <= |data|
    decreases |data|
  {
    if data == [] then [] else (if a[0] == c then [data[0]] else []) + Members(data[1..], a[1..], c)
  }

  /** The members of a cluster are samples of the dataset, and every sample
      assigned to the cluster is among them. */
  lemma {:induction false} MembersFromData(data: seq<seq<real>>, a: seq<nat>, c: nat)
    requires |a| == |data|
    ensures forall r :: r in Members(data, a, c) ==> r in data
    ensures forall s :: 0 <= s < |data| && a[s] == c ==> data[s] in Members(data, a, c)
    decreases |data|
  {
    if data != [] {
      MembersFromData(data[1..], a[1..], c);
      assert forall s :: 1 <= s < |data| ==> data[s] == data[1..][s - 1] && a[s] == a[1..][s - 1];
    }
  }

  /** The sum of feature `f` over `rows`. */
  function ColumnSum(rows: seq<seq<real>>, f: nat): real
    requires forall j :: 0 <= j < |rows| ==> f < |rows[j]|
  {
    if rows == [] then 0.0 else rows[0][f] + ColumnSum(rows[1..], f)
  }

  /** The feature-wise arithmetic mean of a non-empty group of rows: each
      component times the number of rows is that feature's total. */
  function Mean(rows: seq<seq<real>>, d: nat): (m: seq<real>)
    requires |rows| >= 1 && HasDim(rows, d)
    ensures |m| == d
    ensures forall f :: 0 <= f < d ==> m[f] * (|rows| as real) == ColumnSum(rows, f)
  {
    seq(d, f requires 0 <= f < d => ColumnSum(rows, f) / (|rows| as real))
  }

  /** `groupby(...).mean()`: one centroid per cluster id that received a
      sample, in ascending id order, each the mean of that cluster's members.
      Ids that received no sample get no centroid, so the list can shrink,
      and the position of a centroid in the new list is its new id. */
  function NewCentroids(data: seq<seq<real>>, a: seq<nat>): (c: seq<seq<real>>)
    requires IsDataset(data) && |a| == |data|
    ensures |c| == |ClusterIds(a)| >= 1
    ensures HasDim(c, Dim(data))
    ensures forall p :: 0 <= p < |c| ==>
      |Members(data, a, ClusterIds(a)[p])| >= 1 &&
      HasDim(Members(data, a, ClusterIds(a)[p]), Dim(data)) &&
      c[p] == Mean(Members(data, a, ClusterIds(a)[p]), Dim(data))
  {
    var ids := ClusterIds(a);
    assert a[0] in ids;
    MembersOfPresentIds(data, a);
    seq(|ids|, p requires 0 <= p < |ids| => Mean(Members(data, a, ids[p]), Dim(data)))
  }

  lemma MembersOfPresentIds(data: seq<seq<real>>, a: seq<nat>)
    requires IsDataset(data) && |a| == |data|
    ensures forall c :: c in a ==> |Members(data, a, c)| >= 1 && HasDim(Members(data, a, c), Dim(data))
  {
    forall c | c in a ensures |Members(data, a, c)| >= 1 && HasDim(Members(data, a, c), Dim(data)) {
      MembersFromData(data, a, c);
      var s :| 0 <= s < |a| && a[s] == c;
      assert data[s] in Members(data, a, c);
      var m := Members(data, a, c);
      forall j | 0 <= j < |m| ensures |m[j]| == Dim(data) {
        assert m[j] in data;
      }
    }
  }

  /** One k-means iteration: assign, then regroup. It never adds a centroid,
      and leaves at least one. */
  function Iteration(data: seq<seq<real>>, cs: seq<seq<real>>): (r: (seq<seq<real>>, seq<nat>))
    requires IsDataset(data) && |cs| >= 1 && HasDim(cs, Dim(data))
    ensures 1 <= |r.0| <= |cs| && HasDim(r.0, Dim(data))
    ensures |r.1| == |data| && forall s :: 0 <= s < |data| ==> r.1[s] < |cs|
  {
    var a := Assign(data, cs);
    IdsBounded(ClusterIds(a), |cs|);
    (NewCentroids(data, a), a)
  }

  method ComputeIteration(data: seq<seq<real>>, cs: seq<seq<real>>) returns (newCentroids: seq<seq<real>>, assignments: seq<nat>)
    requires IsDataset(data) && |cs| >= 1 && HasDim(cs, Dim(data))
    ensures (newCentroids, assignments) == Iteration(data, cs)
  {
    var distances := GetDistancesToCentroids(data, cs);
    forall s | 0 <= s < |data| ensures distances[s] == DistanceRow(data[s], cs) {
      assert |distances[s]| == |cs|;
      forall i | 0 <= i < |cs| ensures distances[s][i] == DistanceRow(data[s], cs)[i] {
      }
    }
    assignments := seq(|data|, s requires 0 <= s < |data| => ArgMin(distances[s]));
    assert assignments == Assign(data, cs);
    newCentroids := NewCentroids(data, assignments);
  }

  // ---------------------------------------------------------------------
  // Facts about ascending id lists
  // ---------------------------------------------------------------------

  lemma {:induction false} IncreasingGap(ids: seq<nat>, i: nat, j: nat)
    requires Increasing(ids) && i <= j < |ids|
    ensures ids[j] >= ids[i] + (j - i)
    decreases j - i
  {
    if i < j {
      IncreasingGap(ids, i + 1, j);
    }
  }

  /** Ascending ids all below `n` are at most `n` in number. */
  lemma IdsBounded(ids: seq<nat>, n: nat)
    requires Increasing(ids)
    requires forall c :: c in ids ==> c < n
    ensures |ids| <= n
  {
    if |ids| > 0 {
      IncreasingGap(ids, 0, |ids| - 1);
      assert ids[|ids| - 1] in ids;
    }
  }

  /** Ascending ids all below their own count are exactly 0, 1, 2, ... */
  lemma IdsArePositions(ids: seq<nat>)
    requires Increasing(ids)
    requires forall c :: c in ids ==> c < |ids|
    ensures forall p :: 0 <= p < |ids| ==> ids[p] == p
  {
    forall p | 0 <= p < |ids| ensures ids[p] == p {
      IncreasingGap(ids, 0, p);
      IncreasingGap(ids, p, |ids| - 1);
      assert ids[|ids| - 1] in ids;
    }
  }

  /** Ascending ids below `n` that include every id below `n` are exactly
      `n` in number. */
  lemma {:induction false} IdsCoverAll(ids: seq<nat>, n: nat)
    requires Increasing(ids)
    requires forall c :: c in ids ==> c < n
    requires forall c :: 0 <= c < n ==> c in ids
    ensures |ids| == n
  {
    IdsBounded(ids, n);
    if n > 0 {
      assert n - 1 in ids;
      var k :| 0 <= k < |ids| && ids[k] == n - 1;
      var last := |ids| - 1;
      assert ids[last] in ids;
      assert ids[last] == n - 1;
      var front := ids[..last];
      forall c | c in front ensures c < n - 1 {
        var j :| 0 <= j < last && front[j] == c;
        assert ids[j] < ids[last];
      }
      forall c | 0 <= c < n - 1 ensures c in front {
        assert c in ids;
        var j :| 0 <= j < |ids| && ids[j] == c;
        assert j != last;
        assert front[j] == c;
      }
      IdsCoverAll(front, n - 1);
    }
  }

  /** An iteration keeps as many centroids as it was given exactly when every
      cluster receives at least one sample; a cluster left empty is dropped
      and the list shrinks. When none is dropped the numbering is kept: new
      centroid `p` is the mean of the samples assigned to old centroid `p`. */
  lemma CentroidsKeptIffNoneEmpty(data: seq<seq<real>>, cs: seq<seq<real>>)
    requires IsDataset(data) && |cs| >= 1 && HasDim(cs, Dim(data))
    ensures |Iteration(data, cs).0| == |cs| <==>
      forall c :: 0 <= c < |cs| ==> c in Assign(data, cs)
    ensures |Iteration(data, cs).0| == |cs| ==>
      forall p :: 0 <= p < |cs| ==> ClusterIds(Assign(data, cs))[p] == p
  {
    var a := Assign(data, cs);
    var ids := ClusterIds(a);
    forall x | x in ids ensures x < |cs| {
      assert x in a;
    }
    if |ids| == |cs| {
      IdsArePositions(ids);
      forall c | 0 <= c < |cs| ensures c in a {
        assert ids[c] in ids;
      }
    } else if forall c :: 0 <= c < |cs| ==> c in a {
      IdsCoverAll(ids, |cs|);
    }
  }

  // ---------------------------------------------------------------------
  // Means stay inside the data
  // ---------------------------------------------------------------------

  lemma {:induction false} ColumnSumBounds(rows: seq<seq<real>>, f: nat, lo: real, hi: real)
    requires forall j :: 0 <= j < |rows| ==> f < |rows[j]| && lo <= rows[j][f] <= hi
    ensures (|rows| as real) * lo <= ColumnSum(rows, f) <= (|rows| as real) * hi
  {
    if rows != [] {
      ColumnSumBounds(rows[1..], f, lo, hi);
      assert (|rows| as real) * lo == ((|rows| - 1) as real) * lo + lo;
      assert (|rows| as real) * hi == ((|rows| - 1) as real) * hi + hi;
    }
  }

  lemma QuotientBounds(total: real, n: real, lo: real, hi: real)
    requires n > 0.0 && n * lo <= total <= n * hi
    ensures lo <= total / n <= hi
  {
    var q := total / n;
    assert q * n == total;
    if q < lo {
      MulPositive(lo - q, n);
    }
    if q > hi {
      MulPositive(q - hi, n);
    }
  }

  /** Every feature of a mean lies between the smallest and largest value of
      that feature among the rows averaged. */
  lemma MeanWithinBounds(rows: seq<seq<real>>, d: nat, f: nat, lo: real, hi: real)
    requires |rows| >= 1 && HasDim(rows, d) && f < d
    requires forall j :: 0 <= j < |rows| ==> lo <= rows[j][f] <= hi
    ensures lo <= Mean(rows, d)[f] <= hi
  {
    ColumnSumBounds(rows, f, lo, hi);
    QuotientBounds(ColumnSum(rows, f), |rows| as real, lo, hi);
  }

  /** Recomputed centroids lie in the bounding box of the dataset, the same
      box the random initializer draws from. */
  lemma NewCentroidsInBox(data: seq<seq<real>>, a: seq<nat>)
    requires IsDataset(data) && |a| == |data|
    ensures forall p, f :: 0 <= p < |NewCentroids(data, a)| && 0 <= f < Dim(data) ==>
      FeatureMin(data, f) <= NewCentroids(data, a)[p][f] <= FeatureMax(data, f)
  {
    var c := NewCentroids(data, a);
    var ids := ClusterIds(a);
    MembersOfPresentIds(data, a);
    forall p, f | 0 <= p < |c| && 0 <= f < Dim(data)
      ensures FeatureMin(data, f) <= c[p][f] <= FeatureMax(data, f)
    {
      var m := Members(data, a, ids[p]);
      MembersFromData(data, a, ids[p]);
      assert ids[p] in ids;
      forall j | 0 <= j < |m| ensures FeatureMin(data, f) <= m[j][f] <= FeatureMax(data, f) {
        assert m[j] in data;
        var s :| 0 <= s < |data| && data[s] == m[j];
      }
      MeanWithinBounds(m, Dim(data), f, FeatureMin(data, f), FeatureMax(data, f));
    }
  }

  // ---------------------------------------------------------------------
  // Convergence loop: kmeans
  // ---------------------------------------------------------------------

  /** The k-means loop run for at most `fuel` iterations from centroids `cs`,
      with `prev` the assignment of the previous iteration (`None` before the
      first). It stops when an iteration reproduces the previous assignment. */
  function Run(data: seq<seq<real>>, cs: seq<seq<real>>, prev: Option<seq<nat>>, fuel: nat): (r: Outcome)
    requires IsDataset(data) && HasDim(cs, Dim(data))
    ensures r.NoCentroids? <==> cs == []
    ensures r.Converged? ==>
      |r.assignments| == |data| &&
      (forall s :: 0 <= s < |data| ==> r.assignments[s] < |cs|) &&
      1 <= |r.centroids| <= |cs| && HasDim(r.centroids, Dim(data))
    decreases fuel
  {
    if cs == [] then NoCentroids
    else if fuel == 0 then NotConverged
    else
      var next := Iteration(data, cs);
      if prev == Some(next.1) then Converged(next.1, next.0)
      else Run(data, next.0, Some(next.1), fuel - 1)
  }

  /** The first iteration never ends the loop, since there is no previous
      assignment to compare with: converging takes at least two iterations. */
  lemma ConvergenceNeedsTwoIterations(data: seq<seq<real>>, cs: seq<seq<real>>, fuel: nat)
    requires IsDataset(data) && HasDim(cs, Dim(data))
    requires Run(data, cs, None, fuel).Converged?
    ensures fuel >= 2
  {
    var next := Iteration(data, cs);
    assert Run(data, cs, None, fuel) == Run(data, next.0, Some(next.1), fuel - 1);
  }

  /** One more iteration of budget does not change a converged result. */
  lemma {:induction false} RunOneMoreFuel(data: seq<seq<real>>, cs: seq<seq<real>>, prev: Option<seq<nat>>, fuel: nat)
    requires IsDataset(data) && HasDim(cs, Dim(data))
    requires Run(data, cs, prev, fuel).Converged?
    ensures Run(data, cs, prev, fuel + 1) == Run(data, cs, prev, fuel)
    decreases fuel
  {
    var next := Iteration(data, cs);
    if prev != Some(next.1) {
      RunOneMoreFuel(data, next.0, Some(next.1), fuel - 1);
    }
  }

  /** More iterations do not change a converged result: the budget only cuts
      off runs that would go on. */
  lemma {:induction false} RunFuelMonotone(data: seq<seq<real>>, cs: seq<seq<real>>, prev: Option<seq<nat>>, fuel: nat, more: nat)
    requires IsDataset(data) && HasDim(cs, Dim(data))
    requires Run(data, cs, prev, fuel).Converged? && fuel <= more
    ensures Run(data, cs, prev, more) == Run(data, cs, prev, fuel)
    decreases more - fuel
  {
    if fuel < more {
      RunOneMoreFuel(data, cs, prev, fuel);
      RunFuelMonotone(data, cs, prev, fuel + 1, more);
    }
  }

  /** At convergence the centroids are the means of the clusters the final
      assignment forms, and the final assignment puts every sample at its
      nearest final centroid: one more iteration changes nothing. */
  lemma {:induction false} RunConvergedIsFixedPoint(data: seq<seq<real>>, cs: seq<seq<real>>, prev: Option<seq<nat>>, fuel: nat)
    requires IsDataset(data) && HasDim(cs, Dim(data))
    requires prev.Some? ==> |prev.value| == |data| && cs == NewCentroids(data, prev.value)
    requires Run(data, cs, prev, fuel).Converged?
    ensures var r := Run(data, cs, prev, fuel);
      Iteration(data, r.centroids) == (r.centroids, r.assignments)
    decreases fuel
  {
    var next := Iteration(data, cs);
    if prev == Some(next.1) {
      assert next.0 == NewCentroids(data, next.1);
      assert cs == next.0;
    } else {
      RunConvergedIsFixedPoint(data, next.0, Some(next.1), fuel - 1);
    }
  }

  /** A fixed point of the iteration: every centroid position is a non-empty
      cluster, and centroid `p` is the mean of the samples assigned `p`. */
  lemma FixedPointClusters(data: seq<seq<real>>, c: seq<seq<real>>, a: seq<nat>)
    requires IsDataset(data) && |c| >= 1 && HasDim(c, Dim(data))
    requires Iteration(data, c) == (c, a)
    ensures forall p :: 0 <= p < |c| ==>
      |Members(data, a, p)| >= 1 && HasDim(Members(data, a, p), Dim(data)) &&
      c[p] == Mean(Members(data, a, p), Dim(data))
    ensures forall s :: 0 <= s < |data| ==> a[s] < |c| && IsNearest(data[s], c, a[s])
  {
    assert Assign(data, c) == a && NewCentroids(data, a) == c;
    var ids := ClusterIds(a);
    assert |c| == |ids|;
    forall x | x in ids ensures x < |ids| {
      assert x in a;
      var s :| 0 <= s < |a| && a[s] == x;
      assert a[s] < |c|;
    }
    IdsArePositions(ids);
    forall p | 0 <= p < |c|
      ensures |Members(data, a, p)| >= 1 && HasDim(Members(data, a, p), Dim(data))
      ensures c[p] == Mean(Members(data, a, p), Dim(data))
    {
      assert ids[p] == p;
    }
  }

  /** Once the centroids are a fixed point of the iteration, the loop stops
      at the latest one iteration later: at once if the previous assignment
      already equals the fixed one, otherwise on the next comparison. */
  lemma FixedPointStops(data: seq<seq<real>>, c: seq<seq<real>>, a: seq<nat>, prev: Option<seq<nat>>, fuel: nat)
    requires IsDataset(data) && |c| >= 1 && HasDim(c, Dim(data))
    requires Iteration(data, c) == (c, a) && fuel >= 1
    ensures Run(data, c, prev, fuel) ==
      if prev == Some(a) || fuel >= 2 then Converged(a, c) else NotConverged
  {
    if prev != Some(a) && fuel >= 2 {
      assert Run(data, c, Some(a), fuel - 1) == Converged(a, c);
    }
  }

  /** When every sample is assigned to the same cluster `c`, `c` is the only
      cluster id and the regrouped list is the single mean of the whole
      dataset. */
  lemma OneClusterMeans(data: seq<seq<real>>, a: seq<nat>, c: nat)
    requires IsDataset(data) && |a| == |data|
    requires forall s :: 0 <= s < |a| ==> a[s] == c
    ensures ClusterIds(a) == [c]
    ensures NewCentroids(data, a) == [Mean(data, Dim(data))]
  {
    var ids := ClusterIds(a);
    assert a[0] in a;
    assert ids == [c] by {
      assert c in ids;
      assert forall x :: x in ids ==> x == c;
      IncreasingSingleton(ids, c);
    }
    MembersAll(data, a, c);
  }

  /** An ascending list whose only element is `c` is `[c]`. */
  lemma IncreasingSingleton(ids: seq<nat>, c: nat)
    requires Increasing(ids) && c in ids
    requires forall x :: x in ids ==> x == c
    ensures ids == [c]
  {
    IncreasingGap(ids, 0, |ids| - 1);
    assert ids[0] in ids && ids[|ids| - 1] in ids;
  }

  /** With a single centroid every sample joins cluster 0, and the new
      centroid is the mean of the whole dataset, wherever the old one was. */
  lemma SingleCentroidIteration(data: seq<seq<real>>, c: seq<real>)
    requires IsDataset(data) && |c| == Dim(data)
    ensures Iteration(data, [c]) == ([Mean(data, Dim(data))], seq(|data|, s => 0))
  {
    var zeros: seq<nat> := seq(|data|, s => 0);
    assert Assign(data, [c]) == zeros;
    OneClusterMeans(data, zeros, 0);
  }

  /** k-means with one centroid stops after its second iteration, at the
      mean of the dataset, with every sample in cluster 0. */
  lemma SingleCentroidConverges(data: seq<seq<real>>, c: seq<real>, fuel: nat)
    requires IsDataset(data) && |c| == Dim(data) && fuel >= 2
    ensures Run(data, [c], None, fuel) ==
      Converged(seq(|data|, s => 0), [Mean(data, Dim(data))])
  {
    SingleCentroidIteration(data, c);
    SingleCentroidIteration(data, Mean(data, Dim(data)));
  }

  /** A cluster that every sample is assigned to has the whole dataset as
      members. */
  lemma {:induction false} MembersAll(data: seq<seq<real>>, a: seq<nat>, c: nat)
    requires |a| == |data| && forall s :: 0 <= s < |a| ==> a[s] == c
    ensures Members(data, a, c) == data
    decreases |data|
  {
    if data != [] {
      MembersAll(data[1..], a[1..], c);
    }
  }

  /** A cluster that no sample is assigned to has no members. */
  lemma {:induction false} MembersNone(data: seq<seq<real>>, a: seq<nat>, c: nat)
    requires |a| == |data| && forall s :: 0 <= s < |a| ==> a[s] != c
    ensures Members(data, a, c) == []
    decreases |data|
  {
    if data != [] {
      MembersNone(data[1..], a[1..], c);
    }
  }

  /** Grouping keeps dataset order: the members drawn from two consecutive
      blocks of samples are those of the first block, then those of the
      second. */
  lemma {:induction false} MembersAppend(d1: seq<seq<real>>, a1: seq<nat>, d2: seq<seq<real>>, a2: seq<nat>, c: nat)
    requires |a1| == |d1| && |a2| == |d2|
    ensures Members(d1 + d2, a1 + a2, c) == Members(d1, a1, c) + Members(d2, a2, c)
    decreases |d1|
  {
    if d1 == [] {
      assert d1 + d2 == d2 && a1 + a2 == a2;
    } else {
      var d, a := d1 + d2, a1 + a2;
      assert d[0] == d1[0] && a[0] == a1[0];
      assert d[1..] == d1[1..] + d2 && a[1..] == a1[1..] + a2;
      MembersAppend(d1[1..], a1[1..], d2, a2, c);
      var head := if a1[0] == c then [d1[0]] else [];
      assert Members(d, a, c) == head + (Members(d1[1..], a1[1..], c) + Members(d2, a2, c));
    }
  }

  /** The loop of `kmeans`, starting from the centroids the initializer gave,
      for at most `fuel` iterations. */
  method KMeans(data: seq<seq<real>>, init: seq<seq<real>>, fuel: nat) returns (r: Outcome)
    requires IsDataset(data) && HasDim(init, Dim(data))
    ensures r == Run(data, init, None, fuel)
    ensures r.NoCentroids? <==> init == []
    ensures r.Converged? ==>
      |r.assignments| == |data| &&
      (forall s :: 0 <= s < |data| ==> r.assignments[s] < |init|) &&
      Iteration(data, r.centroids) == (r.centroids, r.assignments)
  {
    if init == [] {
      return NoCentroids;
    }
    var centroids := init;
    var assignments: Option<seq<nat>> := None;
    var changed := true;
    var steps := 0;
    while changed && steps < fuel
      invariant 0 <= steps <= fuel
      invariant |centroids| >= 1 && HasDim(centroids, Dim(data))
      invariant changed ==> Run(data, init, None, fuel) == Run(data, centroids, assignments, fuel - steps)
      invariant changed && assignments.Some? ==>
        |assignments.value| == |data| && centroids == NewCentroids(data, assignments.value)
      invariant !changed ==> assignments.Some? && Run(data, init, None, fuel) == Converged(assignments.value, centroids)
      decreases fuel - steps
    {
      var newCentroids, newAssignments := ComputeIteration(data, centroids);
      if assignments == Some(newAssignments) {
        changed := false;
      }
      centroids, assignments := newCentroids, Some(newAssignments);
      steps := steps + 1;
    }
    if changed {
      r := NotConverged;
    } else {
      r := Converged(assignments.value, centroids);
      RunConvergedIsFixedPoint(data, init, None, fuel);
    }
  }

  /** `kmeans` with the default initializer: `k` random centroids, then the
      loop. Every returned id is below `k`. */
  method KMeansWithRandomCentroids(data: seq<seq<real>>, k: nat, draws: seq<seq<real>>, fuel: nat) returns (r: Outcome)
    requires IsDataset(data) && IsDraws(draws, k, Dim(data))
    ensures r == Run(data, CreateRandomCentroids(data, k, draws), None, fuel)
    ensures r.NoCentroids? <==> k == 0
    ensures r.Converged? ==>
      |r.assignments| == |data| && forall s :: 0 <= s < |data| ==> r.assignments[s] < k
  {
    var centroids := CreateRandomCentroids(data, k, draws);
    r := KMeans(data, centroids, fuel);
  }
}
