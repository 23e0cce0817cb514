# k-means clustering in pml, modelled in Dafny

This project models the k-means clustering of the `pml` library and proves
properties of the model. It covers `pml/clustering.py` and the Euclidean
distance of `pml/distance_utils.py`. It has three modules:

- `Distance` (`distance.dfy`) models `euclidean`. It works on exact reals and
  uses the squared Euclidean distance, the sum under numpy's square root.
  `IsEuclidean(a, b, d)` says that `d` is the non-negative square root of
  that sum. The root is monotone, so comparing distances and comparing
  squared distances give the same answers. `CheckedSquaredEuclidean` adds
  numpy's rules for vectors of different lengths.
- `Clustering` (`clustering.dfy`) models the rest of the core:
  - A **dataset** is a non-empty sequence of samples of equal length. A
    sample is named by its position.
  - **`create_random_centroids`**: `CreateRandomCentroids` draws each feature
    with `random.uniform` over that feature's range in the dataset. The
    values of `random.random()` come in as a parameter.
  - **`_get_distances_to_centroids`**: the method `GetDistancesToCentroids`
    fills a map keyed by centroid position, one column at a time, as the
    source does.
  - **`_compute_iteration`** has two steps:
    - `Assign` is `idxmin`: each sample goes to the first centroid at least
      distance.
    - `NewCentroids` is `groupby(...).mean()`: one mean per cluster id that
      received a sample, in ascending id order.

    The function `Iteration` composes the two steps. The method
    `ComputeIteration` does what `_compute_iteration` does: it builds the
    distance table, takes `idxmin` of each row and regroups; it is proved to
    return what `Iteration` specifies.
  - **The `kmeans` loop** is the function `Run`, which takes an iteration
    budget, and the method `KMeans` that implements it with a `while` loop.
    `KMeansWithRandomCentroids` is `kmeans` with its default initializer.
- `Scenarios` (`scenarios.dfy`) works through runs on one concrete dataset of
  four one-feature samples: 0, 1, 10 and 11.
  - Centroids that separate the two pairs converge in two iterations to the
    pair means.
  - The random initializer, given fixed draws, leads to the same result.
  - A centroid placed above all the data receives no sample. Its cluster is
    dropped and the survivors are renumbered. The run then needs a third
    iteration, because the renumbered assignment differs from the previous
    one.

Three behaviours of the code are easy to miss, and the model keeps each of
them:

- **Vectors of different lengths.** `euclidean` subtracts with numpy
  (pml/distance_utils.py:41), which stretches a vector of length one to the
  other's length; only other pairs of lengths fail.
  `CheckedSquaredEuclidean` models this.
- **Empty clusters.** `groupby` (pml/clustering.py:153) drops a cluster that
  received no sample, so the next list of centroids is shorter, and
  `enumerate` (pml/clustering.py:117) then renumbers the clusters by position
  in that list. No old centroid is kept. `NewCentroids` and
  `CentroidsKeptIffNoneEmpty` model this.
- **No check of `k`.** `kmeans` passes `k` straight to the initializer
  (pml/clustering.py:65-89), which builds `range(k)` centroids: `k` above the
  number of samples is accepted, and `k <= 0` gives no centroids. In the
  model `k` is a natural number; with `k = 0` there are no centroids, and
  `Run` reports `NoCentroids` without iterating.

## Model

| member | source | states |
|---|---|---|
| Distance.SquaredEuclidean | pml/distance_utils.py:41 | the sum of squared component differences under the root is never negative |
| Distance.IsEuclidean | pml/distance_utils.py:41 | `d` is the value `euclidean` returns: the non-negative root of the squared distance; it is 0 exactly when the squared distance is 0 |
| Distance.SumNonNegative | pml/distance_utils.py:41 | numpy's `.sum()` of non-negative entries is non-negative |
| Distance.SumZeroIff | pml/distance_utils.py:41 | numpy's `.sum()` of non-negative entries is 0 exactly when every entry is 0 |
| Distance.SumAppend | pml/distance_utils.py:41 | numpy's `.sum()` of a vector with one more entry is the old sum plus that entry |
| Distance.SquaresNonNegative | pml/distance_utils.py:41 | every entry of `power(a - b, 2)` is non-negative |
| Distance.SquaredEuclideanAppend | pml/distance_utils.py:41 | the squared distance is the sum over components of (a[j] - b[j])²: it is 0 for empty vectors, and one more component pair adds its squared difference |
| Distance.SquaredEuclideanSelf | pml/distance_utils.py:41 | the distance from a vector to itself is 0 |
| Distance.SquaredEuclideanSymmetric | pml/distance_utils.py:41 | the distance does not depend on the order of its arguments |
| Distance.SquaredEuclideanZeroIff | pml/distance_utils.py:41 | the distance is 0 exactly when the two vectors are equal, in both directions |
| Distance.DistanceOrderMatchesSquared | pml/distance_utils.py:41 | for non-negative roots, d1 <= d2 and d1 < d2 hold exactly when the same holds for their squares, so the nearest centroid can be found on squared distances |
| Distance.EuclideanUnique | pml/distance_utils.py:41 | the non-negative root of the squared distance is unique, so the distance is well defined |
| Distance.EuclideanProperties | pml/distance_utils.py:28-41 | the distance itself is symmetric, is 0 exactly between equal vectors, and is 0 from a vector to itself |
| Distance.EuclideanExamples | pml/distance_utils.py:28-41 | the distance from (0, 0) to (3, 4) is 5, and from (1, 2, 3) to itself it is 0 |
| Distance.CheckedSquaredEuclidean | pml/distance_utils.py:41 | with numpy broadcasting, a dimension error occurs exactly when the lengths differ and neither is 1; any value is non-negative |
| Distance.CheckedSquaredEuclideanSymmetric | pml/distance_utils.py:41 | broadcasting keeps the distance symmetric, and on equal lengths it is the plain squared distance |
| Clustering.FeatureMin | pml/clustering.py:52 | the result is at most every sample's value of the feature, and some sample attains it |
| Clustering.FeatureMax | pml/clustering.py:53 | the result is at least every sample's value of the feature, and some sample attains it |
| Clustering.Uniform | pml/clustering.py:55-60 | a uniform draw lies in [lo, hi], and is lo when the range is a single point |
| Clustering.CreateRandomCentroids | pml/clustering.py:52-63 | exactly k centroids, each with one value per feature, and value f lies between that feature's minimum and maximum over the dataset |
| Clustering.DistanceRowNonNegative | pml/clustering.py:117-122 | the distances from one sample form one entry per centroid, none negative |
| Clustering.GetDistancesToCentroids | pml/clustering.py:116-125 | one row per sample and one column per centroid; entry (s, i) is the squared distance from sample s to the centroid at position i, and it is non-negative |
| Clustering.ArgMin | pml/clustering.py:147 | `idxmin` on a row gives a position holding the minimum, with every earlier entry strictly larger |
| Clustering.ArgMinUnique | pml/clustering.py:147 | any position holding the minimum with all earlier entries strictly larger is the one `idxmin` gives, so the first minimum is unique |
| Clustering.NearestUnique | pml/clustering.py:147 | at most one centroid is nearest with every earlier centroid strictly farther, so ties are settled by position |
| Clustering.Assign | pml/clustering.py:144-147 | one id per sample; each id is a position in the centroid list, that centroid is at minimal distance, and every earlier centroid is strictly farther |
| Clustering.AssignMatchesEuclidean | pml/clustering.py:144-147 | `idxmin` over a table of true Euclidean distances picks, for every sample, the same centroid as `Assign` on squared distances |
| Clustering.IdsBelow | pml/clustering.py:153 | the ids below n that occur in the assignment, strictly ascending, each exactly once |
| Clustering.ClusterIds | pml/clustering.py:153 | the `groupby` keys: strictly ascending, and an id is a key exactly when some sample is assigned to it |
| Clustering.Members | pml/clustering.py:149-153 | the samples `groupby(nearest_centroid)` puts in cluster c, in dataset order; never more than the dataset holds |
| Clustering.MembersFromData | pml/clustering.py:149-153 | the members of a cluster are samples of the dataset, and every sample assigned to the cluster is among them |
| Clustering.MembersAll | pml/clustering.py:149-153 | a cluster that every sample is in has the whole dataset as members |
| Clustering.MembersNone | pml/clustering.py:149-153 | a cluster that no sample is in has no members |
| Clustering.MembersAppend | pml/clustering.py:149-153 | grouping keeps dataset order: the members drawn from two consecutive blocks of samples are those of the first block followed by those of the second |
| Clustering.MembersOfPresentIds | pml/clustering.py:153 | every cluster id that occurs has at least one member, and all members have the dataset's number of features |
| Clustering.Mean | pml/clustering.py:153 | the mean has one value per feature, and each value times the number of rows is that feature's total |
| Clustering.NewCentroids | pml/clustering.py:153-156 | one centroid per cluster id that received a sample, in ascending id order, at least one; centroid p is the feature-wise mean of the members of the p-th present id |
| Clustering.Iteration | pml/clustering.py:143-158 | the new centroid list is never longer than the old one and at least 1 long, and every assigned id is below the number of old centroids |
| Clustering.ComputeIteration | pml/clustering.py:143-158 | the table, `idxmin` and regrouping steps give exactly the centroids and assignment of `Iteration` |
| Clustering.CentroidsKeptIffNoneEmpty | pml/clustering.py:153-156 | an iteration keeps as many centroids as it got exactly when every centroid receives a sample; in that case the numbering is kept, and id p stays id p |
| Clustering.ColumnSumBounds | pml/clustering.py:153 | the total of a feature over n rows lies between n times any lower bound and n times any upper bound of that feature |
| Clustering.MeanWithinBounds | pml/clustering.py:153 | every feature of a mean lies between bounds that hold for every row averaged |
| Clustering.NewCentroidsInBox | pml/clustering.py:153-156 | recomputed centroids lie within the dataset's feature ranges, like the initial random ones |
| Clustering.Run | pml/clustering.py:92-100 | the loop reports no centroids exactly when it starts with none; after an iteration that repeats the previous assignment, it returns one id per sample, each below the number of initial centroids, with between 1 and that many centroids |
| Clustering.ConvergenceNeedsTwoIterations | pml/clustering.py:92-97 | the loop never stops after its first iteration, because the previous assignment starts as None |
| Clustering.RunOneMoreFuel | pml/clustering.py:94-100 | one more iteration of budget does not change a converged result |
| Clustering.RunFuelMonotone | pml/clustering.py:94-100 | any larger budget gives the same converged result, so the budget only cuts off runs that would go on |
| Clustering.RunConvergedIsFixedPoint | pml/clustering.py:94-100 | at convergence, one more iteration from the final centroids reproduces the final centroids and the returned assignment |
| Clustering.FixedPointClusters | pml/clustering.py:143-158 | at a fixed point every centroid position is a non-empty cluster, centroid p is the mean of the samples assigned p, and every sample is at its nearest centroid |
| Clustering.FixedPointStops | pml/clustering.py:94-98 | from a fixed point the loop stops at once if the previous assignment already equals the fixed one, and otherwise one iteration later |
| Clustering.OneClusterMeans | pml/clustering.py:153-156 | when all samples are in one cluster, that id is the only key and the new list is the single mean of the whole dataset |
| Clustering.SingleCentroidIteration | pml/clustering.py:143-158 | from one centroid anywhere, every sample joins cluster 0 and the new centroid is the dataset mean |
| Clustering.SingleCentroidConverges | pml/clustering.py:92-100 | with one centroid the loop stops after its second iteration, at the dataset mean, with every sample in cluster 0 |
| Clustering.KMeans | pml/clustering.py:92-100 | the loop returns exactly `Run` from the given initial centroids, so the result is a function of the dataset and those centroids; no centroids is reported exactly when there are none; a converged assignment has one id per sample, each below the number of initial centroids, and its centroids are a fixed point of the iteration |
| Clustering.KMeansWithRandomCentroids | pml/clustering.py:65-100 | `kmeans` with the default initializer reports no centroids exactly when k = 0; a converged assignment has one id per sample, each below k |
| Scenarios.AssignOfTwo | pml/clustering.py:147 | with two centroids a sample goes to the second one exactly when it is strictly nearer to it |
| Scenarios.NearerOnLine | pml/clustering.py:147 | on a line, the second of two distinct centroids is strictly nearer exactly when the sample is on its side of their midpoint |
| Scenarios.AssignOnLine | pml/clustering.py:144-147 | in the four-sample dataset, a sample goes to the second of two distinct centroids exactly when it lies on that centroid's side of their midpoint |
| Scenarios.SplitByMidpoint | pml/clustering.py:144-147 | any two centroids whose midpoint lies between the pairs assign 0, 0, 1, 1 |
| Scenarios.FirstCentroidEmpty | pml/clustering.py:144-147 | a first centroid above the data, farther from every sample than the second, receives no sample |
| Scenarios.MeanOfTwo | pml/clustering.py:153 | the mean of two one-feature rows is their midpoint |
| Scenarios.SplitIds | pml/clustering.py:153 | the assignment 0, 0, 1, 1 has the keys 0 and 1 |
| Scenarios.PairMembers | pml/clustering.py:149-153 | with the assignment 0, 0, 1, 1 the first pair forms cluster 0 and the second pair cluster 1 |
| Scenarios.MeansOfTwoClusters | pml/clustering.py:153-156 | with keys 0 and 1, the new list is the two cluster means in key order |
| Scenarios.PairMeansOf | pml/clustering.py:153-156 | any two pairs assigned 0, 0, 1, 1 regroup to the two pair midpoints, in that order |
| Scenarios.SplitMeans | pml/clustering.py:153-156 | the pairs of the dataset regroup to 0.5 and 10.5 |
| Scenarios.SplitIteration | pml/clustering.py:143-158 | one iteration from centroids that separate the pairs gives the pair means and the assignment 0, 0, 1, 1 |
| Scenarios.SeparatedRun | pml/clustering.py:92-100 | from centroids that separate the pairs the loop converges to the split and the pair means with a budget of two iterations, and not with one |
| Scenarios.TwoCentroidsOnLine | pml/clustering.py:52-63 | with one feature and two draws, each centroid is the feature's minimum plus its draw's share of the feature's range |
| Scenarios.RandomCentroidsFromDraws | pml/clustering.py:52-63 | the draws 0.0 and 0.5 place the centroids at 0 and 5.5 |
| Scenarios.RandomStartRun | pml/clustering.py:65-100 | `kmeans` with the default initializer and those draws converges to the split and the pair means |
| Scenarios.PointsMean | pml/clustering.py:153 | the mean of all four samples is 5.5 |
| Scenarios.EmptyClusterDropped | pml/clustering.py:153-156 | when cluster 0 receives no sample, the new list holds the single mean 5.5 while the samples still carry id 1 |
| Scenarios.MeanIsFixed | pml/clustering.py:143-158 | from the single centroid 5.5 every sample is renumbered to cluster 0 and the centroid stays put |
| Scenarios.EmptyClusterRun | pml/clustering.py:92-100 | after an empty cluster is dropped, the loop converges to one cluster at 5.5 with a budget of three iterations and not with two, because renumbering changes the assignment once |

## Left out

- Distance.SquaredEuclidean: returns the square of `euclidean`'s result. The root is only characterised, by `IsEuclidean`, because Dafny has no real square root.
- Floating point is left out. Values are exact reals, so rounding, NaN and infinities are not modelled.
- Clustering.CreateRandomCentroids: `random.uniform` is modelled as `lo + (hi - lo) * u`. The values `u` of `random.random()` are a parameter in [0, 1), because the generator is not modelled.
- Clustering.Run: takes an iteration budget and reports `NotConverged` when it runs out. The source loop has no cap, and whether it terminates is not proved.
- Clustering.KMeans: inherits the iteration budget of `Run`.
- Clustering.KMeans: takes the initial centroids as a parameter, as the injectable `create_centroids` allows. `KMeansWithRandomCentroids` composes it with the default initializer. The default `k = 2` is not modelled, since Dafny has no default arguments.
- Clustering.Run: returns the final centroids in `Converged` besides the assignment. The source returns only the assignment.
- Clustering.Run: with no initial centroids it returns `NoCentroids`. It does not reproduce the error pandas would raise on an empty distance table.
- The model requires a non-empty dataset. The source fails for an empty dataset inside `min` and `max`; that failure is not modelled.
- Clustering.KMeans: requires every initial centroid to have the dataset's number of features. In the source, numpy fails only for lengths other than equal or 1; a length-1 centroid from an injected `create_centroids` is broadcast by the source and excluded by the model's requires. `CheckedSquaredEuclidean` models the broadcasting for one pair of vectors only.
- Clustering.KMeansWithRandomCentroids: takes `k` as a natural number. `range(k)` in the source also accepts a negative `k` and then builds no centroids, like `k = 0`; negative `k` is not modelled.
- Clustering.CreateRandomCentroids: reads `zip` and `map` as Python 2 lists, so every centroid gets one value per feature. Under Python 3, `min_maxs` is an iterator that the first centroid's `map` uses up, so for `k >= 2` the later centroids get no values and building their Series fails. The source does not settle the version: its imports are Python 2 style. The model follows the Python 2 reading.
- `model.as_dataset` and the pandas and numpy containers are left out. A DataSet is a sequence of rows, a Series a sequence, and a DataFrame a sequence of rows.
- Sample index labels are replaced by positions. The returned Series is the sequence of ids in sample order.
- `pandas_util.are_dataframes_equal` is not part of this model. It is taken to be sequence equality, which is false against the initial `None`.
- `.ix` row access is left out. `list_of_series` is the list of new centroids in key order.
