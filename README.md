# SLOM and binary Hopkins probes (ELKI), modelled in Dafny

This project models two algorithms of the ELKI data-mining framework and proves properties of them.

**SLOM** (`SLOM.run`) is the spatial local outlier measure of Chawla and Sun. It makes two passes over a relation of database objects.

- Pass 1 stores, for every object x, the modified distance D~(x). This is computed over the spatial neighbours of x, skipping x itself:
  - the trimmed mean `(sum - maxDist) / (cnt - 1)` when there are at least two such neighbours;
  - `maxDist` otherwise.
- Pass 2 reads only this store. For every object with at least one other neighbour it computes:
  - `avg`, the mean D~ of the neighbours;
  - `avgPlus`, the mean D~ of the neighbours together with x;
  - a signed vote `beta`: each neighbour, and x itself when x is not listed as its own neighbour, votes +1 if its D~ is above `avgPlus` and -1 if below;
  - `|beta|`, floored at 1 and divided by `cnt - 1` (or 1 with a single neighbour), then divided by `1 + avg`;
  - the score, which is that value times D~(x). An object with no other neighbour gets score 0.
- Every score is fed into a `DoubleMinMax` tracker. The tracker starts at +infinity / -infinity and reports the least and greatest score.

**Binary Hopkins probes** (`HopkinsStatisticClusteringTendencyBinaryData.computeNNForUniformData`) build `sampleSize` random binary probe vectors.

- Each probe takes one coin flip per dimension. The dimensions that came up true become the ascending indices of a `SparseShortVector` whose values are all 1.
- Each probe is queried once for its k-nearest-neighbour distance.
- The method returns the sum of `powi(kdist, dim)` over the probes.

Modules:

- `MinMax` (`min_max.dfy`): the `DoubleMinMax` tracker, as a class with a ghost log of the values put into it.
- `Slom` (`slom.dfy`): both passes.
  - Each object's loops are a method proved against a specification function: `ModifiedDistanceOf` against `ModifiedDistance`, `ScoreOf` against `Score`.
  - Each whole pass is a method that fills a map store: `ModifiedDistances` for pass 1, `Scores` for pass 2.
  - `Run` chains the two passes.
- `HopkinsBinary` (`hopkins_binary.dfy`): probe construction as a method over arrays (`BuildProbe`, against `Probe`), and the accumulation loop (`ComputeNNForUniformData`, against `ProbeSum`).

External services are parameters of the model:

- the neighbour predicate is a function `Id -> seq<Id>`;
- the non-spatial distance is a function `(Id, Id) -> real`;
- the kNN query is a function from probe vector and k to the k-distance;
- the random generator is replaced by the sequence of coin flips it would produce, one row per probe.

The documented requirements of the system go further than the code does, and the model follows the code:

- the documented requirement `dim >= 1` is not enforced: nothing rejects `dim = 0`, and then u counts the probes (lemma `ZeroDimensionCountsProbes`);
- the documented requirement that arithmetic producing NaN or infinity fail loudly is not enforced: no check for non-finite values exists in either algorithm.

## Model

| member | source | states |
|---|---|---|
| MinMax.RealMin | src/de/lmu/ifi/dbs/elki/algorithm/outlier/spatial/SLOM.java:163 | Math.min inside the tracker's put: the result is one of the two arguments and no larger than either |
| MinMax.RealMax | src/de/lmu/ifi/dbs/elki/algorithm/outlier/spatial/SLOM.java:91 | Math.max, as in maxDist and the beta floor: the result is one of the two arguments and no smaller than either |
| MinMax.ExtMin | src/de/lmu/ifi/dbs/elki/algorithm/outlier/spatial/SLOM.java:163 | Math.min of the tracked minimum, which may still be +infinity, and the value put; definition, no contract of its own; properties in MinMax.DoubleMinMax.Put |
| MinMax.ExtMax | src/de/lmu/ifi/dbs/elki/algorithm/outlier/spatial/SLOM.java:163 | Math.max of the tracked maximum, which may still be -infinity, and the value put; definition, no contract of its own; properties in MinMax.DoubleMinMax.Put |
| MinMax.SeqMin | src/de/lmu/ifi/dbs/elki/algorithm/outlier/spatial/SLOM.java:163-167 | the least of the values put, as getMin reports it; definition, no contract of its own; properties in MinMax.SeqMinIsLeast |
| MinMax.SeqMax | src/de/lmu/ifi/dbs/elki/algorithm/outlier/spatial/SLOM.java:163-167 | the greatest of the values put, as getMax reports it; definition, no contract of its own; properties in MinMax.SeqMaxIsGreatest |
| MinMax.SeqMinIsLeast | src/de/lmu/ifi/dbs/elki/algorithm/outlier/spatial/SLOM.java:163-167 | the tracked minimum of the values put so far is one of them and is below or equal to every one of them |
| MinMax.SeqMaxIsGreatest | src/de/lmu/ifi/dbs/elki/algorithm/outlier/spatial/SLOM.java:163-167 | the tracked maximum of the values put so far is one of them and is above or equal to every one of them |
| MinMax.DoubleMinMax.constructor | src/de/lmu/ifi/dbs/elki/algorithm/outlier/spatial/SLOM.java:104 | a fresh tracker has seen nothing and holds min = +infinity, max = -infinity |
| MinMax.DoubleMinMax.Put | src/de/lmu/ifi/dbs/elki/algorithm/outlier/spatial/SLOM.java:163 | after a put, the value is appended to the log and min/max are the least/greatest of all values put |
| Slom.Others | src/de/lmu/ifi/dbs/elki/algorithm/outlier/spatial/SLOM.java:84-87 | the neighbours visited by pass 1's loop (lines 84-92) and pass 2's sum loop (lines 112-118) are exactly the listed ones other than the object itself; the vote loop (lines 126-134) does not skip the object and uses the whole list |
| Slom.OthersMultiset | src/de/lmu/ifi/dbs/elki/algorithm/outlier/spatial/SLOM.java:84-87 | skipping the object drops exactly its occurrences and keeps every other neighbour as often as it is listed |
| Slom.OthersOfSelfFree | src/de/lmu/ifi/dbs/elki/algorithm/outlier/spatial/SLOM.java:84-87 | a neighbour list without the object is visited unchanged |
| Slom.DistSum | src/de/lmu/ifi/dbs/elki/algorithm/outlier/spatial/SLOM.java:89 | the running distance sum; definition, no contract of its own; properties in Slom.DistSumAppend, Slom.DistSumBounds and Slom.DistSumRemove |
| Slom.MaxDist | src/de/lmu/ifi/dbs/elki/algorithm/outlier/spatial/SLOM.java:80-91 | maxDist, started at 0, is non-negative and at least every visited distance |
| Slom.MaxDistAttained | src/de/lmu/ifi/dbs/elki/algorithm/outlier/spatial/SLOM.java:80-91 | with non-negative distances and a neighbour, maxDist is the distance to one of the neighbours |
| Slom.ModifiedDistance | src/de/lmu/ifi/dbs/elki/algorithm/outlier/spatial/SLOM.java:93-100 | D~ of one object; definition, no contract of its own; properties in Slom.TrimmedMean, Slom.ModifiedDistanceFallback, Slom.ModifiedDistanceBounds and Slom.ModifiedDistanceIgnoresSelf |
| Slom.DistSumAppend | src/de/lmu/ifi/dbs/elki/algorithm/outlier/spatial/SLOM.java:89 | the distance sum over two batches of neighbours is the sum of the two sums |
| Slom.DistSumBounds | src/de/lmu/ifi/dbs/elki/algorithm/outlier/spatial/SLOM.java:88-91 | with non-negative distances, maxDist <= sum <= cnt * maxDist |
| Slom.ModifiedDistanceIgnoresSelf | src/de/lmu/ifi/dbs/elki/algorithm/outlier/spatial/SLOM.java:84-87 | entries equal to the object itself have no influence on D~ |
| Slom.ModifiedDistanceFallback | src/de/lmu/ifi/dbs/elki/algorithm/outlier/spatial/SLOM.java:96-99 | with at most one other neighbour D~ is maxDist: 0 without neighbours, the one distance with one |
| Slom.ModifiedDistanceBounds | src/de/lmu/ifi/dbs/elki/algorithm/outlier/spatial/SLOM.java:93-100 | with non-negative distances, 0 <= D~ <= maxDist |
| Slom.DivAtMost | src/de/lmu/ifi/dbs/elki/algorithm/outlier/spatial/SLOM.java:94 | dividing a value at most c * m by a positive c gives at most m, the step from the trimmed mean to D~ <= maxDist |
| Slom.DistSumRemove | src/de/lmu/ifi/dbs/elki/algorithm/outlier/spatial/SLOM.java:89-94 | taking one neighbour out of the list takes exactly its distance off the sum |
| Slom.TrimmedMean | src/de/lmu/ifi/dbs/elki/algorithm/outlier/spatial/SLOM.java:93-94 | with two or more other neighbours, D~ is the mean distance over them after dropping one neighbour at the largest distance |
| Slom.TrimmedMeanExample | src/de/lmu/ifi/dbs/elki/algorithm/outlier/spatial/SLOM.java:84-94 | the object listed among its neighbours, and neighbours at 2 and 4, give D~ = 2 |
| Slom.ModifiedDistanceOf | src/de/lmu/ifi/dbs/elki/algorithm/outlier/spatial/SLOM.java:79-100 | the loop over one object's neighbours computes D~ of that object |
| Slom.ModifiedDistances | src/de/lmu/ifi/dbs/elki/algorithm/outlier/spatial/SLOM.java:76-101 | pass 1 stores D~ for exactly the objects of the relation |
| Slom.DtSum | src/de/lmu/ifi/dbs/elki/algorithm/outlier/spatial/SLOM.java:116 | a sum of stored D~ values is non-negative when the store is |
| Slom.Sign | src/de/lmu/ifi/dbs/elki/algorithm/outlier/spatial/SLOM.java:128-133 | one vote: +1 strictly above the average, -1 strictly below; definition, no contract of its own; properties in Slom.SignSumCounts and Slom.SignSumAtValue |
| Slom.SignSum | src/de/lmu/ifi/dbs/elki/algorithm/outlier/spatial/SLOM.java:126-134 | the vote sum over a list lies between minus and plus its length |
| Slom.Votes | src/de/lmu/ifi/dbs/elki/algorithm/outlier/spatial/SLOM.java:125-144 | the signed vote count over the listed neighbours plus the object when it is not listed; definition, no contract of its own; properties in Slom.SelfVotedOnce and Slom.VotesCountNPlus |
| Slom.RealAbs | src/de/lmu/ifi/dbs/elki/algorithm/outlier/spatial/SLOM.java:145 | Math.abs of the vote count; definition, no contract of its own; properties in Slom.ScoreByCase |
| Slom.NeighbourMean | src/de/lmu/ifi/dbs/elki/algorithm/outlier/spatial/SLOM.java:123 | avg is non-negative when the D~ store is |
| Slom.NeighbourMeanPlus | src/de/lmu/ifi/dbs/elki/algorithm/outlier/spatial/SLOM.java:122 | avgPlus, the mean D~ over the other neighbours and the object; definition, no contract of its own; properties in Slom.UniformMeans |
| Slom.Beta | src/de/lmu/ifi/dbs/elki/algorithm/outlier/spatial/SLOM.java:145-153 | beta before damping is strictly positive for every vote count |
| Slom.Damped | src/de/lmu/ifi/dbs/elki/algorithm/outlier/spatial/SLOM.java:154-156 | damping non-negative values by 1 + avg gives a non-negative value |
| Slom.Score | src/de/lmu/ifi/dbs/elki/algorithm/outlier/spatial/SLOM.java:119-161 | every score is non-negative, and an object with no other neighbour scores 0 |
| Slom.OthersLength | src/de/lmu/ifi/dbs/elki/algorithm/outlier/spatial/SLOM.java:111-118 | over a neighbour set, cnt is its size minus one when the object is listed |
| Slom.SignSumSplit | src/de/lmu/ifi/dbs/elki/algorithm/outlier/spatial/SLOM.java:126-134 | over a neighbour set, the loop's votes are those of the other neighbours plus the object's own when it is listed |
| Slom.SelfVotedOnce | src/de/lmu/ifi/dbs/elki/algorithm/outlier/spatial/SLOM.java:126-144 | the object votes exactly once whether or not it is listed, so the count is bounded by cnt + 1 |
| Slom.SignSumCounts | src/de/lmu/ifi/dbs/elki/algorithm/outlier/spatial/SLOM.java:126-134 | over a set, the vote sum is the number of members above avgPlus minus the number below |
| Slom.AboveBelowInsert | src/de/lmu/ifi/dbs/elki/algorithm/outlier/spatial/SLOM.java:128-133 | one more member moves the above-minus-below count by exactly its own vote |
| Slom.VotesCountNPlus | src/de/lmu/ifi/dbs/elki/algorithm/outlier/spatial/SLOM.java:125-144 | the vote count is above-minus-below over N+(x), the neighbour set with x, and N+(x) has cnt + 1 members |
| Slom.ScoreByCase | src/de/lmu/ifi/dbs/elki/algorithm/outlier/spatial/SLOM.java:145-156 | the score is beta / (1 + avg) * D~(x), with beta = 1 for one neighbour and max(above-minus-below over N+(x), 1) / (cnt - 1) otherwise |
| Slom.DtSumConstant | src/de/lmu/ifi/dbs/elki/algorithm/outlier/spatial/SLOM.java:116 | neighbours sharing one D~ value c sum to cnt * c |
| Slom.SignSumAtValue | src/de/lmu/ifi/dbs/elki/algorithm/outlier/spatial/SLOM.java:128-133 | values equal to the average cast no vote |
| Slom.ConstantMeans | src/de/lmu/ifi/dbs/elki/algorithm/outlier/spatial/SLOM.java:122-123 | neighbours sharing one D~ value c have mean c, with or without one more c |
| Slom.UniformMeans | src/de/lmu/ifi/dbs/elki/algorithm/outlier/spatial/SLOM.java:122-123 | when x and its neighbours share one D~ value c, avg and avgPlus are both c |
| Slom.UniformVotes | src/de/lmu/ifi/dbs/elki/algorithm/outlier/spatial/SLOM.java:125-144 | when x and its neighbours share the value avgPlus, the vote count is 0 |
| Slom.UniformNeighbourhood | src/de/lmu/ifi/dbs/elki/algorithm/outlier/spatial/SLOM.java:145-156 | in a uniform neighbourhood the floor applies: the score is c / (1 + c) times 1 / (cnt - 1), or times 1 with one neighbour |
| Slom.NeighbourSum | src/de/lmu/ifi/dbs/elki/algorithm/outlier/spatial/SLOM.java:108-118 | the first loop of pass 2 sums D~ over the other neighbours and counts them |
| Slom.VoteCount | src/de/lmu/ifi/dbs/elki/algorithm/outlier/spatial/SLOM.java:125-144 | the vote loop plus the self vote compute the signed vote count |
| Slom.BetaOf | src/de/lmu/ifi/dbs/elki/algorithm/outlier/spatial/SLOM.java:145-153 | the absolute value, floor and division applied to the vote count give Beta; the statement form of Beta, with no property of its own; Beta's properties are in Slom.Beta (beta > 0), Slom.ScoreByCase and Slom.UniformNeighbourhood |
| Slom.ScoreOf | src/de/lmu/ifi/dbs/elki/algorithm/outlier/spatial/SLOM.java:108-161 | pass 2 for one object computes its score |
| Slom.ScoreSeq | src/de/lmu/ifi/dbs/elki/algorithm/outlier/spatial/SLOM.java:162-163 | the values put into the tracker, in iteration order; definition, no contract of its own; properties in Slom.ScoreSeqFacts |
| Slom.ScoreMap | src/de/lmu/ifi/dbs/elki/algorithm/outlier/spatial/SLOM.java:162 | the score store built by pass 2; definition, no contract of its own; properties in Slom.ScoreMapFacts |
| Slom.ScoreSeqFacts | src/de/lmu/ifi/dbs/elki/algorithm/outlier/spatial/SLOM.java:107-163 | the values put into the tracker are the objects' scores, in iteration order |
| Slom.ScoreMapFacts | src/de/lmu/ifi/dbs/elki/algorithm/outlier/spatial/SLOM.java:105-162 | the score store holds exactly the objects of the relation, each with its score |
| Slom.SeqExtremes | src/de/lmu/ifi/dbs/elki/algorithm/outlier/spatial/SLOM.java:162-167 | the least and greatest tracked values are scores of some object and bound every object's score |
| Slom.Scores | src/de/lmu/ifi/dbs/elki/algorithm/outlier/spatial/SLOM.java:103-164 | pass 2 stores every object's score, and the tracker holds +inf/-inf for an empty relation and otherwise the attained least and greatest score |
| Slom.Run | src/de/lmu/ifi/dbs/elki/algorithm/outlier/spatial/SLOM.java:72-168 | both passes: D~ for every object, non-negative, then every score non-negative with the reported minimum and maximum attained and bounding all scores |
| HopkinsBinary.SetDimensions | elki/src/main/java/de/lmu/ifi/dbs/elki/algorithm/statistics/HopkinsStatisticClusteringTendencyBinaryData.java:40-43 | at most dim set dimensions, each in [0, dim) |
| HopkinsBinary.Probe | elki/src/main/java/de/lmu/ifi/dbs/elki/algorithm/statistics/HopkinsStatisticClusteringTendencyBinaryData.java:45-52 | the sparse vector built from one row of flips; definition, no contract of its own; properties in HopkinsBinary.ProbeMatchesFlips |
| HopkinsBinary.SetDimensionsSpec | elki/src/main/java/de/lmu/ifi/dbs/elki/algorithm/statistics/HopkinsStatisticClusteringTendencyBinaryData.java:40-43 | a dimension is listed if and only if its flip was true, and the list is strictly ascending |
| HopkinsBinary.ProbeMatchesFlips | elki/src/main/java/de/lmu/ifi/dbs/elki/algorithm/statistics/HopkinsStatisticClusteringTendencyBinaryData.java:40-52 | the probe's indices are exactly the true dimensions, ascending; values are parallel and all 1; the dimensionality is dim |
| HopkinsBinary.CollectSetDimensions | elki/src/main/java/de/lmu/ifi/dbs/elki/algorithm/statistics/HopkinsStatisticClusteringTendencyBinaryData.java:40-43 | the list loop computes the set dimensions of the flips |
| HopkinsBinary.BuildProbe | elki/src/main/java/de/lmu/ifi/dbs/elki/algorithm/statistics/HopkinsStatisticClusteringTendencyBinaryData.java:40-52 | the array-filling loop, after the list loop, builds the probe of the given flips |
| HopkinsBinary.ComputeNNForUniformData | elki/src/main/java/de/lmu/ifi/dbs/elki/algorithm/statistics/HopkinsStatisticClusteringTendencyBinaryData.java:33-57 | u is the sum of powi(kdist, dim) over the probes (0 when sampleSize <= 0); exactly sampleSize queries, the i-th for probe i with the same k; dim is min.length and extend is unused |
| HopkinsBinary.Powi | elki/src/main/java/de/lmu/ifi/dbs/elki/algorithm/statistics/HopkinsStatisticClusteringTendencyBinaryData.java:54 | MathUtil.powi as repeated multiplication; definition, no contract of its own; properties in HopkinsBinary.PowiNonNeg and HopkinsBinary.PowiZero |
| HopkinsBinary.ProbeSum | elki/src/main/java/de/lmu/ifi/dbs/elki/algorithm/statistics/HopkinsStatisticClusteringTendencyBinaryData.java:37-56 | u over a sequence of probes; definition, no contract of its own; properties in HopkinsBinary.ProbeSumNonNeg, HopkinsBinary.ProbeSumAppend and HopkinsBinary.ZeroKDistanceContributesNothing |
| HopkinsBinary.PowiNonNeg | elki/src/main/java/de/lmu/ifi/dbs/elki/algorithm/statistics/HopkinsStatisticClusteringTendencyBinaryData.java:54 | a non-negative distance raised to dim is non-negative |
| HopkinsBinary.PowiZero | elki/src/main/java/de/lmu/ifi/dbs/elki/algorithm/statistics/HopkinsStatisticClusteringTendencyBinaryData.java:54 | a zero distance raised to dim >= 1 is 0 |
| HopkinsBinary.ProbeSumNonNeg | elki/src/main/java/de/lmu/ifi/dbs/elki/algorithm/statistics/HopkinsStatisticClusteringTendencyBinaryData.java:37-56 | with non-negative k-distances, u >= 0 |
| HopkinsBinary.ProbeSumAppend | elki/src/main/java/de/lmu/ifi/dbs/elki/algorithm/statistics/HopkinsStatisticClusteringTendencyBinaryData.java:54 | u over two batches of probes is the sum of the two batches' u |
| HopkinsBinary.ZeroKDistanceContributesNothing | elki/src/main/java/de/lmu/ifi/dbs/elki/algorithm/statistics/HopkinsStatisticClusteringTendencyBinaryData.java:53-54 | with dim >= 1, a probe at k-distance 0 leaves u as it would be without that probe |
| HopkinsBinary.ZeroDimensionCountsProbes | elki/src/main/java/de/lmu/ifi/dbs/elki/algorithm/statistics/HopkinsStatisticClusteringTendencyBinaryData.java:35-54 | with dim = 0, nothing is rejected and u is the number of probes |

## Left out

- `DatabaseQueryUtil`: its methods only forward to the database's kNN query, so the kNN query is an abstract function parameter instead.
- Neighbour predicate, distance function and kNN search: abstract function parameters. Their internals (index structures, Jaccard distance and so on) are not modelled.
- `Random` and `RandomFactory`: replaced by the coin flips they would produce, given as input. The model does not capture that about dim / 2 dimensions are set on average; that is a statistical property, not a property of one run.
- `MathUtil.powi` internals: modelled as exact repeated multiplication. The squaring scheme and its rounding are not modelled.
- The Hopkins parent class (sampling of real data points, the final ratio, repetitions, the Parametizer): it is not shown and not modelled.
- Result materialization (`MaterializedRelation`, `BasicOutlierScoreMeta`, `OutlierResult`), data store hints, logging: only the score store and the min/max they receive are modelled.
- IEEE 754 doubles: arithmetic is over exact `real`, so rounding, NaN and infinities from division are not modelled. The model's preconditions rule out the divisions that would produce them.
- Slom.Run: requires non-negative distances and neighbourhoods inside the relation. Java would otherwise throw on a missing D~ value, or divide by a zero `1 + avg`. Those failures are not modelled.
- Slom.Scores: requires a non-negative D~ store covering every neighbour, for the same reason.
- Slom.SelfVotedOnce and every other lemma requiring NoDup (Slom.OthersLength, Slom.SignSumSplit, Slom.NoDupSetSize, Slom.SignSumCounts, Slom.VotesCountNPlus, Slom.ScoreByCase): they assume a neighbour list without repetitions, as a DBIDs set is. The methods themselves accept any list.
- HopkinsBinary.ComputeNNForUniformData: sampleSize and indices are unbounded integers. Java `int` overflow is not modelled; it cannot occur for array sizes Java can allocate.
- Java `short` is modelled as a bounded newtype, `Short`. Only the value 1 is ever stored.
