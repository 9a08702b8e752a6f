# convst: the Random Dilated Shapelet Transform, modelled in Dafny

This project models the computational core of `convst`, the Random Dilated
Shapelet Transform (RDST) for time series classification, and proves
properties of the model. It covers three transformers and the kernels they share:

* **Initialisation** draws, for each shapelet:
  * a length from the candidate sizes;
  * a dilation bounded by `floor((n - 1) / (l - 1))`, taken from the primes (1 included) under the prime scheme;
  * a normalisation flag;
  * in the multivariate variants, a channel count.

  It also allocates zeroed buffers of exactly the sizes generation needs.
* **Generation** works per unique dilation, in ascending order, and per shapelet of that dilation, in index order. For each shapelet it:
  1. draws an anchor among the cells still open in a self-similarity mask;
  2. clears the mask around the anchor;
  3. cuts the candidate (z-normalised or not, optionally phase-shifted);
  4. picks a comparison sample of the same class;
  5. draws a threshold between two percentiles of the candidate's distance profile on that sample.

  Shapelets that find no anchor are dropped.
* **Application** groups the shapelets by (length, dilation) pair. For every sample and group it:
  * builds the stride matrix (tensor) of windows;
  * applies the plain shapelets on the raw windows;
  * normalises the windows in place and applies the z-normalised shapelets;
  * writes each shapelet's three features (minimum distance, first argmin, number of matches) into columns `3i .. 3i+2`.

The modules follow the source:

| module | models |
|---|---|
| `ArrayOps` (`array_ops.dfy`) | the NumPy idioms the transformers rely on: `where`, `unique`, `cumsum`, `arange`, boolean-mask filtering, flattening |
| `Commons` (`commons.dfy`) | `_commons.py`: the distances, stride generation, `get_subsequence`, the distance-vector kernels, the one-shapelet/one-sample feature extraction, `_combinations_1d`, `is_prime`, `prime_up_to` |
| `Sampling` (`sampling.dfy`) | the three initialisers and the draws shared by the generators: the clearing radius, the cleared cells, the anchor draw, the comparison sample |
| `Grouping` (`grouping.dfy`) | the bucketing of shapelets by (length, dilation) pair done at the start of every apply function, and the write of one feature block |
| `UnivariateSameLength` | `_univariate_same_length.py` (U_SL) |
| `ChannelGeneration`, `MultivariateSameLength` | `_multivariate_same_length.py` (M_SL) generation |
| `ChannelSampling` | the anchor draws of M_SL and M_VL: which cells are eligible for a shapelet's channels, and how a cell is drawn among them |
| `ChannelTracking` | the ghost account of the multivariate masks: which cells each shapelet saw, and the proof that the mask holds exactly the cells no cut has cleared |
| `ChannelDrafting` | the generation loops shared by M_SL and M_VL |
| `ChannelApply` | the apply loop shared by M_SL and M_VL |
| `MultivariateVariableLength` | `_multivariate_variable_length.py` (M_VL) |
| `Packing` | the order in which the multivariate generators lay out values and channel ids |

Modelling conventions:

* **Random draws.** Every random draw is a total function of an oracle `Rng` and a tag naming the draw: the sample of a cell, the channels of shapelet `i`, the normalisation flag of shapelet `i`, and so on. The draw's only promise is that its result lies in the set it is drawn from. No claim is made about distributions.
* **Seams.**
  * The distance is a parameter `dist` (its two stock instances, squared Euclidean and Manhattan, are modelled as loops).
  * Window z-normalisation (`(x - mean) / (std + 1e-8)`) is a parameter `zn` that preserves length.
  * The percentile is a parameter of the threshold draw.
* **Sequential.** The `prange` loops are modelled as sequential loops.
* **State.** Buffers the source updates in place (the masks, `values`, `threshold`, `channel_ids`, `mask_return`, the stride matrices, the output `X_new`) are Dafny arrays updated by methods with loop invariants.
* **Specifications.** Each method is proved against a specification function:
  * `DistProfile` and `MultiProfile` for the distance profiles;
  * `ExtractFeatures` for the three features;
  * `FirstOccurrences` for the pairs;
  * `Buckets` for `idx_shp`;
  * `Drafted` / `Generating` for the state of the generation loops;
  * `SeenRows` (U_SL) and `SeenSlice` (M_SL, M_VL) for the mask slice each shapelet sees: a cell is open exactly when no earlier shapelet of the same dilation and flag has cleared it. A ghost invariant (`MaskTracks`) ties the mask array to the cuts made so far, and every shapelet's anchor is proved to be the draw from the slice it saw.

Where the design description of the transform and the code differ, the model
follows the code:

* A match is a distance **at or below** the threshold (`<=`), not strictly below it.
* The univariate generator does not track drops explicitly. It keeps the shapelets whose value row is not all zero. An unanchored shapelet keeps a zero row and is dropped, and so is an anchored one whose cut window is all zero.
* With alpha = 0 the design says the mask never blocks sampling. That holds for the multivariate generators, whose eligibility test `sum >= n_channels*alpha` is then always met (`ChannelTracking.KeptWhenAlphaNonPositive`). It does not hold for the univariate generator: a cell is eligible only while it is open, and a shapelet longer than its group's min_l still clears `l - min_l` steps each side. With one sample, n = 10 and lengths {2, 9} at dilation 1, a length-9 cut closes every cell (`Sampling.ZeroAlphaClosesEveryCell`), so a later shapelet of that slice finds none and is dropped (`UnivariateSameLength.UnanchoredExactlyWhenSliceCleared`).
* `is_prime(1)` is true, so 1 is a possible dilation under the prime scheme.
* The "no match yet" minimum is `1e100` in the univariate kernel and `1e10` in the multivariate one.
* Variable-length multivariate series are part of the core (M_VL):
  * the mask is as wide as the longest sample;
  * cells past each sample's length are cleared first, and the slice a shapelet sees is cut at each sample's length;
  * the clearing wraps modulo the anchor sample's own length;
  * cutting, distances and application use each sample's own prefix.
* The multivariate generators write `values` and `channel_ids` in processing order: ascending dilation, then index. Every other returned array is compacted by `mask_return` in original order. See "## Findings".

## Model

| member | source | states |
|---|---|---|
| `ArrayOps.Range` | convst/transformers/_multivariate_same_length.py:185 | `arange(lo, hi)` holds hi - lo entries, entry k being lo + k |
| `ArrayOps.Where` | convst/transformers/_multivariate_same_length.py:167 | `where(mask)[0]` lists, strictly ascending, exactly the positions where the mask is true |
| `ArrayOps.UniqueAscending` | convst/transformers/_multivariate_same_length.py:154 | `unique` is strictly ascending and has exactly the members of its input |
| `ArrayOps.CumSum` | convst/transformers/_univariate_same_length.py:285 | each running total is the previous one plus the current entry, starting from the first entry |
| `ArrayOps.ZeroThenCumSum` | convst/transformers/_multivariate_same_length.py:319-321 | `concatenate(([0], cumsum(xs)))` are the block offsets: 0 first, each next one adding a block, the last being the total |
| `ArrayOps.PrefixSums` | convst/transformers/_multivariate_same_length.py:319-321 | the offsets start at 0, grow by each block size and end at the sum |
| `ArrayOps.MaxOf` | convst/transformers/_multivariate_variable_length.py:148 | `max` is a member that bounds every entry from above |
| `ArrayOps.MinOf` | convst/transformers/_multivariate_same_length.py:168 | `min` is a member that bounds every entry from below |
| `Commons.SquaredEuclidean` | convst/transformers/_commons.py:24-28 | the loop computes the sum of squared differences over the points of x |
| `Commons.Manhattan` | convst/transformers/_commons.py:33-37 | the loop computes the sum of absolute differences over the points of x |
| `Commons.SquaredEuclideanIsMetricLike` | convst/transformers/_commons.py:24-28 | the squared distance is non-negative and zero on an equal prefix |
| `Commons.ManhattanIsMetricLike` | convst/transformers/_commons.py:33-37 | the Manhattan distance is non-negative and zero exactly on an equal prefix |
| `Commons.GenerateStrides1DPlain` | convst/transformers/_commons.py:68-95 | row i of the new matrix is the dilated window starting at i, for every window that fits |
| `Commons.GenerateStrides1DPhase` | convst/transformers/_commons.py:132-155 | row i is the dilated window starting at i wrapped modulo the series length, for every start point |
| `Commons.GenerateStrides1D` | convst/transformers/_commons.py:48-52 | row i is window i, phase-shifted or not as `use_phase` says |
| `Commons.GenerateStrides2DPlain` | convst/transformers/_commons.py:99-127 | entry (f, i) is the dilated window at i of series f, for every series |
| `Commons.GenerateStrides2DPhase` | convst/transformers/_commons.py:160-185 | entry (f, i) is the wrapped window at i of series f |
| `Commons.GenerateStrides2D` | convst/transformers/_commons.py:58-62 | entry (f, i) is window i of series f, phase-shifted or not |
| `Commons.GetSubsequencePlain` | convst/transformers/_commons.py:202-235 | the candidate is the dilated window at the start point, z-normalised when asked |
| `Commons.GetSubsequencePhase` | convst/transformers/_commons.py:238-272 | the candidate is the wrapped dilated window at the start point, z-normalised when asked |
| `Commons.GetSubsequence` | convst/transformers/_commons.py:190-198 | the candidate is window `index` of the series, as the normalise and phase flags say |
| `Commons.ComputeShapeletDistVectorPlain` | convst/transformers/_commons.py:305-335 | entry i is the distance of the shapelet to window i, for every window that fits |
| `Commons.ComputeShapeletDistVectorNorm` | convst/transformers/_commons.py:338-369 | entry i is the distance to the z-normalised window i |
| `Commons.ComputeShapeletDistVectorPhase` | convst/transformers/_commons.py:372-402 | entry i is the distance to the wrapped window i, one per start point |
| `Commons.ComputeShapeletDistVectorNormPhase` | convst/transformers/_commons.py:405-437 | entry i is the distance to the z-normalised wrapped window i |
| `Commons.ComputeShapeletDistVector` | convst/transformers/_commons.py:282-302 | the four kernels together compute the distance profile of the shapelet over the series |
| `Commons.RunningMinIsMinimum` | convst/transformers/_commons.py:471-486 | the min feature bounds every distance from below, is at most the sentinel, and is a distance unless it is the sentinel |
| `Commons.FirstArgMinIsFirstMinimum` | convst/transformers/_commons.py:471-486 | the argmin feature is the first position attaining the minimum, and 0 when no distance falls below the sentinel |
| `Commons.CountAtMostIsCardinality` | convst/transformers/_commons.py:484-485 | the match feature is the number of positions whose distance is at or below the threshold |
| `Commons.ApplyOneShapeletOneSampleUnivariate` | convst/transformers/_commons.py:440-486 | the loop returns the (min, argmin, matches) features of the row distances, with sentinel 1e100 |
| `Commons.ApplyOneShapeletOneSampleMultivariate` | convst/transformers/_commons.py:489-538 | the loop returns the features of the channel-summed distances per window, with sentinel 1e10 |
| `Commons.FirstOccurrences` | convst/transformers/_commons.py:541-575 | the pairs are distinct and are exactly the pairs that occur |
| `Commons.FirstOccurrencesInOrder` | convst/transformers/_commons.py:541-575 | each pair is listed before any pair whose first occurrence is later |
| `Commons.Combinations1D` | convst/transformers/_commons.py:541-575 | the loop returns the distinct (length, dilation) pairs in order of first occurrence |
| `Commons.Isqrt` | convst/transformers/_commons.py:589 | the trial bound s satisfies s*s <= n < (s+1)*(s+1) |
| `Commons.DivisorBelowRoot` | convst/transformers/_commons.py:589-591 | an odd divisor found below the square root makes n composite |
| `Commons.TrialDivisionComplete` | convst/transformers/_commons.py:589-592 | an odd n with no odd divisor up to its square root is 1 or prime |
| `Commons.IsPrime` | convst/transformers/_commons.py:585-592 | the answer is true exactly when n is 1 or a prime |
| `Commons.PrimeUpTo` | convst/transformers/_commons.py:578-582 | the list is strictly ascending and holds exactly the k <= n that are 1 or prime |
| `Commons.ChooseDistinct` | convst/transformers/_multivariate_same_length.py:184-186 | a draw without replacement yields k distinct members of the pool |
| `Commons.Uniform` | convst/transformers/_univariate_same_length.py:203-205 | `uniform(lo, hi)` lies between its bounds, in either order |
| `Sampling.DilationBound` | convst/transformers/_univariate_same_length.py:56 | the bound is the largest d >= 1 with (l - 1) * d <= n - 1 |
| `Sampling.DilationFits` | convst/transformers/_univariate_same_length.py:56 | a dilation within the bound leaves at least one full window |
| `Sampling.PrimeDilation` | convst/transformers/_univariate_same_length.py:57-61 | a prime-scheme dilation is 1 or a prime, at most the shapelet's bound |
| `Sampling.PlainDilation` | convst/transformers/_univariate_same_length.py:62-66 | a plain dilation lies in 1..bound |
| `Sampling.DrawDilations` | convst/transformers/_univariate_same_length.py:56-66 | every shapelet's dilation lies in 1..its bound, and is 1 or prime under the prime scheme |
| `Sampling.DrawShapeletParams` | convst/transformers/_univariate_same_length.py:53-75 | every shapelet gets a candidate size, a dilation that fits, and the flag `random() < p_norm` |
| `Sampling.InitRandomShapeletParams` | convst/transformers/_univariate_same_length.py:20-77 | the U_SL parameters, with a zeroed value matrix max(sizes) wide and a zeroed threshold per shapelet |
| `Sampling.InitMultivariateParams` | convst/transformers/_multivariate_same_length.py:21-91 | the multivariate parameters, 1 <= n_channels <= max_channels, zeroed buffers sized by `dot(n_channels, lengths)` and `sum(n_channels)` |
| `Sampling.BlockSizesCompact` | convst/transformers/_multivariate_same_length.py:259-263 | filtering the block sizes by `mask_return` gives the block sizes of the filtered parameters |
| `Sampling.AlphaSizeRange` | convst/transformers/_univariate_same_length.py:169 | for alpha in [0, 1] the clearing radius lies in 0..l-1 |
| `Sampling.Cleared` | convst/transformers/_univariate_same_length.py:170-180 | the cleared positions wrap into [0, n); they include the anchor when the clearing radius `alpha_size` is positive, and are empty when it is 0 (`range(alpha_size)` clears nothing) |
| `Sampling.ClearedExactly` | convst/transformers/_univariate_same_length.py:170-180 | a position is cleared exactly when it is `(index - j*d) % n` or `(index + j*d) % n` for some j in `range(alpha_size)` |
| `Sampling.ZeroAlphaClosesEveryCell` | convst/transformers/_univariate_same_length.py:169-180 | with alpha = 0, min_l = 2, a length-9 shapelet at dilation 1 on length-10 series has radius 7 and clears every position of its row, wherever it is anchored |
| `Sampling.TrueCells` | convst/transformers/_univariate_same_length.py:161 | `where(mask[:, :d_shape])` lists exactly the open cells left of d_shape |
| `Sampling.IndicesOf` | convst/transformers/_univariate_same_length.py:167 | `i_mask[1][i_mask[0] == s]` holds exactly the open positions of sample s |
| `Sampling.PickCell` | convst/transformers/_univariate_same_length.py:163-167 | the drawn anchor is an open cell |
| `Sampling.ComparisonSample` | convst/transformers/_univariate_same_length.py:188-193 | the comparison sample has the anchor's class, and equals the anchor exactly when no other sample has that class |
| `Grouping.Members` | convst/transformers/_univariate_same_length.py:278 | the shapelets of a pair, strictly ascending, are exactly those with that length and dilation |
| `Grouping.BucketsPrefix` | convst/transformers/_univariate_same_length.py:268-285 | the first g buckets hold, once each, exactly the shapelets whose pair is among the first g pairs |
| `Grouping.BucketsPartition` | convst/transformers/_univariate_same_length.py:268-285 | `idx_shp` is a permutation of 0..n-1 |
| `Grouping.BucketSlice` | convst/transformers/_univariate_same_length.py:298 | bucket g of `idx_shp`, read between `n_shp_params[g]` and `n_shp_params[g+1]`, is the shapelets of pair g |
| `Grouping.GroupShapelets` | convst/transformers/_univariate_same_length.py:266-285 | the pairs are the first occurrences, and `idx_shp` and `n_shp_params` put every pair's shapelets between its offsets |
| `Grouping.FillBuckets` | convst/transformers/_univariate_same_length.py:274-284 | the loop writes the buckets one after the other and each bucket's size after a leading 0 |
| `Grouping.PairsCovered` | convst/transformers/_univariate_same_length.py:266 | every shapelet's pair is one of the groups |
| `Grouping.PairOfSomeShapelet` | convst/transformers/_univariate_same_length.py:266 | every group's pair is some shapelet's pair |
| `Grouping.StoreFeatures` | convst/transformers/_univariate_same_length.py:305-308 | writing `X_new[s, 3i:3i+3]` sets shapelet i's features in row s and changes nothing else |
| `UnivariateSameLength.ClearAround` | convst/transformers/_univariate_same_length.py:169-180 | exactly the `Cleared` positions of the anchor's row in the (flag, dilation) slice become false |
| `UnivariateSameLength.WriteRow` | convst/transformers/_univariate_same_length.py:206 | `values[i, :l] = v` writes the row prefix and nothing else |
| `UnivariateSameLength.KeepMask` | convst/transformers/_univariate_same_length.py:208-211 | a shapelet is kept exactly when its value row is not all zero |
| `UnivariateSameLength.CutShapelet` | convst/transformers/_univariate_same_length.py:169-206 | once the anchor is drawn: the mask cleared around it, its window written as the row, the threshold drawn between the percentiles of its profile on the comparison sample |
| `UnivariateSameLength.SampleAndRecord` | convst/transformers/_univariate_same_length.py:150-206 | a shapelet is unanchored exactly when its slice has no open cell left of d_shape, and then nothing changes; otherwise it is anchored at the drawn open cell, exactly the `Cleared` positions of that row become false, and it is recorded |
| `UnivariateSameLength.CutAndRecord` | convst/transformers/_univariate_same_length.py:163-206 | cutting at the drawn cell sets exactly the `Cleared` positions of the anchor's row in its slice to false, drafts that shapelet at its anchor and leaves every other one drafted |
| `UnivariateSameLength.DraftShapelets` | convst/transformers/_univariate_same_length.py:140-206 | after the loops every shapelet's row and threshold are as its anchor, or its lack of one, dictates, and every anchor is the draw from the cells that shapelet found open left of d_shape: none exactly when it found none |
| `UnivariateSameLength.GenerateShapelet` | convst/transformers/_univariate_same_length.py:80-219 | `U_SL_generate_shapelet` returns the valid drafted parameters filtered by the not-all-zero mask, in original order; every anchor is the draw from the cells its shapelet found open |
| `UnivariateSameLength.UnanchoredShapeletsAreDropped` | convst/transformers/_univariate_same_length.py:208-211 | by definition of the drafted row, an unanchored shapelet keeps an all-zero row and `mask_values` drops it; when a shapelet is unanchored is stated by `UnanchoredExactlyWhenSliceCleared` |
| `UnivariateSameLength.AnchorOutsideEarlierCuts` | convst/transformers/_univariate_same_length.py:161-180 | an anchored shapelet's cell lies within the data and was not cleared by any earlier shapelet of its dilation and flag |
| `UnivariateSameLength.UnanchoredExactlyWhenSliceCleared` | convst/transformers/_univariate_same_length.py:161-163 | a shapelet has no anchor exactly when every cell of its slice left of d_shape was cleared by an earlier shapelet of its dilation and flag |
| `UnivariateSameLength.MaskIsSeen` | convst/transformers/_univariate_same_length.py:158-161 | when the mask tracks the cuts and every anchored shapelet of i's dilation comes before i, `mask_sampling[norm, i_d]` is exactly the slice shapelet i sees |
| `UnivariateSameLength.DrawnStep` | convst/transformers/_univariate_same_length.py:150-206 | recording the next shapelet's draw from the cells it sees keeps every processed shapelet's anchor the draw from the cells it saw |
| `UnivariateSameLength.SampleAndTrack` | convst/transformers/_univariate_same_length.py:150-206 | one pass: the anchor is the draw from the mask slice as it stood, the state records it, and the mask goes on holding exactly the cells no cut has cleared |
| `UnivariateSameLength.DraftNext` | convst/transformers/_univariate_same_length.py:150-206 | the next shapelet in processing order is drawn and recorded, the loop invariants kept |
| `UnivariateSameLength.DraftGroup` | convst/transformers/_univariate_same_length.py:156-206 | every shapelet of the dilation is drawn from the slice it sees, in index order |
| `UnivariateSameLength.NormalizeRows` | convst/transformers/_univariate_same_length.py:311-314 | every stride is replaced by its z-normalisation |
| `UnivariateSameLength.RowDistancesAreProfile` | convst/transformers/_univariate_same_length.py:300-308 | once the rows are the windows, their distances are the distance profile |
| `UnivariateSameLength.ApplyShapelets` | convst/transformers/_univariate_same_length.py:300-308 | the given shapelets receive their features in row s and no other block changes |
| `UnivariateSameLength.ApplyGroup` | convst/transformers/_univariate_same_length.py:291-323 | plain then normalised shapelets of a group receive their features in row s; nothing else changes |
| `UnivariateSameLength.ApplyBucket` | convst/transformers/_univariate_same_length.py:289-323 | exactly the shapelets of pair g receive their features in row s |
| `UnivariateSameLength.ApplySample` | convst/transformers/_univariate_same_length.py:288-323 | row s receives every shapelet's features and the other rows are untouched |
| `UnivariateSameLength.ApplyAllShapelets` | convst/transformers/_univariate_same_length.py:223-325 | `U_SL_apply_all_shapelets`: columns 3i..3i+2 of row s hold shapelet i's features on sample s |
| `ChannelGeneration.AllChannels` | convst/transformers/_multivariate_same_length.py:185 | `arange(n_features)` lists every channel once |
| `ChannelGeneration.DrawChannels` | convst/transformers/_multivariate_same_length.py:184-186 | the shapelet's channels are n_channels distinct channels of the input |
| `ChannelGeneration.KeptMask` | convst/transformers/_multivariate_same_length.py:254-255 | `mask_return[i]` is true exactly when shapelet i was kept |
| `ChannelGeneration.Started` | convst/transformers/_multivariate_same_length.py:155-162 | before the loops nothing is kept, nothing written, every `mask_return` entry true |
| `ChannelGeneration.Finished` | convst/transformers/_multivariate_same_length.py:257-265 | after the loops, `mask_return` is the kept mask, `values[:a1]` and `channel_ids[:a2]` are the kept blocks in processing order, and a1, a2 are their total sizes |
| `ChannelGeneration.KeptBlocksSelect` | convst/transformers/_multivariate_same_length.py:244-245 | the packed blocks are the selection, in processing order, of every shapelet's blocks |
| `ChannelGeneration.RoomFor` | convst/transformers/_multivariate_same_length.py:240-245 | a pending shapelet's blocks fit after what is already packed |
| `ChannelGeneration.KeepStep` | convst/transformers/_multivariate_same_length.py:240-253 | recording a kept shapelet appends its blocks at a1 and a2 and keeps the loop invariant |
| `ChannelGeneration.DropStep` | convst/transformers/_multivariate_same_length.py:254-255 | recording a dropped shapelet clears its `mask_return` entry and keeps the loop invariant |
| `ChannelGeneration.ClearChannel` | convst/transformers/_multivariate_same_length.py:212-222 | exactly the cleared positions of one channel of the anchor sample become false |
| `ChannelGeneration.ClearChannels` | convst/transformers/_multivariate_same_length.py:211-222 | exactly the cleared positions of the chosen channels of the anchor sample become false |
| `ChannelGeneration.WriteSlice` | convst/transformers/_multivariate_same_length.py:244-245 | `buf[a:a+k] = block` writes the block and nothing else |
| `ChannelGeneration.ExtractChannels` | convst/transformers/_multivariate_same_length.py:224-238 | the values are the anchor's windows in each channel, and `x_dist` is their channel-summed profile on the comparison sample |
| `ChannelGeneration.CutChannelShapelet` | convst/transformers/_multivariate_same_length.py:199-253 | once anchored: comparison sample, mask cleared on the chosen channels, blocks written at a1 and a2, threshold drawn |
| `ChannelGeneration.WriteCut` | convst/transformers/_multivariate_same_length.py:224-253 | the cut's rows land at a1, its channel ids at a2 and its threshold at i; nothing else in those arrays changes |
| `ChannelGeneration.RecordDrop` | convst/transformers/_multivariate_same_length.py:254-255 | the dropped shapelet is recorded and the invariant kept |
| `ChannelGeneration.RecordCut` | convst/transformers/_multivariate_same_length.py:199-253 | the cut shapelet is recorded as kept with its blocks appended, and exactly the `Cleared` positions of its channels in its anchor sample become false in its slice |
| `ChannelGeneration.NextInOrder` | convst/transformers/_multivariate_same_length.py:165-169 | the next shapelet reached is pending and comes after every retained one |
| `Sampling.DilationMask` | convst/transformers/_multivariate_same_length.py:167 | `dilations == dil` is true exactly at the shapelets of that dilation |
| `ChannelGeneration.ShapeletsOfDilation` | convst/transformers/_multivariate_same_length.py:167-168 | `id_shps` are the shapelets of the dilation, ascending, and `min_l` is their shortest length |
| `ChannelGeneration.PendingStep` | convst/transformers/_multivariate_same_length.py:169 | processing `id_shps[k]` removes exactly it from the pending ones |
| `ChannelGeneration.GroupDone` | convst/transformers/_multivariate_same_length.py:165-169 | after a dilation's shapelets, the pending ones are those of later dilations |
| `ChannelGeneration.EverythingProcessed` | convst/transformers/_multivariate_same_length.py:165 | after the loops over every unique dilation no shapelet is pending |
| `ChannelSampling.EligibleByAlpha` | convst/transformers/_multivariate_same_length.py:188-190 | with alpha <= 0 every position is eligible; with alpha <= 1 one whose chosen channels are all open is; with alpha > 1 none is, for a shapelet with channels |
| `ChannelSampling.EligibleRows` | convst/transformers/_multivariate_same_length.py:188-190 | one row per sample, as long as the sample, a cell true exactly when at least `n_channels * alpha` of the chosen channels are open there |
| `ChannelSampling.SameLengthDraw` | convst/transformers/_multivariate_same_length.py:188-197 | the M_SL draw finds nothing exactly when no cell left of d_shape is eligible; otherwise it is an eligible cell left of d_shape |
| `ChannelSampling.Bounds` | convst/transformers/_multivariate_variable_length.py:194-203 | each sample's anchor bound is its number of windows, between 1 and its length |
| `ChannelSampling.EligibleRow` | convst/transformers/_multivariate_variable_length.py:220-231 | `t_mask` marks exactly the positions whose open channels reach `n_channels * alpha` |
| `ChannelSampling.SampleMask` | convst/transformers/_multivariate_variable_length.py:191-203 | a sample is marked exactly when it has an eligible position below its bound |
| `ChannelSampling.DrawAnchor` | convst/transformers/_multivariate_variable_length.py:205-232 | there is no anchor exactly when no sample has an eligible position below its bound; otherwise the anchor is such a position |
| `ChannelSampling.DrawExactly` | convst/transformers/_multivariate_same_length.py:188-197 | under either layout the draw finds nothing exactly when no sample has an eligible position among its windows; otherwise it is such a position |
| `ChannelSampling.DrawWhenAlphaNonPositive` | convst/transformers/_multivariate_same_length.py:188-192 | with alpha <= 0 and at least one sample, the draw always finds an anchor, under either layout |
| `ChannelSampling.EligibleSamples` | convst/transformers/_multivariate_variable_length.py:191-203 | the `i_mask` loop marks a sample exactly when it has an eligible position below its bound |
| `ChannelSampling.FindAnchor` | convst/transformers/_multivariate_variable_length.py:191-232 | the `i_mask` loop and the two draws return exactly `DrawAnchor`'s result |
| `ChannelSampling.SampleAnchor` | convst/transformers/_multivariate_same_length.py:177-197 | the sampling part of one pass returns shapelet i's draw from slice (flag, group) of the mask as it stands, at a window start of its sample, and always an anchor when alpha <= 0 and there is a sample |
| `ChannelTracking.TracksAtStart` | convst/transformers/_multivariate_same_length.py:155-157 | before the loops, a mask open exactly within each sample's length holds exactly the cells no cut has cleared |
| `ChannelTracking.UntouchedKeep` | convst/transformers/_multivariate_same_length.py:210-222 | cutting shapelet i closes, among the untouched cells, exactly the `Cleared` positions of its channels in its anchor sample in the slice of its flag and group |
| `ChannelTracking.MaskIsSeen` | convst/transformers/_multivariate_same_length.py:178 | when the mask tracks the cuts and every processed shapelet of i's dilation comes before i, `mask_sampling[norm, i_d]` is exactly the slice shapelet i sees |
| `ChannelTracking.SeenSliceUnchanged` | convst/transformers/_multivariate_same_length.py:165-169 | giving a status to a shapelet of another dilation, or to one not before i, changes nothing shapelet i sees |
| `ChannelTracking.DrawnStep` | convst/transformers/_multivariate_same_length.py:167-255 | recording the next shapelet's draw from the slice it sees keeps every processed shapelet's status the draw from the slice it saw |
| `ChannelTracking.StatusExactly` | convst/transformers/_multivariate_same_length.py:188-197 | a processed shapelet is dropped exactly when no sample had an eligible position among its windows in the slice it saw; a kept one is anchored at such a position |
| `ChannelTracking.KeptWhenAlphaNonPositive` | convst/transformers/_multivariate_same_length.py:188-192 | with alpha <= 0 and at least one sample, every processed shapelet is kept |
| `ChannelTracking.TracksDrop` | convst/transformers/_multivariate_same_length.py:254-255 | dropping a pending shapelet leaves the mask tracking the cuts |
| `ChannelTracking.TracksKeep` | convst/transformers/_multivariate_same_length.py:210-222 | a mask tracking the earlier cuts, with the cells shapelet i clears closed, tracks the cuts once i is kept |
| `ChannelTracking.CutTracked` | convst/transformers/_multivariate_same_length.py:199-253 | `RecordCut`, with the mask going on holding exactly the cells no cut has cleared |
| `ChannelTracking.RecordDraw` | convst/transformers/_multivariate_same_length.py:192-255 | a draw of none drops shapelet i and a found cell cuts it there; only i's status changes, it agrees with the draw, and the mask goes on tracking the cuts |
| `ChannelDrafting.SampleAndRecord` | convst/transformers/_multivariate_same_length.py:170-255 | one pass for shapelet i: its status is the draw from the mask slice as it stood, only its status changes, the mask goes on tracking the cuts, and with alpha <= 0 and a sample it is kept |
| `ChannelDrafting.DraftNext` | convst/transformers/_multivariate_same_length.py:169-255 | the next shapelet in processing order is drawn from the slice it sees and recorded, the invariants kept |
| `ChannelDrafting.DraftGroup` | convst/transformers/_multivariate_same_length.py:167-255 | every shapelet of the dilation is drawn from the slice it sees, in index order |
| `ChannelDrafting.DraftGroups` | convst/transformers/_multivariate_same_length.py:165-255 | the loops over the unique dilations, for M_SL and for M_VL (`_multivariate_variable_length.py` lines 172-285): every shapelet is processed, each status is the draw from the slice it saw (so dropped exactly when no sample had an eligible position among its windows there, by `StatusExactly`), and the mask holds exactly the cells no cut has cleared |
| `MultivariateSameLength.DrawnShapeletsFit` | convst/transformers/_multivariate_same_length.py:60-66 | the drawn lengths and dilations fit the series, with or without phase |
| `MultivariateSameLength.InitMask` | convst/transformers/_multivariate_same_length.py:155-157 | the all-true mask n points wide tracks the cuts before the loops |
| `MultivariateSameLength.DraftChannelShapelets` | convst/transformers/_multivariate_same_length.py:154-255 | after the loops over an all-open mask every shapelet is processed and its status is the draw from the slice it saw |
| `MultivariateSameLength.GenerateShapelet` | convst/transformers/_multivariate_same_length.py:94-265 | `M_SL_generate_shapelet`: the per-shapelet arrays filtered by `mask_return` in original order; values and channel ids as the kept blocks in processing order; every shapelet's status is the draw from the slice it saw (dropped exactly when no cell there was eligible, by `StatusExactly`); with alpha <= 0 and a sample every shapelet is kept |
| `MultivariateSameLength.ApplyAllShapelets` | convst/transformers/_multivariate_same_length.py:268-384 | `M_SL_apply_all_shapelets`: columns 3i..3i+2 of row s hold shapelet i's features on sample s |
| `ChannelApply.BlockSizesOfConsistent` | convst/transformers/_multivariate_same_length.py:319 | every shapelet's block size is non-negative |
| `ChannelApply.ShapeletChannels` | convst/transformers/_multivariate_same_length.py:354 | shapelet i's slice of `channel_ids` holds n_channels[i] valid channels |
| `ChannelApply.ShapeletRows` | convst/transformers/_multivariate_same_length.py:355-357 | shapelet i's reshaped values are n_channels[i] rows of its length |
| `ChannelApply.SelectChannels` | convst/transformers/_multivariate_same_length.py:361 | `strides[_channels]` is the stride matrices of the given channels, in that order |
| `ChannelApply.NormalizeStride` | convst/transformers/_multivariate_same_length.py:370-371 | one window is z-normalised in place; every other cell keeps its value |
| `ChannelApply.NormalizeStrides` | convst/transformers/_multivariate_same_length.py:365-371 | every window of every channel is replaced by its z-normalisation |
| `ChannelApply.ChannelSumIsSumProfiles` | convst/transformers/_commons.py:527-535 | summing distances channel by channel adds the channels' profiles one after the other |
| `ChannelApply.SummedIsProfile` | convst/transformers/_commons.py:527-535 | once the strides are the windows, the summed distances are the channel-summed profile the generator also uses |
| `ChannelApply.ShapeletArrays` | convst/transformers/_multivariate_same_length.py:354-357 | the slices read at `a1`/`a2` are shapelet i's channels and rows |
| `ChannelApply.ApplyShapelet` | convst/transformers/_multivariate_same_length.py:353-362 | shapelet i's features land in row s; no other block changes |
| `ChannelApply.ApplyShapelets` | convst/transformers/_multivariate_same_length.py:352-362 | the given shapelets receive their features in row s; nothing else changes |
| `ChannelApply.ApplyRaw` | convst/transformers/_multivariate_same_length.py:351-362 | the group's plain shapelets receive their features on the raw windows |
| `ChannelApply.ApplyNormalized` | convst/transformers/_multivariate_same_length.py:364-383 | the group's normalised shapelets receive their features on the normalised windows |
| `ChannelApply.ApplyGroup` | convst/transformers/_multivariate_same_length.py:342-383 | every shapelet of the group receives its features in row s; nothing else changes |
| `ChannelApply.ApplyBucket` | convst/transformers/_multivariate_same_length.py:341-383 | exactly the shapelets of pair g receive their features in row s |
| `ChannelApply.ApplySample` | convst/transformers/_multivariate_same_length.py:339-383 | row s receives every shapelet's features and the other rows are untouched |
| `ChannelApply.Offsets` | convst/transformers/_multivariate_same_length.py:319-321 | `a1` and `a2` are the 0-prefixed cumulative block sizes and channel counts |
| `ChannelApply.Prepare` | convst/transformers/_multivariate_same_length.py:312-336 | the pairs, buckets and both offset arrays the apply loop relies on |
| `ChannelApply.KeptLengths` | convst/transformers/_multivariate_same_length.py:257-265 | the kept blocks' sizes are the block sizes of the kept parameters |
| `ChannelApply.KeptChannelsBelow` | convst/transformers/_multivariate_same_length.py:184-186 | every kept channel id names a channel of the input |
| `ChannelApply.IndexOrderedConsistent` | convst/transformers/_multivariate_same_length.py:257-265 | the index-ordered arrays agree in size and hold valid lengths, dilations and channels |
| `ChannelApply.IndexOrderedChannelsAt` | convst/transformers/_multivariate_same_length.py:354 | in index order, the channel ids read for the j-th kept shapelet are its own |
| `ChannelApply.IndexOrderedRowsAt` | convst/transformers/_multivariate_same_length.py:355-357 | in index order, the rows read for the j-th kept shapelet are the windows it was cut from |
| `ChannelApply.IndexOrderedReadBack` | convst/transformers/_multivariate_same_length.py:354-357 | in index order, the apply functions read back each kept shapelet's own channels and rows |
| `ChannelApply.SortedDilationsReadBack` | convst/transformers/_multivariate_same_length.py:240-253 | when dilations do not decrease with the index, the buffers as written are the index-ordered ones |
| `Packing.ProcessingOrderDistinct` | convst/transformers/_multivariate_same_length.py:165-169 | a list in processing order has no repeats |
| `Packing.IndexOrderLayoutSlices` | convst/transformers/_multivariate_same_length.py:319-321 | in the index-order layout, kept shapelet j's block lies between offsets j and j+1 |
| `Packing.LayoutsAgreeInIndexOrder` | convst/transformers/_multivariate_same_length.py:240-253 | a processing order that is the index order yields the layout the apply functions read |
| `Packing.IndexOrderWhenSorted` | convst/transformers/_multivariate_same_length.py:165-169 | with non-decreasing dilations the processing order is the index order |
| `Packing.OnlyProcessingOrder` | convst/transformers/_multivariate_same_length.py:165-169 | with dilations [2, 1] the shapelet of dilation 1 is processed first |
| `Packing.ProcessingOrderLayoutMisreads` | convst/transformers/_multivariate_same_length.py:240-253 | with dilations [2, 1], the values read at shapelet 0's offsets are not shapelet 0's block |
| `MultivariateVariableLength.ClearBeyondLengths` | convst/transformers/_multivariate_variable_length.py:168-169 | the cells past each sample's length become false; nothing else changes |
| `MultivariateVariableLength.InitMask` | convst/transformers/_multivariate_variable_length.py:160-169 | the mask is max(X_len) wide and a cell is open exactly when it lies within its sample |
| `MultivariateVariableLength.DrawnShapeletsFit` | convst/transformers/_multivariate_variable_length.py:154-157 | lengths and dilations drawn against the shortest sample fit every sample |
| `MultivariateVariableLength.DraftChannelShapelets` | convst/transformers/_multivariate_variable_length.py:159-285 | the generation loops over the mask cleared past each sample's length leave every shapelet processed, its status the draw from the slice it saw |
| `MultivariateVariableLength.GenerateShapelet` | convst/transformers/_multivariate_variable_length.py:94-295 | `M_VL_generate_shapelet`: like M_SL, with parameters drawn against `min_len`; every shapelet's status is the draw from the slice it saw; with alpha <= 0 every shapelet is kept |
| `MultivariateVariableLength.Truncated` | convst/transformers/_multivariate_variable_length.py:376 | `X[s, :, :X_len[s]]` keeps the first X_len[s] points of every channel |
| `MultivariateVariableLength.ApplyAllShapelets` | convst/transformers/_multivariate_variable_length.py:298-414 | `M_VL_apply_all_shapelets`: columns 3i..3i+2 of row s hold shapelet i's features on sample s's first X_len[s] points |

## Left out

- `euclidean` (`_commons.py`): a square root of the squared distance; real square roots are not modelled, and the squared and Manhattan distances cover the stock distances.
- Random number generation: `seed`, `choice`, `randint`, `uniform` and `random` are an oracle whose draws lie in their range; no distribution is claimed.
- Commons.ZNormalize: the window normalisation `(x - mean) / (std + 1e-8)` is a length-preserving parameter; its floating-point arithmetic is not modelled.
- The threshold's percentile: `percentile` is a parameter; only its place in the `uniform` draw is modelled.
- Sampling.PlainDilation: models `floor(2 ** uniform(0, log2(bound)))` as any dilation in 1..bound, a superset of its possible values.
- Numba: `njit`, `fastmath` and `cache` are compilation directives; `prange` loops are modelled sequentially, so the shared counters `a1`/`a2` in the parallel dilation loop (a data race under real parallelism) are not modelled.
- Floating point: all arithmetic is on exact reals; rounding, `1e-8` and NaN are not represented.
- Integer widths: lengths, dilations and indices are unbounded integers; the source's `int64` never overflows at these sizes.
- Preconditions stand for inputs NumPy would reject: every window must fit the series, the channel count must not exceed the channels, and `max(X_len)` needs a sample.
- ChannelApply.Consistent: channel ids are required to be in 0..n_features-1; NumPy's negative indexing is not modelled.
- MultivariateVariableLength.ApplyAllShapelets: the padding of X past each sample's length is not represented; each sample is its first X_len[s] points.
- ChannelSampling.DrawAnchor: follows the source in drawing a sample among the eligible samples, each counted once, whereas M_SL and U_SL draw per eligible cell.
- The multivariate generators require `values` and `threshold` to be different arrays; the source allocates them separately.
- The `ValueError` branch of `compute_shapelet_dist_vector` (`_commons.py` line 302) cannot be reached with boolean `normalize` and `use_phase` flags, so the model has no such branch.
- The package's tests and the estimator wrappers around the three transformers are not part of this model.

## Findings

| source | as written | input that shows it | evidently intended | confidence | as-written member | corrected member |
|---|---|---|---|---|---|---|
| convst/transformers/_multivariate_same_length.py:240-253 | generation packs each kept shapelet's values and channel ids at running offsets in processing order (ascending dilation, then index), while the apply function reads shapelet i at the cumulative offsets of the kept shapelets in index order (lines 319-321, 354-357); M_VL does the same (`_multivariate_variable_length.py` 270-283 and 351-353) | two shapelets with dilations [2, 1], lengths [2, 3], one channel each, both kept: values are shapelet 1's 3 points then shapelet 0's 2 points, but shapelet 0 is read from positions 0..1 | each shapelet's block is read back from where it was written, i.e. the blocks are laid out in index order | high, not executed | `Packing.ProcessingOrderLayoutMisreads` | `ChannelApply.IndexOrderedReadBack` |
