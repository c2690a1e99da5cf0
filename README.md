# recommendation-system, modelled in Dafny

This project models the core of the recommendation-system workspace: a
collaborative-filtering engine over a pluggable database controller.

- **Users.** `Engine::user_distance`, `user_knn` and `user_based_predict`
  compare users by a distance or similarity between their rating maps. The
  methods are Manhattan, Euclidean, Minkowski, Jaccard, cosine, Pearson
  correlation and its one-pass approximation. The engine keeps the k nearest
  neighbours in a bounded heap (`MaxHeapKnn`, `MinHeapKnn`) and predicts a
  rating as the neighbours' ratings weighted by Pearson approximation.
- **Items.** `item_distance`, `slope_one_predict`, `adj_cosine_predict` and
  `item_based_predict` compare items by adjusted cosine or by slope-one
  deviation. Adjusted cosine normalises ratings to [-1, 1] and back.
- **Matrices.** Item-item matrices are computed one chunk at a time
  (`SimilarityMatrix`, `DeviationMatrix`), with lazy pagers over the items
  table.
- **The `recommend` crate.** This is the older crate. It has its own `Record`
  distance methods and its own heap. Its distance functions are the legacy
  ones, plus a co-rated-key iterator.
- **The command-line parser.** It reads lines such as
  `user_knn(4, id('1'), pearson_c)` or `connect(books)`.
- **The controller.** Its values (`Value::from_str` and the `as_*`
  casts) and its `SearchBy` keys are modelled as data.

## How the model is built

- **Floating point.** Ratings are exact reals. A division whose denominator
  may be zero yields a `NonFinite` marker instead of NaN or infinity.
  `sqrt` and `powf(1/p)` are an abstract principal root (`Reals.Root`), of
  which only the defining laws are assumed.
- **The controller.** It is the value `Controllers.Store`: its ratings by
  user, its raters by item, and its items and users tables, with a flag
  saying whether it pages. Its queries are functions of that value.
- **State.** Objects that the source updates in place are classes: the k
  nearest-neighbour heaps, the lazy pagers, the chunked matrices and the
  co-rated-key iterators. Their methods are proved against specification
  functions. For the heaps that function is `KnnSelection.TopK`, the k best
  candidates in best-first order.
- **Hash maps.** Where the source iterates over a `HashMap` or `HashSet`
  to accumulate a sum, fill a matrix chunk or collect keys, the loop takes an
  arbitrary remaining element, so those contracts hold for every iteration
  order. The nearest-neighbour scans are the exception: they offer the
  candidates in the order of the `Store`'s users table (listed under Left out below).

## Model

| member | source | states |
|---|---|---|
| UserDistances.ManhattanDistance | engine/src/distances/users.rs:66-80 | the loop over the co-rated keys returns the sum of \|y - x\| over them, or `NoMatchingRatings` exactly when the maps share no key |
| UserDistances.EuclideanDistance | engine/src/distances/users.rs:82-96 | the loop returns the square root of the sum of squared differences over the co-rated keys, or `NoMatchingRatings` when there are none |
| UserDistances.MinkowskiDistance | engine/src/distances/users.rs:98-119 | for p ≥ 1, the p-th root of the sum of \|y - x\|^p over the co-rated keys, or `NoMatchingRatings` when there are none |
| UserDistances.CosineSimilarityOf | engine/src/distances/users.rs:163-193 | the loop's three sums give the dot product over the product of the two norms; `NoMatchingRatings` with no co-rated key, `IndeterminateForm` for 0/0 and `DivisionByZero` for x/0 |
| UserDistances.RatingSums | engine/src/distances/users.rs:203-215 | the first pass of `pearson_correlation` sums each side's co-rated ratings and counts the co-rated keys |
| UserDistances.CentredSums | engine/src/distances/users.rs:217-229 | the second pass sums the centred products and centred squares over the co-rated keys |
| UserDistances.PearsonCorrelationOf | engine/src/distances/users.rs:195-240 | Pearson's coefficient with each mean taken over the co-rated entries only, with the same error cases as the cosine |
| UserDistances.OnePassSums | engine/src/distances/users.rs:249-264 | the single pass of `pearson_approximation` accumulates the counter, both sums, both sums of squares and the dot product over the co-rated keys |
| UserDistances.PearsonApproximationOf | engine/src/distances/users.rs:242-287 | the one-pass formula from the counter and the five raw sums, with the same error cases |
| UserDistances.Distance | engine/src/distances/users.rs:45-64 | `distance` gives each method's own metric on the same two maps |
| UserDistances.JaccardIndexRange | engine/src/distances/users.rs:121-150 | the index fails only when both maps are empty, and then with `EmptyRatings`; otherwise it lies in [0, 1], is 1 exactly when both maps have the same keys and 0 exactly when they share none |
| UserDistances.JaccardDistanceRange | engine/src/distances/users.rs:152-161 | one minus the index: it fails exactly when the index does, lies in [0, 1] and is 0 exactly when the key sets are equal |
| UserDistanceLaws.MethodKinds | engine/src/distances/users.rs:25-43 | Manhattan, Euclidean, Minkowski and JaccardDistance are exactly the distances, the other four exactly the similarities, and `is_distance` is the negation of `is_similarity` |
| UserDistanceLaws.CoRatedSymmetric | engine/src/utils.rs:32-37 | the co-rated keys of (a, b) and of (b, a) are the same, whichever map the iterator walks |
| UserDistanceLaws.ManhattanSymmetric | engine/src/distances/users.rs:66-80 | the Manhattan distance of (a, b) equals that of (b, a) |
| UserDistanceLaws.EuclideanSymmetric | engine/src/distances/users.rs:82-96 | the Euclidean distance is symmetric |
| UserDistanceLaws.MinkowskiSymmetric | engine/src/distances/users.rs:98-119 | the Minkowski distance is symmetric for every order p |
| UserDistanceLaws.JaccardSymmetric | engine/src/distances/users.rs:121-150 | the Jaccard index is symmetric, errors included |
| UserDistanceLaws.JaccardDistanceSymmetric | engine/src/distances/users.rs:152-161 | the Jaccard distance is symmetric, errors included |
| UserDistanceLaws.CosineSymmetric | engine/src/distances/users.rs:163-193 | the cosine similarity is symmetric, errors included |
| UserDistanceLaws.PearsonSymmetric | engine/src/distances/users.rs:195-240 | Pearson's coefficient is symmetric, errors included |
| UserDistanceLaws.PearsonApproxSymmetric | engine/src/distances/users.rs:242-287 | the one-pass Pearson formula is symmetric, errors included |
| UserDistanceLaws.DistanceSymmetric | engine/src/distances/users.rs:45-64 | every allowed method gives the same result on (a, b) as on (b, a) |
| UserDistanceLaws.MinkowskiOneIsManhattan | engine/src/distances/users.rs:66-119 | Minkowski of order 1 is the Manhattan distance |
| UserDistanceLaws.MinkowskiTwoIsEuclidean | engine/src/distances/users.rs:82-119 | Minkowski of order 2 is the Euclidean distance |
| UserDistanceLaws.DistanceNonNegative | engine/src/distances/users.rs:25-161 | a distance method never yields a negative value |
| UserDistanceLaws.SelfDistanceIsZero | engine/src/distances/users.rs:66-161 | every distance method gives 0 for a non-empty map against itself |
| UserDistanceLaws.CosineSelf | engine/src/distances/users.rs:163-193 | a non-empty map against itself has cosine 1, or `IndeterminateForm` when all its ratings are 0 |
| UserDistanceLaws.PearsonSelf | engine/src/distances/users.rs:195-240 | a map against itself has Pearson coefficient 1, or `IndeterminateForm` when its ratings do not vary |
| UserDistanceLaws.PearsonApproxIsPearson | engine/src/distances/users.rs:195-287 | in exact arithmetic the one-pass formula gives the same result as the two-pass coefficient, errors included |
| UserDistanceLaws.CentredCrossSum | engine/src/distances/users.rs:220-270 | the sum of centred products equals Σxy − ΣxΣy/n, the one-pass numerator |
| UserDistanceLaws.CentredSquareSumX | engine/src/distances/users.rs:220-275 | the sum of squares centred on the mean of x equals Σx² − (Σx)²/n |
| UserDistanceLaws.CentredSquareSumY | engine/src/distances/users.rs:220-275 | the same for y |
| CommonKeys.CommonKeyIterator.constructor | engine/src/utils.rs:25-38 | `common_keys_iter` walks the map with fewer entries, `a` on a tie, and probes the other; nothing has been yielded yet |
| CommonKeys.CommonKeyIterator.Next | engine/src/utils.rs:55-65 | each call skips keys the larger map lacks and yields a key of the smaller map that the larger one holds, not yielded before, with (smaller-map value, larger-map value); `None` only once the smaller map is exhausted; the smaller map's unvisited keys strictly shrink, so iteration ends |
| CommonKeys.ExhaustedYieldsCoRated | engine/src/utils.rs:49-66 | once the iterator is exhausted it has yielded exactly the keys both maps hold, each once; an empty map yields nothing |
| EngineErrors.Divide | engine/src/distances/users.rs:185-192 | a quotient followed by the NaN and infinity checks: `IndeterminateForm` exactly for 0/0, `DivisionByZero` exactly for x/0 with x ≠ 0, and otherwise the value whose product with the denominator is the numerator |
| MapedDistances.AccessorsOf | engine/src/maped_distance.rs:7-15 | `dist()` is the second field and `ratings()` the third |
| MapedDistances.Compare | engine/src/maped_distance.rs:25-35 | `cmp` is `Equal` exactly when the two distances are equal, `Less` exactly when the first is smaller, and `Greater` exactly when it is larger |
| MapedDistances.SameIgnoresIdAndRatings | engine/src/maped_distance.rs:17-21 | two neighbours at the same distance are equal and compare `Equal`, whatever their ids and ratings |
| MapedDistances.CompareReverses | engine/src/maped_distance.rs:25-35 | swapping the operands reverses the ordering |
| MapedDistances.CompareTransitive | engine/src/maped_distance.rs:31-35 | the order is transitive, and a chain that ends `Equal` is `Equal` throughout, so with real distances `cmp` is a total preorder that never panics |
| PairSums.AccumulateStep | engine/src/distances/users.rs:75-77 | one `*acc.get_or_insert_with(zero) += term` for a new co-rated key turns `None` into `Some(term)` and adds the term to `Some(s)` |
| PairSums.AccumulatedAll | engine/src/distances/users.rs:74-79 | after the whole walk the accumulator is `None` exactly when no key is co-rated, and otherwise holds the sum of the term over the co-rated keys |
| ItemDistances.SumRatings | engine/src/distances/items.rs:28-34 | the inner loop counts a user's ratings and sums them, `None` for a user with none |
| ItemDistances.AdjustedCosineMeans | engine/src/distances/items.rs:18-43 | one entry per user with at least one rating, holding the mean of all that user's ratings; users with none are left out |
| ItemDistances.MeanWithin | engine/src/distances/items.rs:36-38 | a user's mean lies between the lowest and the highest of their ratings |
| ItemDistances.FastAdjustedCosine | engine/src/distances/items.rs:45-94 | the loop sums, over the users in both sets who have a vector, a mean and ratings of both items, the products and squares of the ratings centred on the user's mean; `NoMatchingRatings` when no user contributes, then the NaN and infinity checks |
| ItemDistances.SlowAdjustedCosine | engine/src/distances/items.rs:96-110 | the fast form with the means of `adjusted_cosine_means` |
| ItemDistances.AdjustedCosineSymmetric | engine/src/distances/items.rs:45-94 | swapping the two items and their user sets gives the same result |
| ItemDistances.AdjustedCosineSelf | engine/src/distances/items.rs:45-94 | an item against itself has similarity 1, or `IndeterminateForm` when every contributing rating equals its user's mean |
| ItemDistances.AdjustedCosineNoOverlap | engine/src/distances/items.rs:62-83 | the result is `NoMatchingRatings` exactly when no user contributes |
| ItemDistances.NormalizeUserRatings | engine/src/distances/items.rs:112-133 | `DivisionByZero` exactly when max = min; otherwise the same keys, each rating r mapped to (2r − min − max)/(max − min) |
| ItemDistances.NormalizedRange | engine/src/distances/items.rs:128 | the lowest rating maps to −1, the highest to +1, and ratings in between into [−1, 1] |
| ItemDistances.DenormalizeNormalized | engine/src/distances/items.rs:128-147 | denormalising a normalised rating gives the rating back whenever max ≠ min |
| ItemDistances.NormalizedDenormalize | engine/src/distances/items.rs:128-147 | normalising a denormalised value gives the value back whenever max ≠ min |
| LegacyDistances.ManhattanDistance | engine/src/distances.rs:60-71 | the older Manhattan loop: the live value, with every error reported as `None` |
| LegacyDistances.EuclideanDistance | engine/src/distances.rs:73-84 | the older Euclidean loop: the live value, or `None` |
| LegacyDistances.MinkowskiDistance | engine/src/distances.rs:86-102 | the older Minkowski loop for p ≥ 1: the live value, or `None` |
| LegacyDistances.JaccardIndex | engine/src/distances.rs:104-127 | `None` exactly when the live index errs, that is when both maps are empty; otherwise the same value |
| LegacyDistances.JaccardDistance | engine/src/distances.rs:129-135 | one minus the older index, or `None` |
| LegacyDistances.CosineSimilarity | engine/src/distances.rs:137-162 | the older cosine: the live value, and `None` where the live version errs (no co-rated key, NaN or infinite quotient) |
| LegacyDistances.PearsonCorrelation | engine/src/distances.rs:164-202 | the older two-pass Pearson coefficient: the live value, or `None` |
| LegacyDistances.PearsonApproximation | engine/src/distances.rs:204-238 | the older one-pass Pearson formula: the live value, or `None` |
| LegacyDistances.Distance | engine/src/distances.rs:43-58 | the older dispatch gives each method's own metric, or `None` |
| LegacyDistances.PreAdjustedCosine | engine/src/distances.rs:240-263 | each user with a non-empty vector mapped to the mean of that vector; the others left out |
| LegacyDistances.PostAdjustedCosine | engine/src/distances.rs:265-308 | the adjusted cosine over the users who have a mean and rated both items, with the given means; `None` when nobody contributes or the quotient is NaN or infinite |
| LegacyDistances.AdjustedCosine | engine/src/distances.rs:310-353 | the same, with each user's mean recomputed over the whole rating vector rather than the co-rated part |
| LegacyDistances.CentredInputs | engine/src/distances.rs:320-337 | a user contributes exactly when they rated both items, and then with both ratings and the mean of their whole vector |
| LegacyDistances.DisjointIsNone | engine/src/distances.rs:60-238 | on maps with no co-rated key Manhattan, Euclidean, Minkowski, the cosine and both Pearson forms are `None` |
| LegacyDistances.DisjointExample | engine/src/distances.rs:361-383 | the unit test's disjoint maps give `None` for every metric it checks, Minkowski with p = 1, 2 and 3 included |
| LegacyDistances.JaccardLaws | engine/src/distances.rs:104-135 | the index is `None` exactly for two empty maps, lies in [0, 1], is 0 when only one map is empty, and the distance is one minus it |
| LegacyDistances.MinkowskiSpecialCases | engine/src/distances.rs:421-445 | Minkowski with p = 1 is Manhattan and with p = 2 is Euclidean |
| LegacyDistances.ManhattanExample | engine/src/distances.rs:385-401 | the unit test's Manhattan distance is 3 |
| LegacyDistances.EuclideanExample | engine/src/distances.rs:403-419 | the unit test's Euclidean distance is 3 |
| LegacyDistances.CosineZeroNorm | engine/src/distances.rs:150-161 | when every co-rated rating of the first map is 0 the cosine is `None` |
| LegacyDistances.CosineZeroExample | engine/src/distances.rs:447-465 | the unit test's all-zero map gives `None` |
| RecommendDistances.CommonKeyIterator.constructor | recommend/src/distances.rs:55-62 | `CommonKeyIterator::new` walks the map with fewer entries, `a` on a tie, and probes the other |
| RecommendDistances.CommonKeyIterator.Next | recommend/src/distances.rs:71-81 | each call yields, for a new key of the smaller map that the larger one holds, the pair (smaller-map value, larger-map value); `None` once the smaller map is exhausted |
| RecommendDistances.ExhaustedYieldsCoRated | recommend/src/distances.rs:65-82 | an exhausted iterator has yielded exactly the common keys |
| RecommendDistances.Pairs | recommend/src/distances.rs:65-82 | running the iterator to the end gives one pair per common key, each key once, with its two values |
| RecommendDistances.PairsExample | recommend/src/distances.rs:287-309 | the unit test's maps yield (0, 2) three times and then nothing |
| Records.New | recommend/src/record.rs:46-48 | a new record holds no ratings |
| Records.FromValues | recommend/src/record.rs:35-57 | a record built from a map hands back exactly that map through `values` |
| Records.Accumulate | recommend/src/record.rs:70-76 | the `get_or_insert_with` accumulator over the common keys ends as the fold of the term over the co-rated keys, and `None` when there are none, whatever order the hash map is walked in |
| Records.FoldRemove | recommend/src/record.rs:134-165 | a fold with an exchangeable operator (the `*=` accumulators) does not depend on the order of the keys |
| Records.ManhattanDistance | recommend/src/record.rs:69-79 | the result is the accumulated sum of absolute differences over the co-rated keys, `None` when none |
| Records.EuclideanDistance | recommend/src/record.rs:81-91 | the square root of the accumulated squared differences, `None` when no key is shared |
| Records.MinkowskiDistance | recommend/src/record.rs:93-105 | the `p`-th root of the accumulated `p`-th powers of absolute differences, `None` when no key is shared |
| Records.ManhattanAgrees | recommend/src/record.rs:69-79 | the record's Manhattan distance equals the engine's `manhattan_distance` on the same ratings |
| Records.EuclideanAgrees | recommend/src/record.rs:81-91 | the record's Euclidean distance equals the engine's `euclidean_distance` |
| Records.MinkowskiAgrees | recommend/src/record.rs:93-105 | the record's Minkowski distance equals the engine's `minkowski_distance` for every `p` |
| Records.MinkowskiZeroCounts | recommend/src/record.rs:96-100 | with `p = 0` every shared key adds one, so the accumulator is the number of co-rated keys |
| Records.JaccardAgrees | recommend/src/record.rs:107-123 | the record's Jaccard index and distance equal the engine's, including `None` when both key sets are empty |
| Records.OneEmpty | recommend/src/record.rs:107-119 | when exactly one record is empty the union is non-empty and the index is 0 |
| Records.CosineSimilarity | recommend/src/record.rs:125-141 | as written: the norms are summed but the dot product is accumulated with `*=` from one, so the numerator is the product of the `x * y` terms; `None` when no key is shared |
| Records.CorrectedCosineSimilarity | recommend/src/record.rs:125-141 | the same method with the dot product summed |
| Records.PearsonCorrelation | recommend/src/record.rs:143-174 | as written: the means come from sums over the co-rated keys, then the covariance is accumulated with `*=` from one; `None` when no key is shared |
| Records.CorrectedPearsonCorrelation | recommend/src/record.rs:143-174 | the same method with the covariance summed |
| Records.CountIsFoldOfOnes | recommend/src/record.rs:146-157 | the `total` counter equals the number of co-rated keys |
| Records.OrientedSymmetric | recommend/src/record.rs:130-135 | walking `self` and probing `rhs` sums a symmetric term to the same value as the engine's walk over the smaller map |
| Records.CorrectedCosineAgrees | recommend/src/record.rs:125-141 | with the dot product summed, the record's cosine is the engine's `cosine_similarity`, `None` exactly when no key is shared |
| Records.CorrectedPearsonAgrees | recommend/src/record.rs:143-174 | with the covariance summed, the record's Pearson correlation is the engine's `pearson_correlation`, `None` exactly when no key is shared |
| Records.CorrectedCosineSelf | recommend/src/record.rs:125-141 | a record against itself has cosine 1, or a non-finite value when all its ratings are 0 |
| Records.CorrectedPearsonSelf | recommend/src/record.rs:143-174 | a record against itself has correlation 1, or a non-finite value when all its ratings are equal |
| Records.CosineAsWrittenExample | recommend/src/record.rs:134-140 | for the record {0: 1, 1: 1} against itself the method as written gives 0.5 where the cosine is 1 |
| Records.PearsonAsWrittenExample | recommend/src/record.rs:165-173 | for the record {0: 1, 1: 3} against itself the method as written gives 0.5 where the correlation is 1 |
| Records.ManhattanExample | recommend/src/record.rs:182-198 | the unit test's records are at Manhattan distance 1 |
| Records.EuclideanExample | recommend/src/record.rs:200-216 | the unit test's records are at Euclidean distance √8 |
| Records.Minkowski3Example | recommend/src/record.rs:218-234 | the unit test's records are at Minkowski-3 distance ∛16 |
| KnnSelection.PreferenceTotal | engine/src/knn.rs:62-116 | the heaps' comparison (`<` on distances for the max-heap, `>` on similarities for the min-heap) is a total preorder, and strict preference is the negation of its converse |
| KnnSelection.WorstIndex | engine/src/knn.rs:61-62 | `peek` names an entry of the heap that every entry is at least as good as: the largest distance, or the smallest similarity |
| KnnSelection.RemoveAt | engine/src/knn.rs:65 | `pop` takes out that one entry and leaves the others |
| KnnSelection.Scored | engine/src/knn.rs:53-56 | the candidates of a chunk are at most as many as its users |
| KnnSelection.ScoredSound | engine/src/knn.rs:53-56 | every candidate offered is a user of the chunk with its own ratings and the distance computed for it |
| KnnSelection.ScoredComplete | engine/src/knn.rs:53-56 | every user of the chunk whose distance can be computed is offered |
| KnnSelection.ScoredSkipsFailures | engine/src/knn.rs:56 | a chunk in which every distance fails offers nothing |
| KnnSelection.ScoredAppend | engine/src/knn.rs:53-70 | scoring two chunks one after the other is scoring their concatenation |
| KnnSelection.OfferAllAppend | engine/src/knn.rs:53-70 | the fold over a concatenation is the fold over its second part from where the first left off |
| KnnSelection.UpdatesCompose | engine/src/knn.rs:46-71 | two `update` calls over two chunks leave the same heap as one call over both chunks |
| KnnSelection.OfferAllSize | engine/src/knn.rs:57-68 | the heap grows by one per valid candidate until it holds k entries, then stays at k |
| KnnSelection.FullHeapKeepsTies | engine/src/knn.rs:61-62 | a full heap is unchanged by a candidate that is not strictly better than its worst entry, ties included |
| KnnSelection.FullHeapReplacesWorst | engine/src/knn.rs:61-67 | a strictly better candidate replaces exactly the worst entry of a full heap |
| KnnSelection.OfferSelects | engine/src/knn.rs:57-68 | one step of `update` keeps the heap a top-k selection of the candidates seen so far |
| KnnSelection.ReplaceSelects | engine/src/knn.rs:61-67 | the replacement branch keeps the heap a top-k selection |
| KnnSelection.DropSelects | engine/src/knn.rs:61-62 | the branch that drops the candidate keeps the heap a top-k selection |
| KnnSelection.OfferAllSelects | engine/src/knn.rs:53-70 | the whole loop keeps the heap a top-k selection of everything offered |
| KnnSelection.TopK | engine/src/knn.rs:46-71 | from an empty heap, `update` keeps min(k, n) of the n candidates, all drawn from them, and no candidate left out is strictly better than one kept |
| KnnSelection.SortedKeptFrom | engine/src/knn.rs:73-76 | every neighbour `into_vec` returns is one of the candidates offered |
| KnnSelection.Insert | engine/src/knn.rs:73-76 | inserting into a best-first sequence gives a best-first permutation of it with the new entry |
| KnnSelection.SortedBestFirst | engine/src/knn.rs:127-134 | `into_sorted_vec` (through `Reverse` for the min-heap) is a permutation of the heap, ascending distance or descending similarity |
| Knn.Knn.constructor | engine/src/knn.rs:31-38 | `MaxHeapKnn::new` / `MinHeapKnn::new` start with an empty heap, which selects from nothing |
| Knn.Knn.Update | engine/src/knn.rs:46-71 | the heap becomes the fold of the offers over the chunk's valid candidates in chunk order, and stays a top-k selection of every candidate seen |
| Knn.Knn.Consider | engine/src/knn.rs:53-56 | one user is offered exactly when its distance can be computed, with that distance and its ratings |
| Knn.Knn.Push | engine/src/knn.rs:57-68 | a valid candidate is pushed below k entries, replaces the worst when strictly better, is dropped otherwise, and the heap stays a top-k selection |
| Knn.Knn.IntoVec | engine/src/knn.rs:73-76 | the neighbours come out as a permutation of the heap, best first |
| RecommendKnn.Knn.constructor | recommend/src/knn.rs:22-30 | the older heaps also start empty |
| RecommendKnn.Knn.Update | recommend/src/knn.rs:33-52 | the older `update` skips the users whose distance is `None` and makes the same selection as the engine's |
| RecommendKnn.Knn.Consider | recommend/src/knn.rs:34-37 | a user is offered exactly when the older distance is `Some`, which is exactly when the engine's succeeds |
| RecommendKnn.Knn.Push | recommend/src/knn.rs:38-49 | the same push, replace or drop as the engine's, keeping a top-k selection |
| RecommendKnn.Knn.IntoVec | recommend/src/knn.rs:54-56 | sorting a clone of the heap gives its entries best first and leaves the object as it was |
| EngineUsers.UserDistance | engine/src/lib.rs:68-78 | `user_distance` is the chosen metric on the two users' ratings, and gives the same answer with the users swapped |
| EngineUsers.KindFor | engine/src/lib.rs:142-146 | the heap is a min-heap exactly when the method is a similarity |
| EngineUsers.WhoRated | engine/src/lib.rs:189-207 | the `filter` on `contains_key(&item_id)` keeps exactly the users who rated the item, and all of them |
| EngineUsers.WhoRatedAppend | engine/src/lib.rs:189-200 | filtering page by page filters the whole listing |
| EngineUsers.CandidatesOf | engine/src/lib.rs:148-157 | without a chunk size every user but the query user is a candidate; with one, every user of the paged table |
| EngineUsers.PageStep | engine/src/lib.rs:150-153 | one more page folded into the heap is the fold over all pages read so far |
| EngineUsers.Advance | engine/src/lib.rs:149-153 | one turn of the `for` loop reads the next page and hands it to `update`, or ends the loop without touching the heap |
| EngineUsers.UpdateByPages | engine/src/lib.rs:148-153 | the chunked loop leaves the heap as one `update` over every paged candidate |
| EngineUsers.Scan | engine/src/lib.rs:142-157 | the heap after the scan is the top-k selection of the candidates, chunked or not |
| EngineUsers.Neighbours | engine/src/lib.rs:159-163 | the `map` keeps each neighbour's id and distance, in order |
| EngineUsers.UserKnn | engine/src/lib.rs:130-170 | `user_knn` returns the neighbours of the specification: `EmptyKNearestNeighbors` for k = 0 or no candidate |
| EngineUsers.UserKnnSelects | engine/src/lib.rs:130-170 | the result is an error exactly when k = 0 or no candidate's distance can be computed; otherwise it holds min(k, n) neighbours, best first, each the id and distance of a scored candidate, and no scored candidate left out is strictly better than any neighbour |
| EngineUsers.UserKnnExcludesQuery | engine/src/lib.rs:154-156 | without a chunk size the query user is never among its own neighbours |
| EngineUsers.WeightsFromRaters | engine/src/lib.rs:212-233 | every weight comes from a neighbour who rated the item: its Pearson approximation and its rating |
| EngineUsers.PearsonWeights | engine/src/lib.rs:212-233 | the `filter_map` builds the weights of the specification |
| EngineUsers.Predict | engine/src/lib.rs:235-244 | the closing loop gives `EmptyKNearestNeighbors` without weights and otherwise the weighted mean of the ratings |
| EngineUsers.UserBasedPredict | engine/src/lib.rs:172-245 | `user_based_predict` is the weighted prediction over the k nearest neighbours who rated the item |
| EngineUsers.WeightedSumConstant | engine/src/lib.rs:239-242 | when every neighbour gave the same rating, the sum of shares is that rating times the share of the total |
| EngineUsers.PredictionOfConstant | engine/src/lib.rs:235-244 | when every neighbour gave the same rating and the weights do not cancel out, that rating is predicted |
| EngineUsers.PredictionUnguarded | engine/src/lib.rs:235-244 | as written, weights that sum to zero give a prediction that is not a number, and no error |
| EngineUsers.UnguardedExample | engine/src/lib.rs:235-244 | one neighbour with Pearson approximation 0 and rating 4 gives a non-finite prediction |
| EngineUsers.GuardedPredictionOf | engine/src/lib.rs:235-244 | the corrected prediction succeeds exactly when there are weights and they do not sum to zero |
| EngineUsers.GuardedPredict | engine/src/lib.rs:235-244 | the guarded closing loop computes the corrected prediction |
| EngineUsers.GuardedPredictionOfConstant | engine/src/lib.rs:235-244 | the corrected prediction reproduces a common rating exactly and reports a zero total as `DivisionByZero` |
| EngineUsers.GuardedAgrees | engine/src/lib.rs:235-244 | the corrected prediction equals the one as written wherever that one is finite, keeps its errors, and reports `DivisionByZero` where it is not a number |
| EngineUsers.GuardedUserBasedPredict | engine/src/lib.rs:172-245 | the corrected `user_based_predict` succeeds exactly when the one as written gives a finite prediction, and then gives the same value |
| EngineItems.ItemDistance | engine/src/lib.rs:80-128 | `item_distance` is the adjusted cosine of the two items' raters, or the slope-one deviation with its count dropped, errors passed through |
| EngineItems.SlopeStep | engine/src/lib.rs:354-358 | one item of the loop adds its weighted `dev + rating` to `num` and its count to `den`, keeping both the sums over the items seen |
| EngineItems.SlopeOnePredict | engine/src/lib.rs:332-367 | `slope_one_predict` is Σ (dev + rating) · card / Σ card over the user's other items whose deviation from the target can be computed, and `DivisionByZero` when Σ card is 0 |
| EngineItems.SlopeOneDivisionByZero | engine/src/lib.rs:362-366 | the slope-one prediction fails exactly when no item contributes a count, and then with `DivisionByZero` |
| EngineItems.SlopeOneMean | engine/src/lib.rs:349-366 | a weighted mean: when every contributing item predicts the same `dev + rating`, that value is the prediction |
| EngineItems.RatedIn | engine/src/lib.rs:266-269 | the `filter` keeps exactly the items of the page that the user rated |
| EngineItems.AdjSumsLast | engine/src/lib.rs:310-322 | one more item updates `num` and `dem` by one step of the inner loop |
| EngineItems.AdjClose | engine/src/lib.rs:325-329 | the closing step fails exactly when `dem` is zero |
| EngineItems.AdjSumsRatedIn | engine/src/lib.rs:266-273 | dropping the items the user did not rate, or skipping an empty page, does not change the sums |
| EngineItems.AddChunk | engine/src/lib.rs:310-322 | the inner loop adds every item of the page to the running sums |
| EngineItems.AdvanceItems | engine/src/lib.rs:264-323 | one turn of the `for` loop over pages adds that page to the sums, or ends the loop leaving them as they were |
| EngineItems.AdjCosinePredict | engine/src/lib.rs:247-330 | `adj_cosine_predict` is the denormalised Σ sim · normalized / Σ abs(sim) over the user's items, skipping the target and failed similarities, with `DivisionByZero` when Σ abs(sim) is 0 |
| EngineItems.AdjSumsIgnoresTargetRating | engine/src/lib.rs:312 | the user's own rating of the target item never enters the sums |
| EngineItems.NormalizedWithin | engine/src/distances/items.rs:128 | a rating inside [min, max] normalises into [-1, 1] |
| EngineItems.TimesWithin | engine/src/lib.rs:319-320 | each item adds to `num` no more than it adds to `dem` in absolute value |
| EngineItems.AdjSumsBounded | engine/src/lib.rs:310-322 | with ratings inside the scale, -dem ≤ num ≤ dem after any run of items |
| EngineItems.DenormalizeWithin | engine/src/distances/items.rs:135-147 | a value in [-1, 1] denormalises into [min, max] |
| EngineItems.AdjCosineWithinScale | engine/src/lib.rs:247-330 | with the user's ratings inside the scale, an adjusted-cosine prediction lies inside the scale |
| EngineItems.ProportionalStep | engine/src/lib.rs:319-320 | a positive similarity keeps `num` equal to the common normalised rating times `dem` |
| EngineItems.AdjSumsConstant | engine/src/lib.rs:310-322 | when the user gave all other items the same rating and similarities are positive, `num` is that normalised rating times `dem` |
| EngineItems.AdjCosineConstant | engine/src/lib.rs:247-330 | then the prediction is that rating |
| EngineItems.ItemBasedPredict | engine/src/lib.rs:369-383 | `item_based_predict` dispatches to the adjusted-cosine or the slope-one prediction |
| Controllers.RatingsBy | controller/src/lib.rs:95 | `ratings_by` answers the user's own ratings, and an empty map for a user without any |
| Controllers.MapedRatingsExcept | controller/src/lib.rs:98 | `maped_ratings_except` lists every other user with their ratings, and never the given one |
| Controllers.UsersWhoRated | controller/src/lib.rs:94 | `users_who_rated` answers, for exactly the asked items that have ratings, their raters |
| Lazy.OffsetLimit | controller/src/lib.rs:68-71 | the OFFSET/LIMIT query fails exactly when the controller does not implement it, and otherwise returns the next min(limit, remaining) rows in order |
| Lazy.PageAt | controller/src/lazy.rs:25-42 | a page is yielded exactly when the query is implemented, the offset is inside the table and the chunk size is positive |
| Lazy.LazyChunks.constructor | controller/src/lib.rs:57-66 | `users_by_chunks` / `items_by_chunks` start a pager at offset 0 |
| Lazy.LazyChunks.Next | controller/src/lazy.rs:25-42 | `next` yields the page at the current offset, `None` for an empty page or a failed query, and moves on by one chunk in every case |
| Lazy.LazyChunks.Nth | controller/src/lazy.rs:44-47 | `nth` yields page n counted from the start, whatever was read before |
| Lazy.FlattenAppend | controller/src/lazy.rs:25-42 | pages read one after the other concatenate |
| Lazy.FlattenChunks | controller/src/lazy.rs:25-42 | the pages put back together are the whole table, each row once and in order |
| Lazy.ChunkSizes | controller/src/lazy.rs:25-42 | every page holds between 1 and `chunk_size` rows, and all but the last exactly `chunk_size` |
| Lazy.PageIsChunk | controller/src/lazy.rs:44-47 | page k exists exactly when k · size is inside the table, and then it is the k-th chunk |
| Lazy.ReadAll | controller/src/lazy.rs:25-42 | a `for` loop over a fresh pager sees exactly the table's consecutive chunks and ends, and sees nothing when the query is not implemented or the chunk size is 0 |
| Lazy.ChunkedUsersExample | controllers/shelves/src/lib.rs:207-218 | 278858 users in pages of 80000 come as three full pages, one of 38858, and then nothing |
| MatrixChunks.Rated | engine/src/chunked_matrix.rs:112-124 | the chunk's items are exactly the page's items that someone rated, each with its raters |
| MatrixChunks.RowAt | engine/src/chunked_matrix.rs:151-170 | every row item of a finished chunk stands once in the fill order, and its row is the one filled at that point |
| MatrixChunks.BeforeOrder | engine/src/chunked_matrix.rs:151-170 | of two rows, the one filled first counts as earlier for the other and not the other way round |
| MatrixChunks.BeforeIsEarlier | engine/src/chunked_matrix.rs:151-170 | the rows handled before a row are exactly those the outer loop filled earlier than it |
| MatrixChunks.FillRow | engine/src/chunked_matrix.rs:154-168 | the inner loop fills row `a` with the metric's value for every column item it does not skip and on which the metric succeeds, then sets the diagonal, touching no other row; as written it skips every item that already has a row, and with the corrected test only when `a` is a column item too |
| MatrixChunks.FillingStep | engine/src/chunked_matrix.rs:151-170 | one row more keeps the outer loop's invariant |
| MatrixChunks.FillingDone | engine/src/chunked_matrix.rs:151-170 | once every row item is handled the chunk is built |
| MatrixChunks.Fill | engine/src/chunked_matrix.rs:151-170 | the nested loops build a chunk holding exactly the row items, each row as the metric gives it for the columns it does not skip, whatever order the hash maps are walked in, for the loop as written and for the corrected one |
| ChunkedMatrices.ChunkedMatrix.SimilarityMatrix | engine/src/chunked_matrix.rs:57-68 | `SimilarityMatrix::new` starts two pagers over the items table with the given chunk sizes and no chunk |
| ChunkedMatrices.ChunkedMatrix.DeviationMatrix | engine/src/chunked_matrix.rs:218-228 | `DeviationMatrix::new` does the same with the slope-one metric |
| ChunkedMatrices.ChunkedMatrix.OptimizeChunksSize | engine/src/chunked_matrix.rs:83-86 | with the optimisation switched off nothing changes |
| ChunkedMatrices.ChunkedMatrix.CalculateChunk | engine/src/chunked_matrix.rs:101-175 | `calculate_chunk` fails with `IndexOutOfBound` for a missing row or column page and with a database error when a query fails, leaving the old chunk; otherwise the chunk becomes the one built from the two pages |
| ChunkedMatrices.ChunkedMatrix.GetValue | engine/src/chunked_matrix.rs:177-193 | `get_value` answers exactly when the pair is in the chunk from one side or the other: the cell (a, b) when row `a` holds it, otherwise the cell (b, a), as is for the similarity matrix and negated for the deviation matrix |
| ChunkedMatrices.Lookup | engine/src/chunked_matrix.rs:177-193 | `get_value` finds a value exactly when the pair is in the chunk from one side or the other; it prefers row `a`, and a value read from row `b` is returned as is for similarities and negated for deviations |
| ChunkedMatrices.ChunkAnswers | engine/src/chunked_matrix.rs:151-193 | whatever the fill order, a chunk answers the diagonal for a row item against itself, the metric's value for a pair the fill visits (nothing exactly when the metric fails, for a metric that reads the same from both sides), and nothing for a pair it does not visit |
| ChunkedMatrices.GetValueAnswers | engine/src/chunked_matrix.rs:151-193 | the same for the chunk `calculate_chunk` leaves, and in particular `get_value` returns nothing for a row item that is not a column item against a row item filled before it that is a column item |
| ChunkedMatrices.LostPairExample | engine/src/chunked_matrix.rs:154-158 | rows {2, 3} and columns {0, 1, 2} with row 2 filled first: the chunk built as written has no cell for (3, 2), though the similarity is defined |
| ChunkedMatrices.GuardedChunkAnswers | engine/src/chunked_matrix.rs:151-193 | with the corrected skip, every pair of a row item and a column item, in either order, is answered with the metric's value whatever the fill order |
| SimilarityMatrices.SimilarityMatrix.constructor | engine/src/similarity_matrix.rs:31-40 | the older matrix also starts two pagers at offset 0 over the items table |
| SimilarityMatrices.SimilarityMatrix.GetChunk | engine/src/similarity_matrix.rs:56-118 | `get_chunk` returns the chunk built from the two pages exactly when both exist and the queries succeed, and otherwise nothing |
| ParserBasics.SpanLength | src/parser/basics.rs:12 | the `take_while` span: every character in it satisfies the predicate and the next one, if any, does not |
| ParserBasics.SpanOfPrefix | src/parser/basics.rs:12 | a run of matching characters followed by a non-matching one is exactly the span |
| ParserBasics.ParseIdent | src/parser/basics.rs:11-13 | `parse_ident` succeeds exactly when the input starts with an identifier character, and then splits the input into the longest identifier prefix and the rest |
| ParserBasics.ParseIdentOf | src/parser/basics.rs:11-13 | an identifier followed by a non-identifier character parses back to itself and the rest |
| ParserBasics.ParseString | src/parser/basics.rs:15-17 | `parse_string` returns a non-empty body without quotes, and the input is that body between quotes followed by the rest |
| ParserBasics.ParseStringOf | src/parser/basics.rs:15-17 | any non-empty quote-free body between quotes parses back to itself |
| ParserBasics.ParseNumber | src/parser/basics.rs:19-21 | `parse_number` reads the longest run of digits as a decimal number, failing exactly when there is no digit or the value exceeds the i64 range |
| ParserBasics.ParseNumberOf | src/parser/basics.rs:19-21 | the decimal spelling of any number within the i64 range parses back to that number |
| ParserBasics.ParseSeparator | src/parser/basics.rs:23-29 | `parse_separator` consumes blanks, one comma and blanks, and fails exactly when the first non-blank is not a comma |
| ParserBasics.ParseSeparatorOf | src/parser/basics.rs:23-29 | any blanks around a comma parse as a separator, leaving the rest |
| ParserBasics.SeparatorAt | src/parser/basics.rs:23-29 | a comma after the leading blanks gives the separator and leaves what follows the trailing blanks |
| ParserBasics.IdentExample | src/parser/basics.rs:35-40 | "ident_is-ok" is one identifier |
| ParserBasics.IdentStopsExample | src/parser/basics.rs:42-45 | "this is not ok" gives "this" and leaves " is not ok" |
| ParserBasics.StringExample | src/parser/basics.rs:48-53 | a quoted string with a comma and accented letters gives its body |
| ParserBasics.StringStopsExample | src/parser/basics.rs:55-58 | "'holo' #wed2@ws" gives "holo" and leaves " #wed2@ws" |
| ParserBasics.NumberExample | src/parser/basics.rs:61-66 | "12345" gives 12345 |
| ParserBasics.NumberStopsExample | src/parser/basics.rs:68-70 | "12c3" gives 12 and leaves "c3" |
| Parser.DatabaseFrom | src/parser.rs:28-39 | a name converts only to the database displayed with that name; any other name is the `unreachable!` panic |
| Parser.DatabaseRoundTrip | src/parser.rs:28-53 | every database converts back from its displayed name, and that name is an identifier |
| Parser.DatabaseName | src/parser.rs:41-53 | every database is displayed as an identifier, so `connect` can read it |
| Parser.Tag | src/parser.rs:16 | nom's `tag` succeeds exactly when the input starts with the tag, and leaves what follows |
| Parser.FirstTag | src/parser.rs:136-154 | `alt` over tags returns a tag that starts the input, and fails only when none does |
| Parser.FirstTagOf | src/parser.rs:136-154 | a tag is chosen when no earlier tag starts the input |
| Parser.TagFound | src/parser.rs:136-154 | a tag is chosen whatever follows it when every earlier tag differs from it somewhere |
| Parser.ParseOrder | src/parser.rs:98-101 | the Minkowski order read between parentheses fits an i64 |
| Parser.ParseUserMethod | src/parser.rs:80-108 | `parse_user_method` fails when no method name starts the input, and a Minkowski order it returns fits an i64 |
| Parser.UserMethodTagOf | src/parser.rs:81-90 | the eight method names are recognised in their own text whatever follows, despite shared prefixes such as `pearson_` and `jacc_` |
| Parser.ParseUserMethodOf | src/parser.rs:80-108 | every user method written out, `minkowski(p)` included, is read back whatever follows |
| Parser.ParseItemMethod | src/parser.rs:110-120 | `parse_item_method` succeeds exactly when the input starts with `slope_one` or `adj_cosine` |
| Parser.ParseItemMethodOf | src/parser.rs:110-120 | both item methods are read back from their names whatever follows |
| Parser.KeyOf | src/parser.rs:126-130 | the key has the identifier and the value read; it is custom exactly when the identifier is neither `id` nor `name` |
| Parser.ParseSearchBy | src/parser.rs:122-133 | `parse_searchby` returns a key whose written form `ident('value')` is exactly the input it consumed |
| Parser.EmptyKeyFails | src/parser.rs:122-133 | a key with nothing quoted between its parentheses is refused |
| Parser.ParseSearchByOf | src/parser.rs:122-133 | every key with an identifier and a non-empty quote-free value is read back whatever follows |
| Parser.ParseArg | src/parser.rs:218-229 | each argument parser returns an argument of the kind asked for |
| Parser.ParseArgOf | src/parser.rs:218-229 | every writable argument is read back from its text |
| Parser.ParseArgs | src/parser.rs:178-189 | the `tuple` of argument parsers with separators returns one argument of each kind asked for |
| Parser.ParseArgsOf | src/parser.rs:178-189 | arguments written with `, ` between them are read back whatever non-digit follows |
| Parser.ParseArgsStep | src/parser.rs:178-189 | one more argument and separator in front keeps the arguments readable |
| Parser.ParseChunkSize | src/parser.rs:226 | `opt(tuple((parse_separator, parse_int)))` never fails and consumes nothing when the chunk size is absent |
| Parser.ParseChunkSizeOf | src/parser.rs:226 | a written chunk size is read back, and an absent one is not invented |
| Parser.ParseCall | src/parser.rs:217-240 | the parenthesised argument list returns arguments of the kinds asked for, and a chunk size only where one is allowed |
| Parser.ParseCallOf | src/parser.rs:217-240 | every written argument list, with a chunk size where one is allowed, is read back whatever follows |
| Parser.KeywordIndex | src/parser.rs:136-154 | every statement keyword has a tag in the `alt` |
| Parser.KeywordTagOf | src/parser.rs:136-154 | every keyword is recognised in its own spelling whatever follows: `insert_user` is not shadowed by a shorter tag, nor `user_distance` by `user_knn` |
| Parser.KeywordSpelledAt | src/parser.rs:136-154 | each tag in the `alt` is the spelling of the keyword it selects |
| Parser.TagSpelled | src/parser.rs:136-154 | whichever tag the `alt` picks, it is the spelling of its keyword |
| Parser.ParseConnect | src/parser.rs:157-160 | `connect` panics only after an opening parenthesis, on a name that is no database, and what it reads is a `Connect` statement |
| Parser.ParseStatement | src/parser.rs:135-395 | `parse_statement` fails when no keyword starts the input, panics only on input starting with `connect(`, and a statement it returns has a keyword that starts the input |
| Parser.ParseAfter | src/parser.rs:156-392 | of all statements only `connect` can panic, and only on an opening parenthesis; a statement read carries the keyword recognised |
| Parser.Build | src/parser.rs:162-389 | the statement built for a keyword carries that keyword and an argument list, and a chunk size only for `user_knn` and `user_based_predict` |
| Parser.ParseArguments | src/parser.rs:162-389 | a statement read after a keyword with arguments has that keyword and arguments of the kinds it parses, and a chunk size only where one is allowed |
| Parser.ChunkOf | src/parser.rs:63-64 | only `user_knn` and `user_based_predict` carry a chunk size |
| Parser.ArgsOf | src/parser.rs:156-392 | a statement's arguments have the kinds its keyword parses, and the keyword builds the statement back from them |
| Parser.Render | src/parser.rs:135-154 | a statement's text starts with its keyword |
| Parser.StatementRoundTrip | src/parser.rs:135-395 | every statement without a score, with numbers within i64, is read back from its text whatever follows |
| Parser.InsertRoundTrip | src/parser.rs:340-341 | `insert_user` and `insert_item` are their keyword alone, whatever follows |
| Parser.InsertAlone | src/parser.rs:340-341 | after an insertion keyword nothing more is read |
| Parser.ConnectRoundTrip | src/parser.rs:157-160 | `connect(name)` is read back for every database |
| Parser.ConnectAfter | src/parser.rs:157-160 | after `connect` only the database name is read |
| Parser.ConnectText | src/parser.rs:157-160 | `connect` is written as its keyword and the database name in parentheses |
| Parser.KeywordThen | src/parser.rs:135-156 | once a keyword is recognised, the rest is parsed for that keyword |
| Parser.ConnectTail | src/parser.rs:157-160 | after `connect(`, an identifier is looked up as a database name: a known one gives the statement, any other panics |
| Parser.ConnectUnknownPanics | src/parser.rs:28-39 | `connect` with an identifier that names no database panics |
| Parser.ArgumentsRoundTrip | src/parser.rs:162-389 | every statement with an argument list is read back: keyword, arguments and chunk size |
| Parser.TrailingWhitespace | src/parser.rs:398 | the count of whitespace characters ending the line, all of them and no more |
| Parser.Trim | src/parser.rs:398 | `trim` leaves no whitespace at either end |
| Parser.ParseLine | src/parser.rs:397-406 | `parse_line` panics exactly when the trimmed line makes `parse_statement` panic |
| Parser.TrailingOfSuffix | src/parser.rs:398 | whitespace after a text that does not end in whitespace is counted exactly |
| Parser.TrimBlanks | src/parser.rs:398 | spaces around a text that neither starts nor ends with whitespace are trimmed away |
| Parser.RenderEdges | src/parser.rs:397-406 | a statement's text neither starts nor ends with whitespace |
| Parser.LineRoundTrip | src/parser.rs:397-406 | a statement alone on a line, with spaces around it, is read back |
| Parser.LineAlone | src/parser.rs:397-406 | a statement's text alone on a line is read back |
| Parser.LineRejectsTrailing | src/parser.rs:397-406 | anything but whitespace after a statement makes the line fail without a panic |
| Parser.StatementAlone | src/parser.rs:135-395 | a statement's text alone leaves nothing unread |
| Parser.LineFails | src/parser.rs:397-406 | a line that is no statement is rejected without a panic |
| Parser.KeyArgumentFails | src/parser.rs:162-175 | a keyword whose first argument is a key fails on text that is no key |
| Parser.ConnectExample | src/parser.rs:425-431 | `connect(simple-movie)` gives `Connect(SimpleMovie)` |
| Parser.MoveToExample | src/parser.rs:593-599 | `move_to(10, 1)` gives `MatrixMoveTo(10, 1)` |
| Parser.UserKnnExample | src/parser.rs:515-521 | `user_knn(4, id('324x'), minkowski(3), 10)` gives the statement with chunk size 10 |
| Parser.UserKnnRender | src/parser.rs:515-521 | that statement is written exactly as in the unit test |
| Parser.ValidLineExample | src/parser.rs:607-619 | the unit test's valid line gives `UserKnn(5, name('Patrick C'), cosine, None)` |
| Parser.ValidLineRender | src/parser.rs:607-619 | that statement is written exactly as in the unit test |
| Parser.InvalidLineExample | src/parser.rs:601-605 | `query_user(id())xx` is rejected |
| Parser.InvalidLineKey | src/parser.rs:122-133 | the empty key of the invalid line is refused |
| SearchKeys.Display | controller/src/searchby.rs:29-37 | the key is displayed as its name followed by its value in parentheses, for all three variants |
| SearchKeys.UndisplayDisplay | controller/src/searchby.rs:29-37 | the display can be read back into key and value whenever the key contains no `(` |
| SearchKeys.DisplayCollides | controller/src/searchby.rs:29-37 | a custom key named `id` or `name` is displayed exactly as the dedicated variant, though the two keys differ |
| Values.FromStr | controller/src/values.rs:36-79 | `Value::from_str` returns a value of the type asked for, and every failure is a `ValueConvert` error |
| Values.AsString | controller/src/values.rs:81-86 | `as_string` succeeds exactly on a string value and then returns the stored text, and otherwise reports `CastingValue("String")` |
| Values.AsBool | controller/src/values.rs:88-93 | `as_bool` succeeds exactly on a boolean value and then returns the stored flag, and otherwise reports `CastingValue("bool")` |
| Values.AsI16 | controller/src/values.rs:95-100 | `as_i16` succeeds exactly on an i16 value and then returns the stored number, and otherwise reports `CastingValue("i16")` |
| Values.AsI32 | controller/src/values.rs:102-107 | `as_i32` succeeds exactly on an i32 value and then returns the stored number, and otherwise reports `CastingValue("i32")` |
| Values.AsI64 | controller/src/values.rs:109-114 | `as_i64` succeeds exactly on an i64 value and then returns the stored number, and otherwise reports `CastingValue("i64")` |
| Values.AsF64 | controller/src/values.rs:116-121 | `as_f64` succeeds exactly on a double value and then returns the stored number, and otherwise reports `CastingValue("f64")` |
| Values.StringRoundTrip | controller/src/values.rs:130-138 | any string is stored as given and read back unchanged |
| Values.BoolLiterals | controller/src/values.rs:39-47 | exactly `true`, `1`, `false` and `0` are booleans, the first two true |
| Values.Int16RoundTrip | controller/src/values.rs:49-54 | every i16 survives printing, conversion and `as_i16`; values outside the range are refused with the overflow's message in its direction |
| Values.Int32RoundTrip | controller/src/values.rs:56-61 | every i32 survives printing, conversion and `as_i32`; values outside the range are refused with the overflow's message |
| Values.Int64RoundTrip | controller/src/values.rs:63-68 | every i64 survives printing, conversion and `as_i64`; values outside the range are refused with the overflow's message |
| Values.DoubleRoundTrip | controller/src/values.rs:70-75 | a text `f64::from_str` accepts is stored as a double that `as_f64` returns unchanged; a text it refuses gives a `ValueConvert` error carrying its message |
| Values.IntegerExamples | controller/src/values.rs:150-178 | `as_i16` of "123" converted to i16 gives 123, and `as_i32` and `as_i64` of "1234" give 1234 |
| Decimal.DigitChar | controller/src/values.rs:49-68 | the digit printed for a value below ten reads back as that value |
| Decimal.Scan | controller/src/values.rs:49-68 | the digit loop of integer parsing never returns a value above its limit |
| Decimal.FoldSnoc | controller/src/values.rs:49-68 | one more digit multiplies the value by ten and adds the digit |
| Decimal.ScanDigits | controller/src/values.rs:49-68 | on digits alone the loop returns their value, or overflow once it passes the limit |
| Decimal.ScanNonDigit | controller/src/values.rs:49-68 | a non-digit anywhere makes integer parsing fail |
| Decimal.Digits | controller/src/values.rs:49-68 | the decimal rendering of a natural number is a non-empty run of digits without a leading zero |
| Decimal.DigitsValue | controller/src/values.rs:49-68 | the rendering of a number reads back as that number |
| Decimal.ParseInt | controller/src/values.rs:49-68 | integer parsing for a signed type only returns values within the type's range |
| Decimal.ParseShow | controller/src/values.rs:49-68 | parsing the printed form of an integer gives it back within the range, and the overflow in the right direction outside it |
| Decimal.ParseIntSound | controller/src/values.rs:49-68 | a successful parse is an optional sign followed by digits denoting the value |

## Left out

- Database access, connection errors and I/O. A controller query that can fail is modelled by an `answered` flag where its failure changes the outcome, and otherwise by the `Store` value.
- Logging, `println!` output, timing, and the command-line loop that reads standard input are not modelled.
- Floating point rounding, NaN propagation and infinities are not modelled beyond the `NonFinite` marker. `sqrt` and `powf` are an abstract root, not IEEE operations.
- Integer widths: `usize` counters and `u64`/`i64` keys are unbounded integers. Overflow is modelled only where the source reports it: integer parsing, and the `i64` bound on parsed numbers.
- Heap internals: `BinaryHeap`'s array layout is not modelled. When several kept entries tie for worst, the source evicts whichever of them sits at the root; the model evicts the first of them in its sequence (`KnnSelection.WorstIndex`), so the kept set is the same up to which tied entry leaves.
- Knn.Knn.Update: requires `k >= 1` whenever some candidate scores, because the source's `peek().unwrap()` on an empty full heap panics when k is 0; the same holds for RecommendKnn.Knn.Update and for EngineUsers.UserBasedPredict, whose requires `k >= 1 || scored == []` is the one Scan carries; EngineUsers.UserKnn needs no such requirement, because it returns `EmptyKNearestNeighbors` for k = 0 before scanning.
- EngineItems.ItemDistance: requires both items to have raters, because indexing `users_who_rated[&id]` panics otherwise.
- EngineItems.SlopeOnePredict: requires a positive chunk size, because `chunks(0)` panics; it also requires the target item to have raters, for the same indexing reason as above.
- EngineItems.AdjCosinePredict: requires the target item to have raters. The source indexes `users_who_rated[&item_id]` only inside the page loop, when a page holds an item the user rated, so a user who rated no paged item gets `DivisionByZero` from the source even for an item without raters; the model excludes that case too.
- The adjusted-cosine mean cache (`shrink_means`, `has_mean_for`, `create_partial_users`, `means_for`, `partial_users_chunk_size`) is not modelled; the metric is a parameter that already knows every user's mean.
- Slope-one chunk grouping: `slope_one_predict` visits the user's rated items in chunks, and the model sums over them as one set, since the result does not depend on the grouping.
- ChunkedMatrices.ChunkedMatrix.OptimizeChunksSize: requires the optimisation to be switched off, because `approximate_chunk_size` is `todo!()` and panics, so the chunk-halving loop after it is not modelled.
- ChunkedMatrices.GetValueAnswers: states the metric's value only for pairs on which the metric reads the same from both sides (`Reversible`), and only for the pairs the fill visits (`Visits`); a pair it does not visit, which the loop as written leaves out when the row and column pages overlap only in part, gets nothing (see Findings). The same holds for ChunkedMatrices.ChunkAnswers and ChunkedMatrices.GuardedChunkAnswers, where with the corrected skip every pair of a row item and a column item is visited.
- `ratings_by` for a user the table does not hold returns an empty map rather than a database error.
- Parsing floating-point literals is a parameter (`float`), since `parse_float` is not part of this model. src/parser.rs imports `parse_int`, which src/parser/basics.rs does not define; the model reads it as `parse_number`.
- Values.FromStr: takes `f64::from_str` as a parameter, and does not model the text of its error messages.
- ParserBasics.ParseIdent: accepts ASCII letters and digits, `_` and `-` only, where Rust's `is_alphanumeric` also accepts other Unicode letters and digits.
- The concrete controllers (books, shelves, movie-lens and others) are not modelled beyond the example of chunked users. The `Controller` trait's default methods are modelled as functions of `Store`.
- The configuration file and its loading are not modelled; the values read from it are parameters.
- EngineUsers.Scan: offers the candidates to the heap in the order of the `Store`'s users table, where the source iterates the `MapedRatings` hash map that `maped_ratings_except` and `maped_ratings_by` return (engine/src/lib.rs:155, :204), in an unspecified order; the kept neighbours can differ only among candidates tied at the worst kept distance. The same holds for EngineUsers.UserKnn and EngineUsers.UserBasedPredict, which call it.
- UserDistances.MinkowskiDistance: requires p ≠ 0, because the source panics with "Received p = 0" for p = 0 (engine/src/distances/users.rs:107-109), although the parser accepts `minkowski(0)`; through `Method.Allowed()` the same requirement applies to UserDistances.Distance and to every EngineUsers member that takes a user method.
- LegacyDistances.MinkowskiDistance: requires p ≠ 0, for the same panic in engine/src/distances.rs:91-93 and recommend/src/distances.rs:132-134.
- UserDistances.MinkowskiDistance: raises each difference to the unbounded p, whereas engine/src/distances/users.rs:113 calls `powi(p as i32)`, which keeps only the low 32 bits of the `usize` read as a signed number: for p ≥ 2^31 the source uses another, possibly negative or zero, exponent (p = 2^32 gives exponent 0), while the root is still taken with the full p.
- LegacyDistances.MinkowskiDistance: raises to the unbounded p, whereas engine/src/distances.rs:97 and recommend/src/distances.rs:138 call `powi(p as i32)`, which truncates p to 32 bits for p ≥ 2^31 as above.
- Records.MinkowskiDistance: raises to the unbounded p, whereas recommend/src/record.rs:98 calls `powi(p as i32)`, which truncates p to 32 bits for p ≥ 2^31 as above.
- `SimilarityMatrix::optimize_chunks` (engine/src/similarity_matrix.rs:46-55) is not modelled: its loop condition calls `approximate_chunk_size`, which is `todo!()`, so every call panics.

## Findings

| source | as written | input that shows it | evidently intended | confidence | as-written member | corrected member |
|---|---|---|---|---|---|---|
| recommend/src/record.rs:134 | the cosine's dot product is folded with `*=` starting from one, so it is the product of the terms | the record {0: 1, 1: 1} against itself gives 0.5 | the dot product is a sum, as in the engine's `cosine_similarity`, giving 1 | not executed | Records.CosineAsWrittenExample | Records.CorrectedCosineAgrees |
| recommend/src/record.rs:165 | the covariance is folded with `*=` starting from one | the record {0: 1, 1: 3} against itself gives 0.5 | the covariance is a sum, as in the engine's `pearson_correlation`, giving 1 | not executed | Records.PearsonAsWrittenExample | Records.CorrectedPearsonAgrees |
| engine/src/lib.rs:235-244 | the prediction divides by the total weight without checking it | one neighbour with Pearson approximation 0 and rating 4 gives NaN, returned as a prediction | a zero total weight is reported as `DivisionByZero` | not executed | EngineUsers.UnguardedExample | EngineUsers.GuardedUserBasedPredict |
| engine/src/chunked_matrix.rs:154-158 | row `a` skips every column item that already has a row; when `a` is not a column item, that earlier row holds no cell for `a` either, so the pair is computed from neither side; the same loop is at engine/src/chunked_matrix.rs:289-293 and engine/src/similarity_matrix.rs:97-101 | `enter_matrix(2, 3, adj_cosine)` then `move_to(1, 0)` over four rated items: rows {2, 3}, columns {0, 1, 2}; if row 2 is filled first, `get_value(3, 2)` is None though the similarity is defined | skip an item with a row only when `a` is itself a column item, so that every pair of a row item and a column item is answered | not executed | ChunkedMatrices.LostPairExample | ChunkedMatrices.GuardedChunkAnswers |
