# Deal scorer and customer-pattern detector, modelled in Dafny

This project models the logic inside two React panels.

- `DealScorer.tsx` holds six weighted criteria, each with a score the user sets with a slider. It folds them into one overall score, shows that score in one of three tiers, and can run a simulated "AI analysis" that nudges every score at random and clamps it.
- `CustomerPatternDetector.tsx` is a **mock**: it reads no transaction data. It fabricates five merchants and, for each merchant that is eligible, a list of "upgrade candidates". It sorts the candidates by transaction count and reveals the sorted list five entries at a time, as if detection were streaming.

Files:

- `deal_scorer.dfy` (module `DealScorer`) covers the deal-scoring panel, as functions over `seq<Criterion>` with lemmas about them. The panel's criteria state is replaced wholesale on every change, so no class is needed.
- `pattern_detector.dfy` (module `CustomerPatternDetector`) covers the pattern panel:
  - the merchant and candidate records;
  - `generateMockData` as a method that settles an array of merchants in place;
  - `generatePatternDetections` as a method with the nested push loops, followed by an in-place sort;
  - `runPatternDetection` as a method of the class `PatternDetector`. Its fields are the component's four state values plus a `timeline`. The timeline records the state on screen at every wait instead of sleeping.
- `stable_sort.dfy` (module `StableSort`) is the stable sort into descending key order that `Array.prototype.sort` performs with the comparator `(a, b) => b.totalTransactions - a.totalTransactions`. The ECMAScript 2019 language specification requires this sort to be stable. The specification is insertion sort on sequences (`SortDesc`). The array method `SortByKeyDesc` is proved to compute it.
- `decimal.dfy` (module `Decimal`) is the decimal text of a natural number. The panels use it for `M${k}`, `C${id}_${i}` and `Customer ${n}`. It is proved injective.

How the model handles values the source gets from outside:

- **Random draws.** Every `Math.random()` call becomes a value the caller supplies, with its range as a precondition. The integer draws arrive already scaled and floored as the source does it, for example a transaction draw in [0, 100000). The three fractional draws of a candidate (weight, rank and percentile) arrive raw in [0, 1), and `Fabricate` scales them as the source does, without flooring.
- **Candidate draws.** These are supplied per merchant, as one list per merchant.
- **Scores.** Deal scores and weights are integers: the slider moves in steps of 5 up to 100, and the weights are whole percentages. That makes `Math.round(Σ score·weight/100)` exactly `(S + 50) / 100` in floor division, where S = Σ score·weight.

## Model

| member | source | states |
|---|---|---|
| DealScorer.DefaultCriteria | src/components/DealScorer.tsx:32-81 | The six initial criteria with the source's ids, names, descriptions, weights (25, 20, 20, 15, 10, 10) and scores (70, 85, 60, 90, 55, 75); their facts are proved by DefaultCriteriaFacts. |
| DealScorer.DefaultCriteriaFacts | src/components/DealScorer.tsx:32-81 | The initial criteria are six, with distinct ids, scores in [0, 100], non-negative weights, and weights summing to 100. |
| DealScorer.DefaultWeightSum | src/components/DealScorer.tsx:32-81 | The default weights 25, 20, 20, 15, 10, 10 sum to 100. |
| DealScorer.DefaultIdsDistinct | src/components/DealScorer.tsx:32-81 | The six default ids are pairwise distinct. |
| DealScorer.RunningTotal | src/components/DealScorer.tsx:93-95 | The reduce fold from 0, adding score·weight/100 for each criterion in list order, on exact reals; RunningTotalIsScaledSum proves it equals (Σ score·weight) / 100. |
| DealScorer.MathRound | src/components/DealScorer.tsx:96 | Math.round: the result is the integer r with r − 0.5 ≤ x < r + 0.5, so halves round up. |
| DealScorer.OverallScore | src/components/DealScorer.tsx:92-97 | The integer result equals Math.round (floor of x + 0.5) of the exact fold total + score·weight/100 from 0. It lies within 0.5 of that fold, and the empty list scores 0. |
| DealScorer.RunningTotalIsScaledSum | src/components/DealScorer.tsx:93-95 | The reduce fold equals (Σ score·weight) / 100 exactly. |
| DealScorer.RoundOfHundredths | src/components/DealScorer.tsx:96 | For every integer s, Math.round(s / 100) is (s + 50) / 100 in floor division. |
| DealScorer.DefaultOverallScore | src/components/DealScorer.tsx:92-97 | With the default criteria, Σ score·weight is 7300 and the overall score is 73. |
| DealScorer.WeightedSumBounds | src/components/DealScorer.tsx:93-95 | If every score lies in [lo, hi] and weights are non-negative, then lo·Σweight ≤ Σ score·weight ≤ hi·Σweight. |
| DealScorer.OverallScoreWithinScores | src/components/DealScorer.tsx:92-97 | With non-negative weights summing to 100, the overall score lies between the lowest and the highest score. |
| DealScorer.OverallScoreInRange | src/components/DealScorer.tsx:92-97 | With scores in [0, 100] and non-negative weights summing to 100, the overall score fits the 0–100 progress bar. |
| DealScorer.UpdateScore | src/components/DealScorer.tsx:86-90 | Length, order, ids, names, descriptions and weights are kept. Every entry with the id gets exactly the new score, with no clamping. Every other entry is unchanged. |
| DealScorer.UpdateScoreLastWins | src/components/DealScorer.tsx:86-90 | Of two updates to one id the later wins; applying the same update twice equals applying it once. |
| DealScorer.UpdateScoreCommutes | src/components/DealScorer.tsx:86-90 | Updates to different ids commute. |
| DealScorer.UpdateScoreKeepsWeightSum | src/components/DealScorer.tsx:86-90 | An update leaves the total weight unchanged. |
| DealScorer.UpdateScoreWeightedSum | src/components/DealScorer.tsx:86-90 | With distinct ids, updating criterion k moves Σ score·weight by exactly (new − old)·weight_k. |
| DealScorer.UpdateScoreMissesAbsentId | src/components/DealScorer.tsx:86-90 | An update to an id no criterion has changes nothing. |
| DealScorer.TierOf | src/components/DealScorer.tsx:99-115 | The three bands shared by the classifiers: High from 80, Medium from 60 to 79, Low below 60; TiersAgree ties each classifier to it. |
| DealScorer.ScoreColor | src/components/DealScorer.tsx:99-103 | "text-success" from 80, "text-warning" from 60, "text-destructive" below. |
| DealScorer.ScoreIcon | src/components/DealScorer.tsx:105-109 | CheckCircle from 80, AlertTriangle from 60, XCircle below. |
| DealScorer.Recommendation | src/components/DealScorer.tsx:111-115 | The three recommendation texts of the source, chosen at 80 and 60. |
| DealScorer.BadgeVariant | src/components/DealScorer.tsx:202 | The badge variant "default" from 80, "secondary" from 60, "destructive" below. |
| DealScorer.TiersAgree | src/components/DealScorer.tsx:99-115 | For every score, the colour, the icon, the recommendation text and the badge variant (line 202) pick the same tier. That tier is ≥ 80 (success/CheckCircle/"Highly Recommended…"/default), 60–79 (warning/AlertTriangle/"Proceed with Caution…"/secondary) or < 60 (destructive/XCircle/"Not Recommended…"/destructive), in both directions. |
| DealScorer.TierBoundaries | src/components/DealScorer.tsx:99-115 | The thresholds are inclusive: 80 is high, 79 medium, 60 medium, 59 low. |
| DealScorer.DefaultRecommendation | src/components/DealScorer.tsx:111-115 | The default criteria fall in the "Proceed with Caution" tier. |
| DealScorer.Clamp | src/components/DealScorer.tsx:123 | max(20, min(100, x)) lies in [20, 100], and is x when x is in range, 20 below the range and 100 above it. |
| DealScorer.AnalyzeAI | src/components/DealScorer.tsx:117-127 | Length, ids, names, descriptions and weights are kept. Every new score lies in [20, 100]. It equals old + delta whenever that value is in range, 20 when old + delta is below 20 and 100 when it is above 100. |
| DealScorer.AnalyzeAIStepBounded | src/components/DealScorer.tsx:123 | A delta in [−10, 10] moves an in-range score by at most 10. |
| DealScorer.AnalyzeAIKeepsWeightSum | src/components/DealScorer.tsx:121-124 | An analysis leaves the total weight unchanged. |
| DealScorer.AnalyzeAIOverallScore | src/components/DealScorer.tsx:117-127 | After an analysis, criteria whose weights are non-negative and sum to 100 have an overall score in [20, 100]. |
| Decimal.NatToString | src/components/CustomerPatternDetector.tsx:49 | The decimal text of n is non-empty, all digits, and starts with '0' exactly when n is 0. |
| Decimal.DigitsValueOfNatToString | src/components/CustomerPatternDetector.tsx:49 | Reading the decimal text back gives n. |
| Decimal.NatToStringInjective | src/components/CustomerPatternDetector.tsx:75 | Different numbers have different decimal texts. |
| Decimal.NatToStringAvoids | src/components/CustomerPatternDetector.tsx:75 | A decimal text never contains a non-digit such as '_'. |
| CustomerPatternDetector.MerchantId | src/components/CustomerPatternDetector.tsx:49 | The id of the merchant at index k is "M" followed by the decimal text of k + 1; MerchantIdInjective proves distinct indices give distinct ids. |
| CustomerPatternDetector.InitialMerchants | src/components/CustomerPatternDetector.tsx:48-55 | The five merchants built from the name list: id, name, transactions draw + 30000, not eligible, top-customers draw + 100, no candidates. |
| CustomerPatternDetector.Settle | src/components/CustomerPatternDetector.tsx:58-63 | A merchant becomes eligible exactly when its transactions exceed 50000, and only then takes the candidate draw + 5 as its count; EligibilityIsStrict pins the boundary. |
| CustomerPatternDetector.MockMerchants | src/components/CustomerPatternDetector.tsx:45-66 | The list generateMockData returns: each initial merchant settled with its own draws; MockMerchantsFacts states its ranges and shape. |
| CustomerPatternDetector.GenerateMockData | src/components/CustomerPatternDetector.tsx:45-66 | The in-place settling loop over the merchant array returns exactly MockMerchants(draws). |
| CustomerPatternDetector.MockMerchantsFacts | src/components/CustomerPatternDetector.tsx:46-62 | From draws in their ranges: there are five merchants with ids M1..M5 and the names in list order. totalTransactions lies in [30000, 129999] and topCustomers in [100, 599]. A merchant is eligible iff totalTransactions > 50000. upgradesCandidates is 0 when ineligible and in [5, 19] when eligible. The ids are distinct and contain no '_'. |
| CustomerPatternDetector.MerchantIdInjective | src/components/CustomerPatternDetector.tsx:49 | Distinct positions get distinct merchant ids. |
| CustomerPatternDetector.EligibilityIsStrict | src/components/CustomerPatternDetector.tsx:59-62 | 50000 transactions is not eligible and keeps its count; 50001 is eligible and draws a count. |
| CustomerPatternDetector.MockMerchantsHaveDraws | src/components/CustomerPatternDetector.tsx:61-73 | Nineteen draws per merchant cover every candidate the inner loop fabricates. |
| CustomerPatternDetector.CandidateId | src/components/CustomerPatternDetector.tsx:75 | The id of candidate i of merchant m is "C", m's id, "_", then the decimal text of i + 1; CandidateIdInjective proves it determines m and i. |
| CustomerPatternDetector.Fabricate | src/components/CustomerPatternDetector.tsx:74-85 | The record pushed for one candidate: its id, "Customer " and the name draw, the merchant's id and name, transactions draw + 150, the raw draws scaled to weight·0.2 + 0.05, rank·10 + 90 and percentile·10, and "UPGRADE"; FabricateWellFormed states the ranges. |
| CustomerPatternDetector.CandidateCount | src/components/CustomerPatternDetector.tsx:72-73 | The inner loop runs upgradesCandidates times for an eligible merchant and not at all otherwise. |
| CustomerPatternDetector.MerchantCandidates | src/components/CustomerPatternDetector.tsx:72-86 | The candidates the inner loop pushes for one merchant, in index order: Fabricate of candidate i with the i-th draw, CandidateCount of them; BlockCandidates and BlockIdsUnique state their properties. |
| CustomerPatternDetector.Pushed | src/components/CustomerPatternDetector.tsx:71-88 | The list as pushed before sorting: merchant by merchant in list order, each merchant's candidates in index order; PushedLength, PushedCandidates and PushedIdsUnique state its properties. |
| CustomerPatternDetector.GeneratePatternDetections | src/components/CustomerPatternDetector.tsx:68-91 | The nested push loops followed by the in-place sort return exactly the stable descending sort of the pushed list. |
| CustomerPatternDetector.PushedLength | src/components/CustomerPatternDetector.tsx:71-88 | When no merchant has a negative upgradesCandidates, the pushed list's length is the sum of upgradesCandidates over eligible merchants. |
| CustomerPatternDetector.FabricateWellFormed | src/components/CustomerPatternDetector.tsx:74-85 | A candidate from valid draws has actionType "UPGRADE", transactions in [150, 349], weight in [0.05, 0.25), rank in [90, 100) and weight percentile in [0, 10). |
| CustomerPatternDetector.BlockCandidates | src/components/CustomerPatternDetector.tsx:73-85 | From valid draws, every candidate of one merchant is well formed. It copies that merchant's id and name, and its id is C{merchantId}_{i+1} for one of the merchant's candidate numbers. |
| CustomerPatternDetector.PushedCandidates | src/components/CustomerPatternDetector.tsx:71-88 | From valid draws, every pushed candidate is well formed and comes from an eligible merchant. |
| CustomerPatternDetector.PushedCountOf | src/components/CustomerPatternDetector.tsx:71-88 | When no merchant has a negative upgradesCandidates, the number of pushed candidates with a given merchant id is the sum of the counts of the eligible merchants with that id. |
| CustomerPatternDetector.PushedCountPerMerchant | src/components/CustomerPatternDetector.tsx:71-88 | With distinct merchant ids and no negative upgradesCandidates, merchant k has upgradesCandidates candidates if eligible and none otherwise. |
| CustomerPatternDetector.CandidateIdInjective | src/components/CustomerPatternDetector.tsx:75 | An id C{m}_{i+1} with m free of '_' determines both m and i. |
| CustomerPatternDetector.CandidateIdSameMerchant | src/components/CustomerPatternDetector.tsx:75 | For one merchant id, any id at all, two candidate ids are equal only for the same candidate number. |
| CustomerPatternDetector.BlockIdsUnique | src/components/CustomerPatternDetector.tsx:73-75 | The candidates of one merchant have pairwise distinct ids, whatever characters the merchant id holds. |
| CustomerPatternDetector.PushedIdsShape | src/components/CustomerPatternDetector.tsx:71-88 | Every pushed id is C{m.id}_{i+1} for a merchant m and one of its candidate numbers i. |
| CustomerPatternDetector.PushedIdsUnique | src/components/CustomerPatternDetector.tsx:71-88 | With distinct merchant ids free of '_', all pushed ids are pairwise distinct. |
| CustomerPatternDetector.Transactions | src/components/CustomerPatternDetector.tsx:90 | The sort key of the comparator: a candidate's totalTransactions. |
| CustomerPatternDetector.InsertDescCountOf | src/components/CustomerPatternDetector.tsx:90 | Inserting a candidate raises its merchant's count by one and leaves every other merchant's count unchanged. |
| CustomerPatternDetector.SortDescCountOf | src/components/CustomerPatternDetector.tsx:90 | Sorting keeps every merchant's count of candidates. |
| CustomerPatternDetector.InsertDescUniqueIds | src/components/CustomerPatternDetector.tsx:90 | Inserting a candidate with a fresh id keeps ids distinct. |
| CustomerPatternDetector.SortDescUniqueIds | src/components/CustomerPatternDetector.tsx:90 | Sorting keeps ids pairwise distinct. |
| CustomerPatternDetector.DetectionsOfARun | src/components/CustomerPatternDetector.tsx:68-91 | For a run's merchants and candidates, both from valid draws, the candidate list is sorted and is a stable permutation of the pushed list. Its length is the sum of eligible counts, and each merchant gets exactly its count. Ids are unique, and every entry is well formed and comes from an eligible merchant. |
| StableSort.InsertDesc | src/components/CustomerPatternDetector.tsx:90 | Inserts x after the last entry whose key is at least x's; InsertDescPermutes, InsertDescSorted and InsertDescStable state its properties. |
| StableSort.SortDesc | src/components/CustomerPatternDetector.tsx:90 | The descending stable sort as insertion of the entries in list order; SortDescCorrect proves it sorted, a permutation and stable. |
| StableSort.SortByKeyDesc | src/components/CustomerPatternDetector.tsx:90 | The in-place insertion sort leaves the array equal to SortDesc of its old contents. |
| StableSort.InsertLast | src/components/CustomerPatternDetector.tsx:90 | Moving a[i] left past strictly smaller keys turns a[..i+1] into InsertDesc(a[i], a[..i]) and leaves the rest of the array alone. |
| StableSort.InsertDescSplit | src/components/CustomerPatternDetector.tsx:90 | x lands right after the last entry whose key is at least x's, when every entry after it is smaller. |
| StableSort.InsertDescPermutes | src/components/CustomerPatternDetector.tsx:90 | Inserting adds exactly one entry, x, as a multiset. |
| StableSort.InsertDescMember | src/components/CustomerPatternDetector.tsx:90 | Every entry after an insertion is x or was there before. |
| StableSort.InsertDescSorted | src/components/CustomerPatternDetector.tsx:90 | Inserting into a non-increasing list keeps it non-increasing. |
| StableSort.InsertDescStable | src/components/CustomerPatternDetector.tsx:90 | For every key, inserting keeps the entries with that key in order, x last among them. |
| StableSort.SortDescSorted | src/components/CustomerPatternDetector.tsx:90 | The sort's output is non-increasing in the key. |
| StableSort.SortDescPermutes | src/components/CustomerPatternDetector.tsx:90 | The sort's output is a permutation of its input, as a multiset. |
| StableSort.SortDescStable | src/components/CustomerPatternDetector.tsx:90 | For every key value, the entries with that key appear in input order. |
| StableSort.SortDescCorrect | src/components/CustomerPatternDetector.tsx:90 | The output is sorted, a permutation and stable. |
| StableSort.SortDescLength | src/components/CustomerPatternDetector.tsx:90 | Sorting keeps the length. |
| CustomerPatternDetector.Batches | src/components/CustomerPatternDetector.tsx:109-114 | The prefixes the loop publishes from index i: slice(0, i + 5), clamped at the end, then those from i + 5; BatchesShape gives their number and lengths. |
| CustomerPatternDetector.RevealBatches | src/components/CustomerPatternDetector.tsx:109-114 | The prefixes the loop publishes from index 0; RevealBatchesShape gives their number and lengths. |
| CustomerPatternDetector.BatchSnapshots | src/components/CustomerPatternDetector.tsx:111-113 | The states shown during the reveal, one busy state per batch, with that batch on screen and its length as totalDetections; BatchSnapshotsFacts states them. |
| CustomerPatternDetector.BatchesShape | src/components/CustomerPatternDetector.tsx:109-114 | From index i the loop publishes ceil((n − i)/5) batches, and batch k is the prefix of length min(i + 5k + 5, n). |
| CustomerPatternDetector.RevealBatchesShape | src/components/CustomerPatternDetector.tsx:109-114 | For n candidates there are ceil(n/5) batches, and batch k is the prefix of length min(5(k+1), n). An empty list publishes nothing, and the last batch is the whole list. Each batch but the last has length 5(k+1), is a prefix of the next, and is shorter than it by at most 5. It is shorter by exactly 5 unless the next batch is the last. |
| CustomerPatternDetector.BatchSnapshotsFacts | src/components/CustomerPatternDetector.tsx:109-114 | One state is shown per batch, and it is busy, with that batch on screen and totalDetections equal to the batch's length. |
| CustomerPatternDetector.RevealStep | src/components/CustomerPatternDetector.tsx:110-113 | One turn of the loop shows the batch from index i and then the batches from i + 5. |
| CustomerPatternDetector.RunTimeline | src/components/CustomerPatternDetector.tsx:93-117 | A run's timeline starts with the cleared busy state. Every state it shows is busy, with totalDetections equal to the number on screen. It holds 2 + ceil(n/5) states and ends with the whole list on screen, or the cleared state if n = 0. |
| CustomerPatternDetector.PatternDetector.constructor | src/components/CustomerPatternDetector.tsx:39-42 | The component starts with no merchants, no detections, not busy, with count 0. |
| CustomerPatternDetector.PatternDetector.RunPatternDetection | src/components/CustomerPatternDetector.tsx:93-117 | After a run, merchants are the mock merchants and the detections are the sorted candidate list, with totalDetections equal to its length and the busy flag down. The timeline gains exactly: the cleared busy state, the state with the new merchants, then one busy state per batch. So the timeline grows by 2 + ceil(n/5) states, starts with the cleared state, every new state is busy with totalDetections equal to the number on screen, and the last one shows the final list. |
| CustomerPatternDetector.PatternDetector.RevealInBatches | src/components/CustomerPatternDetector.tsx:109-114 | The loop keeps the merchants and the busy flag, ends with the whole list on screen (an empty list leaves the cleared results), and appends one state per batch to the timeline. |
| CustomerPatternDetector.WeightColor | src/components/CustomerPatternDetector.tsx:124-128 | "text-destructive" below 0.15, "text-warning" below 0.3, "text-success" otherwise. |
| CustomerPatternDetector.FabricatedWeightColor | src/components/CustomerPatternDetector.tsx:124-128 | A fabricated weight is never coloured success. It is destructive exactly below 0.15 and a warning otherwise. |

## Left out

- Rendering is not modelled: badges, sliders, tabs, icons as components, CSS classes, and the deal-name input with its `dealName` state. Only the values the markup computes are modelled: the tier helpers and the badge variant.
- React hooks are not modelled. That covers `useState` mechanics and the `useEffect` that runs a detection on mount.
- Timers are not modelled. The `setTimeout` delays and the `await` pauses are replaced by the recorded `timeline` in the pattern panel. In the deal panel (`analyzeAI`) they are dropped, along with the 2-second `isAnalyzing` flag around them.
- `Math.random` itself is not modelled: every draw is a parameter with a range precondition.
- Candidates draw from one list per merchant, not from one shared random stream. The model also takes draws the source never makes, and ignores them: a candidate-count draw for every merchant, eligible or not, and nineteen candidate draws per merchant, whatever its count.
- `detectionTime` is not modelled: it is `new Date().toLocaleString()`, the wall clock.
- Display formatting (`toFixed`, `toLocaleString`) is not modelled.
- The merchant progress-bar ratio `min(100, tx / 100000 · 100)` is presentation only and is not modelled.
- Floating point is not modelled:
  - `avgWeight`, `percentileRank` and `weightPercentile` are exact reals, used only for their ranges.
  - The overall score's fold is exact rational arithmetic, not IEEE-754.
- Concurrent or overlapping runs of `runPatternDetection` are not modelled; the source does not define them.
- AnalyzeAI: the source's delta `(Math.random() - 0.5) * 20` is a real in [−10, 10) and makes scores fractional. The model takes integer deltas, so its scores stay integers and the overall score keeps its exact integer form.
