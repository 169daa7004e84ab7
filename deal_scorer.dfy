/** The deal-scoring panel: six weighted criteria, each with a user-set score,
    folded into one overall score and classified into three recommendation tiers.
    Scores and weights are whole numbers here (the slider moves in steps of 5
    between 0 and 100, the weights are integer percentages). */
module DealScorer {

  /** One scoring criterion. The source's `icon` (a UI component) is not modelled. */
  datatype Criterion = Criterion(id: string, name: string, description: string, weight: int, score: int)

  /** The criteria the panel starts with. */
  function DefaultCriteria(): seq<Criterion> {
    [ Criterion("financial", "Financial Impact", "Revenue potential and profit margins", 25, 70),
      Criterion("strategic", "Strategic Value", "Alignment with business goals", 20, 85),
      Criterion("risk", "Risk Assessment", "Market and execution risks", 20, 60),
      Criterion("market", "Market Opportunity", "Market size and growth potential", 15, 90),
      Criterion("resources", "Resource Requirements", "Team and infrastructure needs", 10, 55),
      Criterion("timeline", "Timeline Feasibility", "Implementation timeline", 10, 75) ]
  }

  /** The default criteria are six, with distinct ids, scores in [0, 100] and
      non-negative weights that sum to 100. */
  lemma DefaultCriteriaFacts()
    ensures var cs := DefaultCriteria();
      && |cs| == 6
      && DistinctIds(cs)
      && WeightSum(cs) == 100
      && forall i :: 0 <= i < |cs| ==> 0 <= cs[i].score <= 100 && 0 <= cs[i].weight
  {
    DefaultWeightSum();
    DefaultIdsDistinct();
  }

  lemma DefaultWeightSum()
    ensures WeightSum(DefaultCriteria()) == 100
  {
    var cs := DefaultCriteria();
    assert cs[..0] == [];
    WeightSumStep(cs, 0);
    assert WeightSum(cs[..1]) == 25;
    WeightSumStep(cs, 1);
    assert WeightSum(cs[..2]) == 45;
    WeightSumStep(cs, 2);
    assert WeightSum(cs[..3]) == 65;
    WeightSumStep(cs, 3);
    assert WeightSum(cs[..4]) == 80;
    WeightSumStep(cs, 4);
    assert WeightSum(cs[..5]) == 90;
    WeightSumStep(cs, 5);
    assert cs[..6] == cs;
  }

  lemma DefaultIdsDistinct()
    ensures DistinctIds(DefaultCriteria())
  {
    var cs := DefaultCriteria();
    var heads := ["fi", "st", "ri", "ma", "re", "ti"];
    forall i, j | 0 <= i < j < |cs| ensures cs[i].id != cs[j].id {
      assert cs[i].id[..2] == heads[i] && cs[j].id[..2] == heads[j];
    }
  }

  ghost predicate DistinctIds(cs: seq<Criterion>) {
    forall i, j :: 0 <= i < j < |cs| ==> cs[i].id != cs[j].id
  }

  /** The sum of all weights. */
  function WeightSum(cs: seq<Criterion>): int {
    if cs == [] then 0 else WeightSum(cs[..|cs| - 1]) + cs[|cs| - 1].weight
  }

  /** The integer sum of score * weight, in the order `reduce` visits the list. */
  function WeightedSum(cs: seq<Criterion>): int {
    if cs == [] then 0
    else WeightedSum(cs[..|cs| - 1]) + cs[|cs| - 1].score * cs[|cs| - 1].weight
  }

  /** The source's fold `total + score * weight / 100` from 0, in exact arithmetic. */
  function RunningTotal(cs: seq<Criterion>): real {
    if cs == [] then 0.0
    else RunningTotal(cs[..|cs| - 1]) + (cs[|cs| - 1].score * cs[|cs| - 1].weight) as real / 100.0
  }

  lemma WeightSumStep(cs: seq<Criterion>, k: nat)
    requires k < |cs|
    ensures WeightSum(cs[..k + 1]) == WeightSum(cs[..k]) + cs[k].weight
  {
    assert cs[..k + 1][..k] == cs[..k];
  }

  lemma WeightedSumStep(cs: seq<Criterion>, k: nat)
    requires k < |cs|
    ensures WeightedSum(cs[..k + 1]) == WeightedSum(cs[..k]) + cs[k].score * cs[k].weight
  {
    assert cs[..k + 1][..k] == cs[..k];
  }

  /** JavaScript's Math.round: the nearest integer, halves rounded up. */
  function MathRound(x: real): (r: int)
    ensures r as real - 0.5 <= x < r as real + 0.5
  {
    (x + 0.5).Floor
  }

  /** The overall score: Math.round of the weighted fold, computed on integers
      as (S + 50) / 100 with S = sum of score * weight. */
  function OverallScore(cs: seq<Criterion>): (r: int)
    ensures r == MathRound(RunningTotal(cs))
    ensures r as real - 0.5 <= RunningTotal(cs) < r as real + 0.5
    ensures cs == [] ==> r == 0
  {
    RunningTotalIsScaledSum(cs);
    RoundOfHundredths(WeightedSum(cs));
    (WeightedSum(cs) + 50) / 100
  }

  lemma {:induction false} RunningTotalIsScaledSum(cs: seq<Criterion>)
    ensures RunningTotal(cs) == WeightedSum(cs) as real / 100.0
  {
    if cs != [] {
      RunningTotalIsScaledSum(cs[..|cs| - 1]);
    }
  }

  /** Rounding s / 100 to the nearest integer, halves up, is (s + 50) / 100 in
      floor division, for every integer s. */
  lemma RoundOfHundredths(s: int)
    ensures MathRound(s as real / 100.0) == (s + 50) / 100
  {
    var q := (s + 50) / 100;
    var x := s as real / 100.0 + 0.5;
    assert 100 * q <= s + 50 < 100 * q + 100;
    assert x == (s + 50) as real / 100.0;
    assert q as real <= x < q as real + 1.0;
    FloorIsUnique(x, q);
  }

  lemma FloorIsUnique(x: real, q: int)
    requires q as real <= x < q as real + 1.0
    ensures x.Floor == q
  {
  }

  /** The overall score of the default criteria. */
  lemma DefaultOverallScore()
    ensures WeightedSum(DefaultCriteria()) == 7300
    ensures OverallScore(DefaultCriteria()) == 73
  {
    var cs := DefaultCriteria();
    assert cs[..0] == [];
    WeightedSumStep(cs, 0);
    assert WeightedSum(cs[..1]) == 1750;
    WeightedSumStep(cs, 1);
    assert WeightedSum(cs[..2]) == 3450;
    WeightedSumStep(cs, 2);
    assert WeightedSum(cs[..3]) == 4650;
    WeightedSumStep(cs, 3);
    assert WeightedSum(cs[..4]) == 6000;
    WeightedSumStep(cs, 4);
    assert WeightedSum(cs[..5]) == 6550;
    WeightedSumStep(cs, 5);
    assert cs[..6] == cs;
  }

  // ---------------------------------------------------------------- bounds

  /** A weighted sum lies between the smallest and the largest score times the total weight. */
  lemma {:induction false} WeightedSumBounds(cs: seq<Criterion>, lo: int, hi: int)
    requires forall i :: 0 <= i < |cs| ==> lo <= cs[i].score <= hi && 0 <= cs[i].weight
    ensures lo * WeightSum(cs) <= WeightedSum(cs) <= hi * WeightSum(cs)
  {
    if cs != [] {
      var init, last := cs[..|cs| - 1], cs[|cs| - 1];
      WeightedSumBounds(init, lo, hi);
      MulMonotone(lo, last.score, last.weight);
      MulMonotone(last.score, hi, last.weight);
      assert WeightSum(cs) == WeightSum(init) + last.weight;
      assert WeightedSum(cs) == WeightedSum(init) + last.score * last.weight;
      MulDistributes(lo, WeightSum(init), last.weight);
      MulDistributes(hi, WeightSum(init), last.weight);
    }
  }

  lemma MulDistributes(a: int, b: int, c: int)
    ensures a * (b + c) == a * b + a * c
  {
  }

  lemma MulMonotone(a: int, b: int, w: int)
    requires a <= b && 0 <= w
    ensures a * w <= b * w
  {
  }

  /** With non-negative weights that sum to 100, the overall score is a
      weighted average: it lies between the lowest and the highest score. */
  lemma OverallScoreWithinScores(cs: seq<Criterion>, lo: int, hi: int)
    requires forall i :: 0 <= i < |cs| ==> lo <= cs[i].score <= hi && 0 <= cs[i].weight
    requires WeightSum(cs) == 100
    ensures lo <= OverallScore(cs) <= hi
  {
    WeightedSumBounds(cs, lo, hi);
  }

  /** With scores in [0, 100] and non-negative weights summing to 100, the
      overall score fits the 0-100 progress bar it is shown on. */
  lemma OverallScoreInRange(cs: seq<Criterion>)
    requires forall i :: 0 <= i < |cs| ==> 0 <= cs[i].score <= 100 && 0 <= cs[i].weight
    requires WeightSum(cs) == 100
    ensures 0 <= OverallScore(cs) <= 100
  {
    OverallScoreWithinScores(cs, 0, 100);
  }

  // ---------------------------------------------------------------- updateScore

  /** Sets the score of every criterion whose id is `id`; nothing is clamped. */
  function UpdateScore(cs: seq<Criterion>, id: string, newScore: int): (r: seq<Criterion>)
    ensures |r| == |cs|
    ensures forall i :: 0 <= i < |cs| ==>
      r[i].id == cs[i].id && r[i].name == cs[i].name &&
      r[i].description == cs[i].description && r[i].weight == cs[i].weight
    ensures forall i :: 0 <= i < |cs| && cs[i].id == id ==> r[i].score == newScore
    ensures forall i :: 0 <= i < |cs| && cs[i].id != id ==> r[i] == cs[i]
  {
    seq(|cs|, i requires 0 <= i < |cs| => if cs[i].id == id then cs[i].(score := newScore) else cs[i])
  }

  /** The later of two updates to the same id wins; in particular an update is idempotent. */
  lemma UpdateScoreLastWins(cs: seq<Criterion>, id: string, s1: int, s2: int)
    ensures UpdateScore(UpdateScore(cs, id, s1), id, s2) == UpdateScore(cs, id, s2)
    ensures UpdateScore(UpdateScore(cs, id, s2), id, s2) == UpdateScore(cs, id, s2)
  {
  }

  /** Updates to different ids commute. */
  lemma UpdateScoreCommutes(cs: seq<Criterion>, id1: string, s1: int, id2: string, s2: int)
    requires id1 != id2
    ensures UpdateScore(UpdateScore(cs, id1, s1), id2, s2) == UpdateScore(UpdateScore(cs, id2, s2), id1, s1)
  {
  }

  /** An update leaves the weights, and so their total, alone. */
  lemma {:induction false} UpdateScoreKeepsWeightSum(cs: seq<Criterion>, id: string, newScore: int)
    ensures WeightSum(UpdateScore(cs, id, newScore)) == WeightSum(cs)
  {
    if cs != [] {
      var r := UpdateScore(cs, id, newScore);
      UpdateScoreKeepsWeightSum(cs[..|cs| - 1], id, newScore);
      assert r[..|r| - 1] == UpdateScore(cs[..|cs| - 1], id, newScore);
    }
  }

  /** When ids are distinct and criterion k has the id, an update moves the
      weighted sum by exactly (newScore - old score) * weight of criterion k. */
  lemma {:induction false} UpdateScoreWeightedSum(cs: seq<Criterion>, k: nat, newScore: int)
    requires k < |cs|
    requires DistinctIds(cs)
    ensures WeightedSum(UpdateScore(cs, cs[k].id, newScore))
         == WeightedSum(cs) + (newScore - cs[k].score) * cs[k].weight
  {
    var id := cs[k].id;
    var r := UpdateScore(cs, id, newScore);
    var init := cs[..|cs| - 1];
    assert r[..|r| - 1] == UpdateScore(init, id, newScore);
    if k == |cs| - 1 {
      UpdateScoreMissesAbsentId(init, id, newScore);
      assert (newScore - cs[k].score) * cs[k].weight == newScore * cs[k].weight - cs[k].score * cs[k].weight;
    } else {
      UpdateScoreWeightedSum(init, k, newScore);
    }
  }

  /** An update whose id no criterion has changes nothing. */
  lemma UpdateScoreMissesAbsentId(cs: seq<Criterion>, id: string, newScore: int)
    requires forall i :: 0 <= i < |cs| ==> cs[i].id != id
    ensures UpdateScore(cs, id, newScore) == cs
  {
  }

  // ---------------------------------------------------------------- tiers

  datatype Tier = High | Medium | Low

  /** The three bands every classifier in the panel uses: 80 and above, 60 to 79, below 60. */
  function TierOf(score: int): Tier {
    if score >= 80 then High else if score >= 60 then Medium else Low
  }

  function ScoreColor(score: int): string {
    if score >= 80 then "text-success"
    else if score >= 60 then "text-warning"
    else "text-destructive"
  }

  datatype Icon = CheckCircle | AlertTriangle | XCircle

  function ScoreIcon(score: int): Icon {
    if score >= 80 then CheckCircle
    else if score >= 60 then AlertTriangle
    else XCircle
  }

  function Recommendation(score: int): string {
    if score >= 80 then "Highly Recommended - Proceed with confidence"
    else if score >= 60 then "Proceed with Caution - Address key risks"
    else "Not Recommended - Significant concerns identified"
  }

  /** The variant of the recommendation badge. */
  function BadgeVariant(score: int): string {
    if score >= 80 then "default" else if score >= 60 then "secondary" else "destructive"
  }

  /** The four classifiers agree: each picks the member of its tier. */
  lemma TiersAgree(score: int)
    ensures TierOf(score) == High <==>
      (score >= 80 && ScoreColor(score) == "text-success" && ScoreIcon(score) == CheckCircle &&
       Recommendation(score) == "Highly Recommended - Proceed with confidence" && BadgeVariant(score) == "default")
    ensures TierOf(score) == Medium <==>
      (60 <= score < 80 && ScoreColor(score) == "text-warning" && ScoreIcon(score) == AlertTriangle &&
       Recommendation(score) == "Proceed with Caution - Address key risks" && BadgeVariant(score) == "secondary")
    ensures TierOf(score) == Low <==>
      (score < 60 && ScoreColor(score) == "text-destructive" && ScoreIcon(score) == XCircle &&
       Recommendation(score) == "Not Recommended - Significant concerns identified" && BadgeVariant(score) == "destructive")
  {
    if score >= 80 {
      assert TierOf(score) == High;
    } else if score >= 60 {
      assert TierOf(score) == Medium;
    } else {
      assert TierOf(score) == Low;
    }
  }

  /** The thresholds are inclusive at 80 and at 60. */
  lemma TierBoundaries()
    ensures TierOf(80) == High && TierOf(79) == Medium
    ensures TierOf(60) == Medium && TierOf(59) == Low
  {
  }

  /** The default criteria score 73: proceed with caution. */
  lemma DefaultRecommendation()
    ensures TierOf(OverallScore(DefaultCriteria())) == Medium
  {
    DefaultOverallScore();
  }

  // ---------------------------------------------------------------- analyzeAI

  /** Math.max(20, Math.min(100, x)). */
  function Clamp(x: int): (r: int)
    ensures 20 <= r <= 100
    ensures 20 <= x <= 100 ==> r == x
    ensures x < 20 ==> r == 20
    ensures x > 100 ==> r == 100
  {
    if x > 100 then 100 else if x < 20 then 20 else x
  }

  /** The simulated analysis: every score moves by its own random delta
      (`deltas[i]`, drawn by the caller) and is clamped to [20, 100]. */
  function AnalyzeAI(cs: seq<Criterion>, deltas: seq<int>): (r: seq<Criterion>)
    requires |deltas| == |cs|
    ensures |r| == |cs|
    ensures forall i :: 0 <= i < |cs| ==>
      r[i].id == cs[i].id && r[i].name == cs[i].name &&
      r[i].description == cs[i].description && r[i].weight == cs[i].weight
    ensures forall i :: 0 <= i < |cs| ==> 20 <= r[i].score <= 100
    ensures forall i :: 0 <= i < |cs| && 20 <= cs[i].score + deltas[i] <= 100 ==>
      r[i].score == cs[i].score + deltas[i]
    ensures forall i :: 0 <= i < |cs| && cs[i].score + deltas[i] < 20 ==> r[i].score == 20
    ensures forall i :: 0 <= i < |cs| && cs[i].score + deltas[i] > 100 ==> r[i].score == 100
  {
    seq(|cs|, i requires 0 <= i < |cs| => cs[i].(score := Clamp(cs[i].score + deltas[i])))
  }

  /** A delta in [-10, 10] moves an in-range score by at most 10. */
  lemma AnalyzeAIStepBounded(cs: seq<Criterion>, deltas: seq<int>, i: nat)
    requires |deltas| == |cs| && i < |cs|
    requires 20 <= cs[i].score <= 100 && -10 <= deltas[i] <= 10
    ensures -10 <= AnalyzeAI(cs, deltas)[i].score - cs[i].score <= 10
  {
  }

  /** After an analysis the overall score of criteria whose weights are non-negative
      and sum to 100 lies in [20, 100]. */
  lemma AnalyzeAIOverallScore(cs: seq<Criterion>, deltas: seq<int>)
    requires |deltas| == |cs|
    requires forall i :: 0 <= i < |cs| ==> 0 <= cs[i].weight
    requires WeightSum(cs) == 100
    ensures 20 <= OverallScore(AnalyzeAI(cs, deltas)) <= 100
  {
    var r := AnalyzeAI(cs, deltas);
    AnalyzeAIKeepsWeightSum(cs, deltas);
    OverallScoreWithinScores(r, 20, 100);
  }

  lemma {:induction false} AnalyzeAIKeepsWeightSum(cs: seq<Criterion>, deltas: seq<int>)
    requires |deltas| == |cs|
    ensures WeightSum(AnalyzeAI(cs, deltas)) == WeightSum(cs)
  {
    if cs != [] {
      var r := AnalyzeAI(cs, deltas);
      AnalyzeAIKeepsWeightSum(cs[..|cs| - 1], deltas[..|cs| - 1]);
      assert r[..|r| - 1] == AnalyzeAI(cs[..|cs| - 1], deltas[..|cs| - 1]);
    }
  }
}
