/** The backend's scoring engine (backend/services/scoring_engine.py): criterion clamp,
    palier and dimension sums, the global mean, the profile with strict thresholds, and the
    list of paliers below the profile's target. */
module ScoringEngine {
  import opened Collections
  import opened ScoringUtils

  // ---------------------------------------------------------------------------
  // Criterion, palier and dimension scores

  /** `max(0, min(3, raw_response))`. */
  function CriterionScore(rawResponse: int): (s: int)
    ensures 0 <= s <= 3
    ensures 0 <= rawResponse <= 3 ==> s == rawResponse
    ensures rawResponse < 0 ==> s == 0
    ensures rawResponse > 3 ==> s == 3
  {
    var capped := if rawResponse < 3 then rawResponse else 3;
    if 0 > capped then 0 else capped
  }

  /** Clamping a clamped score changes nothing. */
  lemma CriterionScoreIdempotent(rawResponse: int)
    ensures CriterionScore(CriterionScore(rawResponse)) == CriterionScore(rawResponse)
  {
  }

  /** A sum of values between `lo` and `hi` lies between `|xs| * lo` and `|xs| * hi`. */
  lemma {:induction false} SumBounds(xs: seq<int>, lo: int, hi: int)
    requires forall i :: 0 <= i < |xs| ==> lo <= xs[i] <= hi
    ensures |xs| * lo <= Sum(xs) <= |xs| * hi
  {
    if xs != [] {
      SumBounds(xs[..|xs| - 1], lo, hi);
    }
  }

  /** `calculate_palier_score`: the sum of the criterion scores. */
  function PalierScore(criterionScores: seq<int>): int
  {
    Sum(criterionScores)
  }

  /** Clamped criterion scores give a palier score between 0 and 3 per criterion: 0..9 for
      the usual three criteria. */
  lemma PalierScoreBounds(criterionScores: seq<int>)
    requires forall i :: 0 <= i < |criterionScores| ==> 0 <= criterionScores[i] <= 3
    ensures 0 <= PalierScore(criterionScores) <= 3 * |criterionScores|
  {
    SumBounds(criterionScores, 0, 3);
  }

  /** `calculate_dimension_score`: the palier total as a percentage of 36. */
  function DimensionPercentage(palierScores: seq<int>): (p: real)
    ensures Sum(palierScores) == 0 ==> p == 0.0
    ensures Sum(palierScores) == 36 ==> p == 100.0
    ensures 0 <= Sum(palierScores) <= 36 ==> 0.0 <= p <= 100.0
  {
    var total := Sum(palierScores);
    (total as real / 36.0) * 100.0
  }

  /** Four paliers of at most 9 points each give a percentage between 0 and 100, and more
      points never give a lower percentage. */
  lemma DimensionPercentageInRange(palierScores: seq<int>)
    requires |palierScores| == 4
    requires forall i :: 0 <= i < 4 ==> 0 <= palierScores[i] <= 9
    ensures 0.0 <= DimensionPercentage(palierScores) <= 100.0
  {
    SumBounds(palierScores, 0, 9);
  }

  lemma DimensionPercentageMonotone(a: seq<int>, b: seq<int>)
    requires Sum(a) <= Sum(b)
    ensures DimensionPercentage(a) <= DimensionPercentage(b)
  {
  }

  // ---------------------------------------------------------------------------
  // Global score

  function SumReal(xs: seq<real>): real
  {
    if xs == [] then 0.0 else SumReal(xs[..|xs| - 1]) + xs[|xs| - 1]
  }

  /** `calculate_global_score`: the arithmetic mean; an empty list divides by zero. */
  function GlobalScore(dimensionPercentages: seq<real>): (r: Result<real, string>)
    ensures r.Err? <==> dimensionPercentages == []
    ensures r.Ok? ==> r.value * |dimensionPercentages| as real == SumReal(dimensionPercentages)
  {
    if dimensionPercentages == [] then Err("division by zero")
    else Ok(SumReal(dimensionPercentages) / |dimensionPercentages| as real)
  }

  lemma {:induction false} SumRealBounds(xs: seq<real>, lo: real, hi: real)
    requires forall i :: 0 <= i < |xs| ==> lo <= xs[i] <= hi
    ensures |xs| as real * lo <= SumReal(xs) <= |xs| as real * hi
  {
    if xs != [] {
      SumRealBounds(xs[..|xs| - 1], lo, hi);
    }
  }

  /** The mean lies between the smallest and the largest percentage. */
  lemma GlobalScoreWithin(dimensionPercentages: seq<real>, lo: real, hi: real)
    requires dimensionPercentages != []
    requires forall i :: 0 <= i < |dimensionPercentages| ==> lo <= dimensionPercentages[i] <= hi
    ensures lo <= GlobalScore(dimensionPercentages).value <= hi
  {
    SumRealBounds(dimensionPercentages, lo, hi);
    var n := |dimensionPercentages| as real;
    var g := GlobalScore(dimensionPercentages).value;
    assert g * n == SumReal(dimensionPercentages);
  }

  // ---------------------------------------------------------------------------
  // Profile

  /** `determine_profile`: strict thresholds 26, 51 and 76. */
  function DetermineProfile(globalScore: real): (p: Profile)
    ensures p == Debutant <==> globalScore < 26.0
    ensures p == Emergent <==> 26.0 <= globalScore < 51.0
    ensures p == Challenger <==> 51.0 <= globalScore < 76.0
    ensures p == Leader <==> 76.0 <= globalScore
  {
    if globalScore < 26.0 then Debutant
    else if globalScore < 51.0 then Emergent
    else if globalScore < 76.0 then Challenger
    else Leader
  }

  /** A higher global score never gives a lower profile. */
  lemma DetermineProfileMonotone(s: real, t: real)
    requires s <= t
    ensures ProfileLevel(DetermineProfile(s)) <= ProfileLevel(DetermineProfile(t))
  {
  }

  /** On whole-number scores the strict thresholds agree with the front end's `<= 25`,
      `<= 50`, `<= 75` classification. */
  lemma AgreesWithFrontEndOnIntegers(g: int)
    ensures DetermineProfile(g as real) == ProfileOf(g as real)
  {
  }

  /** Strictly between two whole numbers at a boundary the two classifications differ:
      25.5 is Débutant here and Émergent in the front end. */
  lemma DisagreesBetweenIntegers(s: real)
    requires 25.0 < s < 26.0 || 50.0 < s < 51.0 || 75.0 < s < 76.0
    ensures DetermineProfile(s) != ProfileOf(s)
    ensures ProfileLevel(DetermineProfile(s)) + 1 == ProfileLevel(ProfileOf(s))
  {
  }

  // ---------------------------------------------------------------------------
  // Gaps

  /** `profile_targets.get(profile, 1)`: the profile's level, 1 for any other text. */
  function ProfileTarget(profile: string): (t: int)
    ensures forall p :: profile == ProfileName(p) ==> t == ProfileLevel(p)
    ensures (forall p :: profile != ProfileName(p)) ==> t == 1
  {
    if profile == ProfileName(Debutant) then 1
    else if profile == ProfileName(Emergent) then 2
    else if profile == ProfileName(Challenger) then 3
    else if profile == ProfileName(Leader) then 4
    else 1
  }

  /** The text `determine_profile` returns maps back to the profile's level. */
  lemma ProfileTargetOfName(p: Profile)
    ensures ProfileTarget(ProfileName(p)) == ProfileLevel(p)
  {
  }

  /** One dimension's entry of `dimension_scores`: its name and its palier scores by key. */
  datatype GapSource = GapSource(name: string, paliers: seq<(string, int)>)

  /** `f"{name} - {palier_level}"`. */
  function GapLabel(name: string, palierLevel: string): string
  {
    name + " - " + palierLevel
  }

  /** The labels of a dimension's paliers scoring below three points per target level. */
  function PalierGaps(name: string, paliers: seq<(string, int)>, target: int): seq<string>
  {
    if paliers == [] then []
    else
      var last := paliers[|paliers| - 1];
      PalierGaps(name, paliers[..|paliers| - 1], target) +
        (if last.1 < target * 3 then [GapLabel(name, last.0)] else [])
  }

  /** The gap labels of every dimension, dimension after dimension. */
  function Gaps(dimensionScores: seq<(string, GapSource)>, target: int): seq<string>
  {
    if dimensionScores == [] then []
    else
      var last := dimensionScores[|dimensionScores| - 1].1;
      Gaps(dimensionScores[..|dimensionScores| - 1], target) + PalierGaps(last.name, last.paliers, target)
  }

  /** `identify_gaps`: walks the dimensions and their paliers in order and appends the
      label of every palier below the profile's target. */
  method IdentifyGaps(dimensionScores: seq<(string, GapSource)>, profile: string) returns (gaps: seq<string>)
    ensures gaps == Gaps(dimensionScores, ProfileTarget(profile))
  {
    var targetPalier := ProfileTarget(profile);
    gaps := [];
    var i := 0;
    while i < |dimensionScores|
      invariant 0 <= i <= |dimensionScores|
      invariant gaps == Gaps(dimensionScores[..i], targetPalier)
    {
      var scores := dimensionScores[i].1;
      var j := 0;
      while j < |scores.paliers|
        invariant 0 <= j <= |scores.paliers|
        invariant gaps == Gaps(dimensionScores[..i], targetPalier) + PalierGaps(scores.name, scores.paliers[..j], targetPalier)
      {
        var (palierLevel, palierScore) := scores.paliers[j];
        assert scores.paliers[..j + 1][..j] == scores.paliers[..j];
        if palierScore < targetPalier * 3 {
          gaps := gaps + [GapLabel(scores.name, palierLevel)];
        }
        j := j + 1;
      }
      assert scores.paliers[..j] == scores.paliers;
      assert dimensionScores[..i + 1][..i] == dimensionScores[..i];
      i := i + 1;
    }
    assert dimensionScores[..i] == dimensionScores;
  }

  /** A label is listed exactly when some palier of the dimension scores below the target. */
  lemma {:induction false} PalierGapsMembership(name: string, paliers: seq<(string, int)>, target: int, x: string)
    ensures x in PalierGaps(name, paliers, target) <==>
      exists j :: 0 <= j < |paliers| && paliers[j].1 < target * 3 && x == GapLabel(name, paliers[j].0)
  {
    if paliers != [] {
      var init := paliers[..|paliers| - 1];
      PalierGapsMembership(name, init, target, x);
      if exists j :: 0 <= j < |init| && init[j].1 < target * 3 && x == GapLabel(name, init[j].0) {
        var j :| 0 <= j < |init| && init[j].1 < target * 3 && x == GapLabel(name, init[j].0);
        assert paliers[j] == init[j];
      }
      if exists j :: 0 <= j < |paliers| && paliers[j].1 < target * 3 && x == GapLabel(name, paliers[j].0) {
        var j :| 0 <= j < |paliers| && paliers[j].1 < target * 3 && x == GapLabel(name, paliers[j].0);
        if j < |init| {
          assert init[j] == paliers[j];
        }
      }
    }
  }

  /** A higher target flags at least as many paliers. */
  lemma {:induction false} PalierGapsGrowWithTarget(name: string, paliers: seq<(string, int)>, t1: int, t2: int)
    requires t1 <= t2
    ensures |PalierGaps(name, paliers, t1)| <= |PalierGaps(name, paliers, t2)|
  {
    if paliers != [] {
      PalierGapsGrowWithTarget(name, paliers[..|paliers| - 1], t1, t2);
    }
  }

  function PalierCount(dimensionScores: seq<(string, GapSource)>): nat
  {
    if dimensionScores == [] then 0
    else PalierCount(dimensionScores[..|dimensionScores| - 1]) + |dimensionScores[|dimensionScores| - 1].1.paliers|
  }

  predicate ScoresAtMost(dimensionScores: seq<(string, GapSource)>, bound: int)
  {
    forall i, j :: 0 <= i < |dimensionScores| && 0 <= j < |dimensionScores[i].1.paliers| ==>
      dimensionScores[i].1.paliers[j].1 <= bound
  }

  lemma {:induction false} EveryPalierFlagged(name: string, paliers: seq<(string, int)>, target: int)
    requires forall j :: 0 <= j < |paliers| ==> paliers[j].1 < target * 3
    ensures |PalierGaps(name, paliers, target)| == |paliers|
  {
    if paliers != [] {
      EveryPalierFlagged(name, paliers[..|paliers| - 1], target);
    }
  }

  /** A palier holds at most 9 points, so the Leader target of 12 flags every palier of
      every dimension. */
  lemma {:induction false} LeaderFlagsEveryPalier(dimensionScores: seq<(string, GapSource)>)
    requires ScoresAtMost(dimensionScores, 9)
    ensures |Gaps(dimensionScores, ProfileLevel(Leader))| == PalierCount(dimensionScores)
  {
    if dimensionScores != [] {
      var init := dimensionScores[..|dimensionScores| - 1];
      var last := dimensionScores[|dimensionScores| - 1].1;
      assert ScoresAtMost(init, 9) by {
        forall i, j | 0 <= i < |init| && 0 <= j < |init[i].1.paliers| ensures init[i].1.paliers[j].1 <= 9 {
          assert init[i] == dimensionScores[i];
        }
      }
      LeaderFlagsEveryPalier(init);
      EveryPalierFlagged(last.name, last.paliers, 4);
    }
  }

  lemma {:induction false} NoPalierGaps(name: string, paliers: seq<(string, int)>, target: int)
    requires forall j :: 0 <= j < |paliers| ==> paliers[j].1 >= target * 3
    ensures PalierGaps(name, paliers, target) == []
  {
    if paliers != [] {
      NoPalierGaps(name, paliers[..|paliers| - 1], target);
    }
  }

  /** When every palier meets the target, nothing is listed. */
  lemma {:induction false} NoGapsWhenTargetMet(dimensionScores: seq<(string, GapSource)>, target: int)
    requires forall i, j :: 0 <= i < |dimensionScores| && 0 <= j < |dimensionScores[i].1.paliers| ==>
      dimensionScores[i].1.paliers[j].1 >= target * 3
    ensures Gaps(dimensionScores, target) == []
  {
    if dimensionScores != [] {
      var init := dimensionScores[..|dimensionScores| - 1];
      var last := dimensionScores[|dimensionScores| - 1].1;
      forall i, j | 0 <= i < |init| && 0 <= j < |init[i].1.paliers| ensures init[i].1.paliers[j].1 >= target * 3 {
        assert init[i] == dimensionScores[i];
      }
      NoGapsWhenTargetMet(init, target);
      NoPalierGaps(last.name, last.paliers, target);
    }
  }
}
