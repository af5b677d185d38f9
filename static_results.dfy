/** The results of the static questionnaire (app/results/page.tsx): criterion answers
    summed per palier, palier sums placed by level, one dimension score per criteria
    dimension, the global score, profile and gaps, and the strongest and weakest
    dimensions. */
module StaticResults {
  import opened Collections
  import opened ScoringUtils

  /** `Number(raw)` for a stored answer: a number, or NaN for text that is not one. */
  datatype RawScore = Num(n: int) | NotANumber

  datatype Criterion = Criterion(id: string)
  datatype CriteriaPalier = CriteriaPalier(level: int, criteria: seq<Criterion>)
  datatype CriteriaDimension = CriteriaDimension(id: string, name: string, paliers: seq<CriteriaPalier>)

  /** DimensionScoreUI: the library's dimension score and its `score` alias. */
  datatype UiDimension = UiDimension(dimension: DimensionScore, score: int)

  datatype Results = Results(
    globalScore: int, profile: Profile, profileLevel: Tier,
    dimensions: seq<UiDimension>, gaps: seq<GapInfo>)

  // ---------------------------------------------------------------------------
  // Criterion and palier totals

  /** What an answer adds to its palier total: a missing answer adds 0, a number adds
      itself, and NaN is skipped (None). */
  function Contribution(answers: seq<(string, RawScore)>, criterionId: string): (c: Option<int>)
    ensures Get(answers, criterionId).None? ==> c == Some(0)
    ensures Get(answers, criterionId) == Some(NotANumber) ==> c.None?
    ensures forall n :: Get(answers, criterionId) == Some(Num(n)) ==> c == Some(n)
  {
    match Get(answers, criterionId)
    case None => Some(0)
    case Some(raw) => if raw.Num? then Some(raw.n) else None
  }

  /** The palier total of the criteria, in order. */
  function PalierTotal(criteria: seq<Criterion>, answers: seq<(string, RawScore)>): int
  {
    if criteria == [] then 0
    else
      var c := Contribution(answers, criteria[|criteria| - 1].id);
      PalierTotal(criteria[..|criteria| - 1], answers) + (if c.Some? then c.value else 0)
  }

  /** `palierTotal` after the loop over the criteria. */
  method SumPalier(criteria: seq<Criterion>, answers: seq<(string, RawScore)>) returns (palierTotal: int)
    ensures palierTotal == PalierTotal(criteria, answers)
  {
    palierTotal := 0;
    var k := 0;
    while k < |criteria|
      invariant 0 <= k <= |criteria|
      invariant palierTotal == PalierTotal(criteria[..k], answers)
    {
      assert criteria[..k + 1][..k] == criteria[..k];
      var score := Contribution(answers, criteria[k].id);
      if score.Some? {
        palierTotal := palierTotal + score.value;
      }
      k := k + 1;
    }
    assert criteria[..k] == criteria;
  }

  /** Answers that are numbers in 0..3 give a palier total between 0 and 3 per criterion. */
  lemma {:induction false} PalierTotalBounds(criteria: seq<Criterion>, answers: seq<(string, RawScore)>)
    requires forall i :: 0 <= i < |answers| ==> answers[i].1.Num? && 0 <= answers[i].1.n <= 3
    ensures 0 <= PalierTotal(criteria, answers) <= 3 * |criteria|
  {
    if criteria != [] {
      PalierTotalBounds(criteria[..|criteria| - 1], answers);
      var id := criteria[|criteria| - 1].id;
      if Get(answers, id).Some? {
        var i :| 0 <= i < |answers| && answers[i] == (id, Get(answers, id).value);
      }
    }
  }

  /** Criteria without a usable answer (missing, or not a number) total 0. */
  lemma {:induction false} UnusableAnswersTotalZero(criteria: seq<Criterion>, answers: seq<(string, RawScore)>)
    requires forall k :: 0 <= k < |criteria| ==>
      Get(answers, criteria[k].id).None? || Get(answers, criteria[k].id) == Some(NotANumber)
    ensures PalierTotal(criteria, answers) == 0
  {
    if criteria != [] {
      UnusableAnswersTotalZero(criteria[..|criteria| - 1], answers);
    }
  }

  // ---------------------------------------------------------------------------
  // Palier scores by level

  /** `if (palier.level === k) palierScores.pk = palierTotal` for k = 1..4. */
  function SetLevel(ps: PalierScores, level: int, total: int): PalierScores
  {
    if level == 1 then ps.(p1 := total)
    else if level == 2 then ps.(p2 := total)
    else if level == 3 then ps.(p3 := total)
    else if level == 4 then ps.(p4 := total)
    else ps
  }

  /** The palier scores after visiting the paliers in order, starting from zeros. */
  function PalierScoresOf(paliers: seq<CriteriaPalier>, answers: seq<(string, RawScore)>): PalierScores
  {
    if paliers == [] then PalierScores(0, 0, 0, 0)
    else
      var last := paliers[|paliers| - 1];
      SetLevel(PalierScoresOf(paliers[..|paliers| - 1], answers), last.level, PalierTotal(last.criteria, answers))
  }

  /** The score of a level: the total of the last palier with that level, or 0. */
  function LevelScore(paliers: seq<CriteriaPalier>, answers: seq<(string, RawScore)>, level: int): int
  {
    match FindLast(paliers, (p: CriteriaPalier) => p.level == level)
    case None => 0
    case Some(p) => PalierTotal(p.criteria, answers)
  }

  function Level(ps: PalierScores, level: int): int
    requires 1 <= level <= 4
  {
    if level == 1 then ps.p1 else if level == 2 then ps.p2 else if level == 3 then ps.p3 else ps.p4
  }

  /** Each of p1..p4 holds the total of the last palier of its level, 0 when there is none;
      paliers of other levels change nothing. */
  lemma {:induction false} LastLevelWins(paliers: seq<CriteriaPalier>, answers: seq<(string, RawScore)>, level: int)
    requires 1 <= level <= 4
    ensures Level(PalierScoresOf(paliers, answers), level) == LevelScore(paliers, answers, level)
  {
    if paliers != [] {
      var init, last := paliers[..|paliers| - 1], paliers[|paliers| - 1];
      LastLevelWins(init, answers, level);
      if last.level != level {
        assert forall i :: 0 <= i < |init| ==> init[i] == paliers[i];
        FindLastSkipsLast(paliers, level);
      }
    }
  }

  lemma FindLastSkipsLast(paliers: seq<CriteriaPalier>, level: int)
    requires paliers != [] && paliers[|paliers| - 1].level != level
    ensures FindLast(paliers, (p: CriteriaPalier) => p.level == level)
         == FindLast(paliers[..|paliers| - 1], (p: CriteriaPalier) => p.level == level)
  {
  }

  /** Visits the paliers in order and stores each total under its level. */
  method ScorePaliers(paliers: seq<CriteriaPalier>, answers: seq<(string, RawScore)>) returns (palierScores: PalierScores)
    ensures palierScores == PalierScoresOf(paliers, answers)
  {
    palierScores := PalierScores(0, 0, 0, 0);
    var j := 0;
    while j < |paliers|
      invariant 0 <= j <= |paliers|
      invariant palierScores == PalierScoresOf(paliers[..j], answers)
    {
      assert paliers[..j + 1][..j] == paliers[..j];
      var palier := paliers[j];
      var palierTotal := SumPalier(palier.criteria, answers);
      if palier.level == 1 { palierScores := palierScores.(p1 := palierTotal); }
      if palier.level == 2 { palierScores := palierScores.(p2 := palierTotal); }
      if palier.level == 3 { palierScores := palierScores.(p3 := palierTotal); }
      if palier.level == 4 { palierScores := palierScores.(p4 := palierTotal); }
      j := j + 1;
    }
    assert paliers[..j] == paliers;
  }

  /** At most three criteria per palier, each answered with a number in 0..3 or not at all,
      keep every palier score in 0..9, so the dimension lands in 0..100. */
  lemma PalierScoresBounded(paliers: seq<CriteriaPalier>, answers: seq<(string, RawScore)>)
    requires forall j :: 0 <= j < |paliers| ==> |paliers[j].criteria| <= 3
    requires forall i :: 0 <= i < |answers| ==> answers[i].1.Num? && 0 <= answers[i].1.n <= 3
    ensures PalierScoresInRange(PalierScoresOf(paliers, answers))
  {
    forall level | 1 <= level <= 4
      ensures 0 <= Level(PalierScoresOf(paliers, answers), level) <= 9
    {
      LastLevelWins(paliers, answers, level);
      match FindLast(paliers, (p: CriteriaPalier) => p.level == level)
      case None =>
      case Some(p) =>
        PalierTotalBounds(p.criteria, answers);
    }
    assert Level(PalierScoresOf(paliers, answers), 1) == PalierScoresOf(paliers, answers).p1;
    assert Level(PalierScoresOf(paliers, answers), 2) == PalierScoresOf(paliers, answers).p2;
    assert Level(PalierScoresOf(paliers, answers), 3) == PalierScoresOf(paliers, answers).p3;
    assert Level(PalierScoresOf(paliers, answers), 4) == PalierScoresOf(paliers, answers).p4;
  }

  // ---------------------------------------------------------------------------
  // The whole computation

  /** The library's dimension score of one criteria dimension. */
  function DimensionOf(dim: CriteriaDimension, answers: seq<(string, RawScore)>): DimensionScore
  {
    ComputeDimensionFromPaliers(dim.id, dim.name, PalierScoresOf(dim.paliers, answers))
  }

  function CoreDimensions(dims: seq<CriteriaDimension>, answers: seq<(string, RawScore)>): (r: seq<DimensionScore>)
    ensures |r| == |dims| && forall i :: 0 <= i < |dims| ==> r[i] == DimensionOf(dims[i], answers)
  {
    seq(|dims|, i requires 0 <= i < |dims| => DimensionOf(dims[i], answers))
  }

  /** `calculateResults`: one dimension per criteria dimension, in order, whose `score` is
      its raw score; the global score, the profile from it, its level, and the gaps. */
  method CalculateResults(dims: seq<CriteriaDimension>, answers: seq<(string, RawScore)>) returns (results: Results)
    ensures |results.dimensions| == |dims|
    ensures forall i :: 0 <= i < |dims| ==>
      results.dimensions[i].dimension == DimensionOf(dims[i], answers) &&
      results.dimensions[i].score == results.dimensions[i].dimension.rawScore
    ensures results.globalScore == ComputeGlobalScore(CoreDimensions(dims, answers))
    ensures results.profile == ProfileOf(results.globalScore as real)
    ensures results.profileLevel == ProfileLevel(results.profile)
    ensures results.gaps == ComputeGaps(CoreDimensions(dims, answers), results.profileLevel)
  {
    var coreDimensions: seq<DimensionScore> := [];
    var uiDimensions: seq<UiDimension> := [];
    var i := 0;
    while i < |dims|
      invariant 0 <= i <= |dims|
      invariant coreDimensions == CoreDimensions(dims[..i], answers)
      invariant |uiDimensions| == i
      invariant forall k :: 0 <= k < i ==>
        uiDimensions[k] == UiDimension(coreDimensions[k], coreDimensions[k].rawScore)
    {
      var dim := dims[i];
      var palierScores := ScorePaliers(dim.paliers, answers);
      var coreDim := ComputeDimensionFromPaliers(dim.id, dim.name, palierScores);
      coreDimensions := coreDimensions + [coreDim];
      uiDimensions := uiDimensions + [UiDimension(coreDim, coreDim.rawScore)];
      i := i + 1;
    }
    assert dims[..i] == dims;
    var globalScore := ComputeGlobalScore(coreDimensions);
    var profile := ProfileOf(globalScore as real);
    var profileLevel := ProfileLevel(profile);
    var gaps := ComputeGaps(coreDimensions, profileLevel);
    results := Results(globalScore, profile, profileLevel, uiDimensions, gaps);
  }

  /** Every gap targets palier 4 whatever the profile, and the profile level is the tier
      of the global score. */
  lemma ResultsTargetFour(dims: seq<CriteriaDimension>, answers: seq<(string, RawScore)>, profileLevel: int)
    ensures forall g :: g in ComputeGaps(CoreDimensions(dims, answers), profileLevel) ==>
      g.palierCible == 4 && g.gap == 4 - g.palierAtteint
    ensures var g := ComputeGlobalScore(CoreDimensions(dims, answers));
      ProfileLevel(ProfileOf(g as real)) == TierFromPercentage(g as real)
  {
    var g := ComputeGlobalScore(CoreDimensions(dims, answers));
    ClassifiersAgree(g as real);
  }

  // ---------------------------------------------------------------------------
  // Strongest and weakest

  /** `dimensions.reduce((max, d) => d.percentage > max.percentage ? d : max)`; None for the
      TypeError an empty list raises. */
  function Strongest(ds: seq<DimensionScore>): (r: Option<DimensionScore>)
    ensures r.None? <==> ds == []
    ensures r.Some? ==> exists i :: (0 <= i < |ds| && ds[i] == r.value &&
      (forall j :: 0 <= j < i ==> ds[j].percentage < r.value.percentage))
    ensures r.Some? ==> forall j :: 0 <= j < |ds| ==> ds[j].percentage <= r.value.percentage
  {
    if ds == [] then None
    else if |ds| == 1 then Some(ds[0])
    else
      var best := Strongest(ds[..|ds| - 1]).value;
      var last := ds[|ds| - 1];
      if last.percentage > best.percentage then Some(last) else Some(best)
  }

  /** `dimensions.reduce((min, d) => d.percentage < min.percentage ? d : min)`; None for the
      TypeError an empty list raises. */
  function Weakest(ds: seq<DimensionScore>): (r: Option<DimensionScore>)
    ensures r.None? <==> ds == []
    ensures r.Some? ==> exists i :: (0 <= i < |ds| && ds[i] == r.value &&
      (forall j :: 0 <= j < i ==> ds[j].percentage > r.value.percentage))
    ensures r.Some? ==> forall j :: 0 <= j < |ds| ==> ds[j].percentage >= r.value.percentage
  {
    if ds == [] then None
    else if |ds| == 1 then Some(ds[0])
    else
      var worst := Weakest(ds[..|ds| - 1]).value;
      var last := ds[|ds| - 1];
      if last.percentage < worst.percentage then Some(last) else Some(worst)
  }

  /** The strongest dimension is never weaker than the weakest, and they coincide only
      when every dimension has the same percentage. */
  lemma StrongestWeakest(ds: seq<DimensionScore>)
    requires ds != []
    ensures Weakest(ds).value.percentage <= Strongest(ds).value.percentage
    ensures Weakest(ds).value.percentage == Strongest(ds).value.percentage <==>
      forall j :: 0 <= j < |ds| ==> ds[j].percentage == ds[0].percentage
  {
  }
}
