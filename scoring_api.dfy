/** The backend's scoring endpoint (backend/api/scoring.py): raw answers summed per palier
    and dimension, each dimension's percentage rounded to one decimal, the profile of the
    mean percentage, and the list of paliers below the profile's target. The criteria file
    is a parameter. */
module ScoringApi {
  import opened Collections
  import opened JsNumbers
  import opened ScoringUtils
  import opened StaticResults
  import opened ScoringEngine

  /** One value of `dimension_scores`. */
  datatype DimensionEntry = DimensionEntry(name: string, score: int, percentage: real, paliers: seq<(string, int)>)

  datatype ScoringOutput = ScoringOutput(
    dimensionScores: seq<(string, DimensionEntry)>,
    globalScore: real,
    profile: Profile,
    digitalGaps: seq<string>)

  /** The status of a rejected request: 400 for no answers, 500 for the division by zero
      that a criteria file without dimensions causes. */
  const NoAnswers := 400
  const ServerError := 500

  // ---------------------------------------------------------------------------
  // Specification

  /** `answers.get(criterion_id, 0)`: the raw answer, not clamped. */
  function AnswerOf(answers: map<string, int>, criterionId: string): int
  {
    if criterionId in answers then answers[criterionId] else 0
  }

  function PalierSum(criteria: seq<Criterion>, answers: map<string, int>): int
  {
    if criteria == [] then 0
    else PalierSum(criteria[..|criteria| - 1], answers) + AnswerOf(answers, criteria[|criteria| - 1].id)
  }

  /** `f"palier_{palier['level']}"`. */
  function PalierKey(level: int): string
  {
    "palier_" + IntText(level)
  }

  /** `palier_scores` after the loop: a palier with an already used level overwrites its
      value in place. */
  function PalierTable(paliers: seq<CriteriaPalier>, answers: map<string, int>): seq<(string, int)>
  {
    if paliers == [] then []
    else
      var last := paliers[|paliers| - 1];
      Put(PalierTable(paliers[..|paliers| - 1], answers), PalierKey(last.level), PalierSum(last.criteria, answers))
  }

  /** `dimension_score` after the loop: every palier counts, whatever its level. */
  function DimensionTotal(paliers: seq<CriteriaPalier>, answers: map<string, int>): int
  {
    if paliers == [] then 0
    else DimensionTotal(paliers[..|paliers| - 1], answers) + PalierSum(paliers[|paliers| - 1].criteria, answers)
  }

  /** `round((score / 36) * 100, 1)`: the nearest tenth of the percentage. `score * 250 / 9`
      is never exactly halfway between two integers, so no tie-breaking rule is involved. */
  function Percentage(score: int): (r: real)
    ensures 0 <= score ==> 0.0 <= r
    ensures score <= 36 ==> r <= 100.0
    ensures (r * 10.0).Floor as real == r * 10.0
  {
    RoundDiv(score * 250, 9) as real / 10.0
  }

  /** The stored percentage is within a twentieth of the exact one. */
  lemma PercentageRoundsToTenth(score: int)
    ensures -0.05 < Percentage(score) - score as real * 100.0 / 36.0 < 0.05
  {
    var r := RoundDiv(score * 250, 9);
    assert 18 * r <= 500 * score + 9 < 18 * (r + 1);
    assert 18 * r != 500 * score + 9 by {
      assert (500 * score + 9) % 2 == 1;
    }
  }

  function EntryOf(dimension: CriteriaDimension, answers: map<string, int>): DimensionEntry
  {
    var total := DimensionTotal(dimension.paliers, answers);
    DimensionEntry(dimension.name, total, Percentage(total), PalierTable(dimension.paliers, answers))
  }

  /** `dimension_scores` after the loop, keyed by dimension id. */
  function DimensionTable(criteria: seq<CriteriaDimension>, answers: map<string, int>): (t: seq<(string, DimensionEntry)>)
    ensures t == [] <==> criteria == []
  {
    if criteria == [] then []
    else
      var last := criteria[|criteria| - 1];
      var t := Put(DimensionTable(criteria[..|criteria| - 1], answers), last.id, EntryOf(last, answers));
      assert Get(t, last.id).Some?;
      t
  }

  function Percentages(table: seq<(string, DimensionEntry)>): (r: seq<real>)
    ensures |r| == |table| && forall i :: 0 <= i < |table| ==> r[i] == table[i].1.percentage
  {
    seq(|table|, i requires 0 <= i < |table| => table[i].1.percentage)
  }

  /** The table as `identify_gaps` sees it: names and palier scores. */
  function GapSources(table: seq<(string, DimensionEntry)>): (r: seq<(string, GapSource)>)
    ensures |r| == |table|
    ensures forall i :: 0 <= i < |table| ==> r[i] == (table[i].0, GapSource(table[i].1.name, table[i].1.paliers))
  {
    seq(|table|, i requires 0 <= i < |table| => (table[i].0, GapSource(table[i].1.name, table[i].1.paliers)))
  }

  /** What `calculate_scores` returns once the table is built: the mean of the rounded
      percentages, its profile and the paliers below that profile's level; a table without
      dimensions divides by zero. */
  function Summarize(table: seq<(string, DimensionEntry)>): (r: Result<ScoringOutput, int>)
    ensures r.Err? <==> table == []
    ensures r.Err? ==> r.error == ServerError
  {
    if table == [] then Err(ServerError)
    else
      var globalScore := SumReal(Percentages(table)) / |table| as real;
      var profile := DetermineProfile(globalScore);
      Ok(ScoringOutput(table, globalScore, profile, Gaps(GapSources(table), ProfileLevel(profile))))
  }

  /** What `calculate_scores` returns, or the status of its failure. */
  function ScoresOf(answers: map<string, int>, criteria: seq<CriteriaDimension>): (r: Result<ScoringOutput, int>)
    ensures r.Err? <==> criteria == []
    ensures r.Err? ==> r.error == ServerError
  {
    Summarize(DimensionTable(criteria, answers))
  }

  // ---------------------------------------------------------------------------
  // The endpoint

  /** The innermost loop of `calculate_scores`: one palier's raw answers added up. */
  method ScorePalier(palier: CriteriaPalier, answers: map<string, int>) returns (palierScore: int)
    ensures palierScore == PalierSum(palier.criteria, answers)
  {
    palierScore := 0;
    var k := 0;
    while k < |palier.criteria|
      invariant 0 <= k <= |palier.criteria|
      invariant palierScore == PalierSum(palier.criteria[..k], answers)
    {
      var criterionId := palier.criteria[k].id;
      var score := if criterionId in answers then answers[criterionId] else 0;
      assert palier.criteria[..k + 1][..k] == palier.criteria[..k];
      palierScore := palierScore + score;
      k := k + 1;
    }
    assert palier.criteria[..k] == palier.criteria;
  }

  /** The body of the loop over dimensions in `calculate_scores`: the palier table, the
      dimension total and its rounded percentage. */
  method ScoreDimension(dimension: CriteriaDimension, answers: map<string, int>) returns (entry: DimensionEntry)
    ensures entry == EntryOf(dimension, answers)
  {
    var dimensionScore, palierScores := ScorePaliers(dimension.paliers, answers);
    entry := DimensionEntry(dimension.name, dimensionScore, Percentage(dimensionScore), palierScores);
  }

  /** The loop over one dimension's paliers: the running total and the palier table. */
  method ScorePaliers(paliers: seq<CriteriaPalier>, answers: map<string, int>)
    returns (dimensionScore: int, palierScores: seq<(string, int)>)
    ensures dimensionScore == DimensionTotal(paliers, answers)
    ensures palierScores == PalierTable(paliers, answers)
  {
    dimensionScore := 0;
    palierScores := [];
    var j := 0;
    while j < |paliers|
      invariant 0 <= j <= |paliers|
      invariant dimensionScore == DimensionTotal(paliers[..j], answers)
      invariant palierScores == PalierTable(paliers[..j], answers)
    {
      var palierScore := ScorePalier(paliers[j], answers);
      PalierStep(paliers, j, answers);
      palierScores := Put(palierScores, PalierKey(paliers[j].level), palierScore);
      dimensionScore := dimensionScore + palierScore;
      j := j + 1;
    }
    assert paliers[..j] == paliers;
  }

  lemma PalierStep(paliers: seq<CriteriaPalier>, j: int, answers: map<string, int>)
    requires 0 <= j < |paliers|
    ensures DimensionTotal(paliers[..j + 1], answers)
      == DimensionTotal(paliers[..j], answers) + PalierSum(paliers[j].criteria, answers)
    ensures PalierTable(paliers[..j + 1], answers)
      == Put(PalierTable(paliers[..j], answers), PalierKey(paliers[j].level), PalierSum(paliers[j].criteria, answers))
  {
    assert paliers[..j + 1][..j] == paliers[..j];
  }

  /** `calculate_scores`: the loop over dimensions, then the mean, the profile and the gap
      list. */
  method CalculateScores(answers: map<string, int>, criteria: seq<CriteriaDimension>) returns (r: Result<ScoringOutput, int>)
    ensures r == ScoresOf(answers, criteria)
  {
    var dimensionScores: seq<(string, DimensionEntry)> := [];
    var i := 0;
    while i < |criteria|
      invariant 0 <= i <= |criteria|
      invariant dimensionScores == DimensionTable(criteria[..i], answers)
    {
      var entry := ScoreDimension(criteria[i], answers);
      DimensionTableStep(criteria, i, answers);
      dimensionScores := Put(dimensionScores, criteria[i].id, entry);
      i := i + 1;
    }
    assert criteria[..i] == criteria;
    r := Summarise(dimensionScores);
  }

  lemma DimensionTableStep(criteria: seq<CriteriaDimension>, i: int, answers: map<string, int>)
    requires 0 <= i < |criteria|
    ensures DimensionTable(criteria[..i + 1], answers)
      == Put(DimensionTable(criteria[..i], answers), criteria[i].id, EntryOf(criteria[i], answers))
  {
    assert criteria[..i + 1][..i] == criteria[..i];
  }

  /** The end of `calculate_scores`: the mean over the table, its profile, and the gap list
      computed by `identify_gaps` from the profile's name. */
  method Summarise(dimensionScores: seq<(string, DimensionEntry)>) returns (r: Result<ScoringOutput, int>)
    ensures r == Summarize(dimensionScores)
  {
    if |dimensionScores| == 0 {
      return Err(ServerError);
    }
    var globalScore := SumReal(Percentages(dimensionScores)) / |dimensionScores| as real;
    var profile := DetermineProfile(globalScore);
    ProfileTargetOfName(profile);
    var digitalGaps := IdentifyGaps(GapSources(dimensionScores), ProfileName(profile));
    r := Ok(ScoringOutput(dimensionScores, globalScore, profile, digitalGaps));
  }

  /** `calculate_scoring`: an empty answers map is rejected before any computation. */
  method CalculateScoring(answers: map<string, int>, criteria: seq<CriteriaDimension>) returns (r: Result<ScoringOutput, int>)
    ensures |answers| == 0 ==> r == Err(NoAnswers)
    ensures |answers| > 0 ==> r == ScoresOf(answers, criteria)
  {
    if |answers| == 0 {
      return Err(NoAnswers);
    }
    r := CalculateScores(answers, criteria);
  }

  // ---------------------------------------------------------------------------
  // Properties

  /** The endpoint's inline computation is the scoring engine's: the mean of the rounded
      percentages, the strict-threshold profile of that unrounded mean, and the engine's
      gap list for the profile's level, which lies between the lowest and highest
      dimension percentage. */
  lemma EndpointMatchesEngine(answers: map<string, int>, criteria: seq<CriteriaDimension>, lo: real, hi: real)
    requires criteria != []
    ensures var out := ScoresOf(answers, criteria).value;
      var table := DimensionTable(criteria, answers);
      out.dimensionScores == table &&
      Ok(out.globalScore) == GlobalScore(Percentages(table)) &&
      out.profile == DetermineProfile(out.globalScore) &&
      out.digitalGaps == Gaps(GapSources(table), ProfileLevel(out.profile))
    ensures (forall i :: 0 <= i < |DimensionTable(criteria, answers)| ==>
        lo <= DimensionTable(criteria, answers)[i].1.percentage <= hi) ==>
      lo <= ScoresOf(answers, criteria).value.globalScore <= hi
  {
    var table := DimensionTable(criteria, answers);
    if forall i :: 0 <= i < |table| ==> lo <= table[i].1.percentage <= hi {
      GlobalScoreWithin(Percentages(table), lo, hi);
    }
  }

  /** An answer counts as given, without clamping: a palier of one criterion scores the
      raw answer, 0 when it is missing. */
  lemma AnswersNotClamped(c: Criterion, answers: map<string, int>)
    ensures PalierSum([c], answers) == (if c.id in answers then answers[c.id] else 0)
  {
    assert [c][..0] == [];
  }

  /** Criteria nobody answered add nothing. */
  lemma {:induction false} UnansweredPalierIsZero(criteria: seq<Criterion>, answers: map<string, int>)
    requires forall k :: 0 <= k < |criteria| ==> criteria[k].id !in answers
    ensures PalierSum(criteria, answers) == 0
  {
    if criteria != [] {
      UnansweredPalierIsZero(criteria[..|criteria| - 1], answers);
    }
  }

  lemma {:induction false} UnansweredDimensionIsZero(paliers: seq<CriteriaPalier>)
    ensures DimensionTotal(paliers, map[]) == 0
    ensures forall e :: e in PalierTable(paliers, map[]) ==> e.1 == 0
  {
    if paliers != [] {
      var init, last := paliers[..|paliers| - 1], paliers[|paliers| - 1];
      UnansweredDimensionIsZero(init);
      UnansweredPalierIsZero(last.criteria, map[]);
      PutEntries(PalierTable(init, map[]), PalierKey(last.level), PalierSum(last.criteria, map[]));
    }
  }

  lemma PercentageOfZero()
    ensures Percentage(0) == 0.0
  {
    assert RoundDiv(0 * 250, 9) == 0;
  }

  /** A dimension entry with nothing scored anywhere. */
  predicate ZeroEntry(e: (string, DimensionEntry))
  {
    e.1.score == 0 && e.1.percentage == 0.0 && forall p :: p in e.1.paliers ==> p.1 == 0
  }

  lemma {:induction false} UnansweredTableIsZero(criteria: seq<CriteriaDimension>)
    ensures forall e :: e in DimensionTable(criteria, map[]) ==> ZeroEntry(e)
  {
    if criteria != [] {
      var init, last := criteria[..|criteria| - 1], criteria[|criteria| - 1];
      var entry := EntryOf(last, map[]);
      UnansweredTableIsZero(init);
      UnansweredDimensionIsZero(last.paliers);
      PercentageOfZero();
      assert ZeroEntry((last.id, entry));
      PutEntries(DimensionTable(init, map[]), last.id, entry);
    }
  }

  /** With no answers at all, every dimension scores 0, the profile is Débutant, and every
      palier is listed as a gap. */
  lemma NoAnswersGiveDebutant(criteria: seq<CriteriaDimension>)
    requires criteria != []
    ensures var out := ScoresOf(map[], criteria).value;
      out.globalScore == 0.0 && out.profile == Debutant &&
      |out.digitalGaps| == PalierCount(GapSources(out.dimensionScores))
  {
    var table := DimensionTable(criteria, map[]);
    UnansweredTableIsZero(criteria);
    ZeroMean(table);
    ZeroPaliersFlagged(table);
  }

  lemma ZeroMean(table: seq<(string, DimensionEntry)>)
    requires table != []
    requires forall e :: e in table ==> e.1.percentage == 0.0
    ensures SumReal(Percentages(table)) / |table| as real == 0.0
  {
    forall i | 0 <= i < |table| ensures 0.0 <= table[i].1.percentage <= 0.0 {
      assert table[i] in table;
    }
    GlobalScoreWithin(Percentages(table), 0.0, 0.0);
  }

  lemma ZeroPaliersFlagged(table: seq<(string, DimensionEntry)>)
    requires forall e :: e in table ==> forall p :: p in e.1.paliers ==> p.1 == 0
    ensures |Gaps(GapSources(table), 1)| == PalierCount(GapSources(table))
  {
    var sources := GapSources(table);
    forall i, j | 0 <= i < |sources| && 0 <= j < |sources[i].1.paliers| ensures sources[i].1.paliers[j].1 < 3 {
      assert table[i] in table;
      assert table[i].1.paliers[j] in table[i].1.paliers;
    }
    FlagsEveryPalier(sources, 1);
  }

  lemma {:induction false} FlagsEveryPalier(sources: seq<(string, GapSource)>, target: int)
    requires forall i, j :: 0 <= i < |sources| && 0 <= j < |sources[i].1.paliers| ==>
      sources[i].1.paliers[j].1 < target * 3
    ensures |Gaps(sources, target)| == PalierCount(sources)
  {
    if sources != [] {
      var init := sources[..|sources| - 1];
      var last := sources[|sources| - 1].1;
      forall i, j | 0 <= i < |init| && 0 <= j < |init[i].1.paliers| ensures init[i].1.paliers[j].1 < target * 3 {
        assert init[i] == sources[i];
      }
      FlagsEveryPalier(init, target);
      EveryPalierFlagged(last.name, last.paliers, target);
    }
  }
}
