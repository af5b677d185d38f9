/** The backend's business rules (backend/services/rules_engine.py): the questionnaire's
    size constants, the score range of one answer, the percentage band of each profile and
    a recommendation per profile. */
module RulesEngine {
  import opened ScoringUtils
  import opened ScoringEngine

  // ---------------------------------------------------------------------------
  // QUESTION_RULES

  const MaxPerDimension := 12
  const MaxPerPalier := 3
  const ScoreRange := (0, 3)
  const TotalQuestions := 72

  /** Four paliers of three questions make a dimension, and six dimensions the whole
      questionnaire. */
  lemma QuestionRulesConsistent()
    ensures MaxPerDimension == 4 * MaxPerPalier
    ensures TotalQuestions == 6 * MaxPerDimension
  {
  }

  /** `validate_score`: inside the inclusive score range. */
  predicate ValidateScore(score: int): (ok: bool)
    ensures ok <==> 0 <= score <= 3
  {
    ScoreRange.0 <= score <= ScoreRange.1
  }

  /** A valid score is exactly one the scoring engine's clamp leaves unchanged. */
  lemma ValidScoresAreFixedByClamp(score: int)
    ensures ValidateScore(score) <==> CriterionScore(score) == score
  {
  }

  // ---------------------------------------------------------------------------
  // PROFILE_RULES

  datatype ProfileRule = ProfileRule(min: int, max: int)

  /** The inclusive percentage band of each profile. The descriptions are display text. */
  function RuleOf(p: Profile): (r: ProfileRule)
    ensures 0 <= r.min <= r.max <= 100
  {
    match p
    case Debutant => ProfileRule(0, 25)
    case Emergent => ProfileRule(26, 50)
    case Challenger => ProfileRule(51, 75)
    case Leader => ProfileRule(76, 100)
  }

  predicate InRule(p: Profile, g: int)
  {
    RuleOf(p).min <= g <= RuleOf(p).max
  }

  /** Each band starts right after the previous one ends; the first starts at 0 and the
      last ends at 100. */
  lemma RulesContiguous()
    ensures RuleOf(Debutant).min == 0 && RuleOf(Leader).max == 100
    ensures RuleOf(Emergent).min == RuleOf(Debutant).max + 1
    ensures RuleOf(Challenger).min == RuleOf(Emergent).max + 1
    ensures RuleOf(Leader).min == RuleOf(Challenger).max + 1
  {
  }

  /** Every integer percentage from 0 to 100 lies in exactly one band. */
  lemma RulesPartition(g: int)
    requires 0 <= g <= 100
    ensures exists p :: InRule(p, g)
    ensures forall p, q :: InRule(p, g) && InRule(q, g) ==> p == q
  {
    var p := if g <= 25 then Debutant else if g <= 50 then Emergent else if g <= 75 then Challenger else Leader;
    assert InRule(p, g);
  }

  /** No integer percentage outside 0..100 lies in any band. */
  lemma RulesCoverNothingElse(g: int)
    requires g < 0 || g > 100
    ensures forall p :: !InRule(p, g)
  {
  }

  /** On an integer percentage from 0 to 100, the band containing it is the profile
      `determine_profile` returns. */
  lemma RulesAgreeWithDetermineProfile(g: int, p: Profile)
    requires 0 <= g <= 100
    ensures InRule(p, g) <==> DetermineProfile(g as real) == p
  {
  }

  // ---------------------------------------------------------------------------
  // Recommendations

  /** `get_profile_recommendation`: a text for each of the four profile names, and the
      empty text for anything else. */
  function Recommendation(profile: string): (r: string)
    ensures (exists p :: profile == ProfileName(p)) <==> r != ""
  {
    if profile == ProfileName(Debutant) then "Établir une stratégie claire et engager la direction"
    else if profile == ProfileName(Emergent) then "Accélérer l'adoption et renforcer les compétences"
    else if profile == ProfileName(Challenger) then "Optimiser l'intégration et innover"
    else if profile == ProfileName(Leader) then "Maintenir l'avantage et explorer de nouvelles frontières"
    else ""
  }

  /** Every profile `determine_profile` can return has a recommendation. */
  lemma EveryProfileRecommended(s: real)
    ensures Recommendation(ProfileName(DetermineProfile(s))) != ""
  {
  }
}
