/** The scoring library shared by both questionnaires: tier and profile classifiers,
    static dimension aggregation, the global mean, the two gap policies, and the label,
    narrative and action lookup tables. */
module ScoringUtils {
  import opened Collections
  import opened JsNumbers

  /** An ordinal maturity level; "palier" in the static questionnaire, "tier" in the adaptive one. */
  type Tier = t: int | 1 <= t <= 4 witness 1

  /** Profile labels of the static questionnaire. */
  datatype Profile = Debutant | Emergent | Challenger | Leader

  /** Profile labels of the adaptive questionnaire; the same four levels in English. */
  datatype ConversationProfile = Beginner | Emerging | ConversationChallenger | ConversationLeader

  function ProfileName(p: Profile): string
  {
    match p
    case Debutant => "Débutant"
    case Emergent => "Émergent"
    case Challenger => "Challenger"
    case Leader => "Leader"
  }

  function ConversationProfileName(p: ConversationProfile): string
  {
    match p
    case Beginner => "Beginner"
    case Emerging => "Emerging"
    case ConversationChallenger => "Challenger"
    case ConversationLeader => "Leader"
  }

  datatype Priority = High | Medium | Low
  datatype TierStatus = AboveTarget | OnTarget | BelowTarget

  /** Sums of the three criteria of each palier (nominally 0..9 each). */
  datatype PalierScores = PalierScores(p1: int, p2: int, p3: int, p4: int)

  datatype DimensionScore = DimensionScore(
    id: string, name: string, palierScores: PalierScores,
    rawScore: int, percentage: int, palierAtteint: Tier)

  datatype GapInfo = GapInfo(
    id: string, name: string, palierAtteint: Tier, palierCible: Tier, gap: int, priority: Priority)

  datatype TierGapInfo = TierGapInfo(
    id: string, name: string, achievedTier: Tier, targetTier: Tier, gap: int, priority: Priority)

  datatype DimensionPercentageInput = DimensionPercentageInput(id: string, name: string, percentage: int)

  // ---------------------------------------------------------------------------
  // Classifiers

  /** Breakpoints 25 / 50 / 75 on the percentage clamped to [0, 100]. */
  function TierFromPercentage(percentage: real): (t: Tier)
    ensures t == 1 <==> percentage <= 25.0
    ensures t == 2 <==> 25.0 < percentage <= 50.0
    ensures t == 3 <==> 50.0 < percentage <= 75.0
    ensures t == 4 <==> 75.0 < percentage
  {
    var bounded := ClampReal(percentage, 0.0, 100.0);
    if bounded <= 25.0 then 1
    else if bounded <= 50.0 then 2
    else if bounded <= 75.0 then 3
    else 4
  }

  lemma TierMonotone(p: real, q: real)
    requires p <= q
    ensures TierFromPercentage(p) <= TierFromPercentage(q)
  {
  }

  lemma TierBreakpoints()
    ensures TierFromPercentage(0.0) == 1 && TierFromPercentage(25.0) == 1
    ensures TierFromPercentage(26.0) == 2 && TierFromPercentage(50.0) == 2
    ensures TierFromPercentage(51.0) == 3 && TierFromPercentage(75.0) == 3
    ensures TierFromPercentage(76.0) == 4 && TierFromPercentage(100.0) == 4
  {
  }

  /** Adaptive profile from the global score; no clamp, same breakpoints. */
  function ProfileFromGlobalScore(score: real): (p: ConversationProfile)
    ensures p == Beginner <==> score <= 25.0
    ensures p == ConversationLeader <==> 75.0 < score
  {
    if score <= 25.0 then Beginner
    else if score <= 50.0 then Emerging
    else if score <= 75.0 then ConversationChallenger
    else ConversationLeader
  }

  /** The tier of a profile: the quarter of the score scale the profile covers. */
  function ProfileTier(p: ConversationProfile): (t: Tier)
    ensures forall score :: ProfileFromGlobalScore(score) == p ==>
      (t > 1 ==> score > 25.0 * (t - 1) as real) && (t < 4 ==> score <= 25.0 * t as real)
  {
    match p
    case Beginner => 1
    case Emerging => 2
    case ConversationChallenger => 3
    case ConversationLeader => 4
  }

  /** Static profile from the global score; no clamp, same breakpoints. */
  function ProfileOf(globalScore: real): (p: Profile)
    ensures p == Debutant <==> globalScore <= 25.0
    ensures p == Leader <==> 75.0 < globalScore
  {
    if globalScore <= 25.0 then Debutant
    else if globalScore <= 50.0 then Emergent
    else if globalScore <= 75.0 then Challenger
    else Leader
  }

  /** The level of a profile: the quarter of the score scale the profile covers. */
  function ProfileLevel(p: Profile): (t: Tier)
    ensures forall score :: ProfileOf(score) == p ==>
      (t > 1 ==> score > 25.0 * (t - 1) as real) && (t < 4 ==> score <= 25.0 * t as real)
  {
    match p
    case Debutant => 1
    case Emergent => 2
    case Challenger => 3
    case Leader => 4
  }

  /** Static-mode tier of a percentage: clamp, then classify as a profile. */
  function PalierFromPercentage(percentage: real): (t: Tier)
    ensures t == 1 <==> percentage <= 25.0
    ensures t == 2 <==> 25.0 < percentage <= 50.0
    ensures t == 3 <==> 50.0 < percentage <= 75.0
    ensures t == 4 <==> 75.0 < percentage
  {
    ProfileLevel(ProfileOf(ClampReal(percentage, 0.0, 100.0)))
  }

  /** Tier of a raw 0..36 score (clamped): thresholds 9 / 18 / 27 on the raw score. */
  function PalierFromScore(score: real): (t: Tier)
    ensures t == 1 <==> score <= 9.0
    ensures t == 2 <==> 9.0 < score <= 18.0
    ensures t == 3 <==> 18.0 < score <= 27.0
    ensures t == 4 <==> 27.0 < score
  {
    var bounded := ClampReal(score, 0.0, 36.0);
    PalierFromPercentage((bounded / 36.0) * 100.0)
  }

  /** All four classifiers put every score in the same tier. */
  lemma ClassifiersAgree(s: real)
    ensures ProfileTier(ProfileFromGlobalScore(s)) == TierFromPercentage(s)
    ensures ProfileLevel(ProfileOf(s)) == TierFromPercentage(s)
    ensures PalierFromPercentage(s) == TierFromPercentage(s)
  {
  }

  lemma PalierFromScoreEnds()
    ensures PalierFromScore(0.0) == 1 && PalierFromScore(36.0) == 4
  {
  }

  /** The two profile sets correspond one to one, level by level. */
  function ToConversationProfile(p: Profile): (c: ConversationProfile)
    ensures ProfileTier(c) == ProfileLevel(p)
  {
    match p
    case Debutant => Beginner
    case Emergent => Emerging
    case Challenger => ConversationChallenger
    case Leader => ConversationLeader
  }

  lemma ProfileSetsParallel(s: real)
    ensures ProfileFromGlobalScore(s) == ToConversationProfile(ProfileOf(s))
  {
  }

  // ---------------------------------------------------------------------------
  // Gaps, priorities, status

  /** `max(0, cible - atteint)`. */
  function Gap(palierAtteint: int, palierCible: int): (g: int)
    ensures g >= 0 && g >= palierCible - palierAtteint
    ensures g == 0 || g == palierCible - palierAtteint
  {
    if palierCible - palierAtteint > 0 then palierCible - palierAtteint else 0
  }

  function GapPriority(gap: int): (p: Priority)
    ensures p == High <==> gap >= 2
    ensures p == Medium <==> gap == 1
    ensures p == Low <==> gap < 1
  {
    if gap >= 2 then High else if gap == 1 then Medium else Low
  }

  function GetTierStatus(achievedTier: Tier, targetTier: Tier): (s: TierStatus)
    ensures s == AboveTarget <==> achievedTier > targetTier
    ensures s == OnTarget <==> achievedTier == targetTier
    ensures s == BelowTarget <==> achievedTier < targetTier
  {
    if achievedTier > targetTier then AboveTarget
    else if achievedTier == targetTier then OnTarget
    else BelowTarget
  }

  /** Gap 3 (tier 1 against target 4) is High; a met target is Low. */
  lemma GapPriorityExamples()
    ensures GapPriority(Gap(1, 4)) == High
    ensures forall a: Tier, t: Tier :: a >= t ==> GapPriority(Gap(a, t)) == Low
  {
  }

  // ---------------------------------------------------------------------------
  // Static dimension aggregation

  /** `Math.round(rawScore / 36 * 100)` and its tier. */
  function ComputeDimensionFromPaliers(id: string, name: string, palierScores: PalierScores): (d: DimensionScore)
    ensures d.id == id && d.name == name && d.palierScores == palierScores
    ensures d.rawScore == palierScores.p1 + palierScores.p2 + palierScores.p3 + palierScores.p4
    ensures 2 * 36 * d.percentage <= 2 * 100 * d.rawScore + 36 < 2 * 36 * (d.percentage + 1)
    ensures d.palierAtteint == TierFromPercentage(d.percentage as real)
  {
    var rawScore := palierScores.p1 + palierScores.p2 + palierScores.p3 + palierScores.p4;
    var percentage := RoundDiv(100 * rawScore, 36);
    DimensionScore(id, name, palierScores, rawScore, percentage, PalierFromPercentage(percentage as real))
  }

  predicate PalierScoresInRange(ps: PalierScores)
  {
    0 <= ps.p1 <= 9 && 0 <= ps.p2 <= 9 && 0 <= ps.p3 <= 9 && 0 <= ps.p4 <= 9
  }

  /** Well-formed palier sums give a raw score in 0..36 and a percentage in 0..100. */
  lemma DimensionInRange(id: string, name: string, ps: PalierScores)
    requires PalierScoresInRange(ps)
    ensures var d := ComputeDimensionFromPaliers(id, name, ps);
      0 <= d.rawScore <= 36 && 0 <= d.percentage <= 100
  {
    var d := ComputeDimensionFromPaliers(id, name, ps);
    RoundDivBounds(100 * d.rawScore, 36, 0, 100);
  }

  lemma DimensionExtremes(id: string, name: string)
    ensures var d := ComputeDimensionFromPaliers(id, name, PalierScores(9, 9, 9, 9));
      d.rawScore == 36 && d.percentage == 100 && d.palierAtteint == 4
    ensures var d := ComputeDimensionFromPaliers(id, name, PalierScores(0, 0, 0, 0));
      d.rawScore == 0 && d.percentage == 0 && d.palierAtteint == 1
  {
  }

  /** Rounding before classifying never changes the tier of an integer raw score:
      the rounded percentage lands in the tier that the raw-score thresholds give. */
  lemma {:induction false} RoundedPercentTier(raw: int)
    ensures TierFromPercentage(RoundDiv(100 * raw, 36) as real) == PalierFromScore(raw as real)
  {
    var pct := RoundDiv(100 * raw, 36);
    if raw <= 9 {
      RoundDivMonotone(100 * raw, 900, 36);
      assert pct <= 25;
    } else if raw <= 18 {
      RoundDivMonotone(1000, 100 * raw, 36);
      RoundDivMonotone(100 * raw, 1800, 36);
      assert 26 <= pct <= 50;
    } else if raw <= 27 {
      RoundDivMonotone(1900, 100 * raw, 36);
      RoundDivMonotone(100 * raw, 2700, 36);
      assert 51 <= pct <= 75;
    } else {
      RoundDivMonotone(2800, 100 * raw, 36);
      assert 76 <= pct;
    }
  }

  /** The tier `computeDimensionFromPaliers` stores is the tier of its raw score. */
  lemma DimensionTierFromRawScore(id: string, name: string, ps: PalierScores)
    ensures var d := ComputeDimensionFromPaliers(id, name, ps);
      d.palierAtteint == PalierFromScore(d.rawScore as real)
  {
    RoundedPercentTier(ps.p1 + ps.p2 + ps.p3 + ps.p4);
  }
  /** Sum of the dimension percentages. */
  function SumPercentages(dimensions: seq<DimensionScore>): int
  {
    if dimensions == [] then 0
    else SumPercentages(dimensions[..|dimensions| - 1]) + dimensions[|dimensions| - 1].percentage
  }

  /** Rounded mean of the percentages; 0 for no dimensions. */
  function ComputeGlobalScore(dimensions: seq<DimensionScore>): (g: int)
    ensures dimensions == [] ==> g == 0
    ensures dimensions != [] ==>
      var n := |dimensions|;
      2 * n * g <= 2 * SumPercentages(dimensions) + n < 2 * n * (g + 1)
  {
    if |dimensions| == 0 then 0 else RoundDiv(SumPercentages(dimensions), |dimensions|)
  }

  lemma {:induction false} SumPercentagesBounds(dimensions: seq<DimensionScore>)
    requires forall i :: 0 <= i < |dimensions| ==> 0 <= dimensions[i].percentage <= 100
    ensures 0 <= SumPercentages(dimensions) <= 100 * |dimensions|
  {
    if dimensions != [] {
      SumPercentagesBounds(dimensions[..|dimensions| - 1]);
    }
  }

  /** The global score of percentages in 0..100 is in 0..100. */
  lemma GlobalScoreInRange(dimensions: seq<DimensionScore>)
    requires forall i :: 0 <= i < |dimensions| ==> 0 <= dimensions[i].percentage <= 100
    ensures 0 <= ComputeGlobalScore(dimensions) <= 100
  {
    if dimensions != [] {
      SumPercentagesBounds(dimensions);
      RoundDivBounds(SumPercentages(dimensions), |dimensions|, 0, 100);
    }
  }

  // ---------------------------------------------------------------------------
  // The two gap policies

  /** Static policy: every target is palier 4, whatever `profileLevel` says. */
  function ComputeGaps(dimensions: seq<DimensionScore>, profileLevel: int): (gaps: seq<GapInfo>)
    ensures |gaps| == |dimensions|
    ensures forall i :: 0 <= i < |gaps| ==>
      var d := dimensions[i];
      gaps[i] == GapInfo(d.id, d.name, d.palierAtteint, 4, 4 - d.palierAtteint, GapPriority(4 - d.palierAtteint))
  {
    seq(|dimensions|, i requires 0 <= i < |dimensions| =>
      var d := dimensions[i];
      var gap := Gap(d.palierAtteint, 4);
      GapInfo(d.id, d.name, d.palierAtteint, 4, gap, GapPriority(gap)))
  }

  lemma ComputeGapsIgnoresProfile(dimensions: seq<DimensionScore>, a: int, b: int)
    ensures ComputeGaps(dimensions, a) == ComputeGaps(dimensions, b)
  {
  }

  /** Adaptive policy: the caller chooses the target tier. */
  function ComputeGapsFromPercentages(dimensions: seq<DimensionPercentageInput>, targetTier: Tier): (gaps: seq<TierGapInfo>)
    ensures |gaps| == |dimensions|
    ensures forall i :: 0 <= i < |gaps| ==>
      var d, g := dimensions[i], gaps[i];
      && g.id == d.id && g.name == d.name
      && g.achievedTier == TierFromPercentage(d.percentage as real)
      && g.targetTier == targetTier
      && g.gap == Gap(g.achievedTier, targetTier)
      && g.priority == GapPriority(g.gap)
  {
    seq(|dimensions|, i requires 0 <= i < |dimensions| =>
      var d := dimensions[i];
      var achieved := TierFromPercentage(d.percentage as real);
      var gap := Gap(achieved, targetTier);
      TierGapInfo(d.id, d.name, achieved, targetTier, gap, GapPriority(gap)))
  }

  function AsPercentageInputs(dimensions: seq<DimensionScore>): (r: seq<DimensionPercentageInput>)
    ensures |r| == |dimensions|
    ensures forall i :: 0 <= i < |r| ==>
      r[i] == DimensionPercentageInput(dimensions[i].id, dimensions[i].name, dimensions[i].percentage)
  {
    seq(|dimensions|, i requires 0 <= i < |dimensions| =>
      DimensionPercentageInput(dimensions[i].id, dimensions[i].name, dimensions[i].percentage))
  }

  /** With target 4 the adaptive policy gives the static policy's gaps and priorities. */
  lemma PoliciesAgreeAtTargetFour(dimensions: seq<DimensionScore>, profileLevel: int)
    requires forall i :: 0 <= i < |dimensions| ==>
      dimensions[i].palierAtteint == TierFromPercentage(dimensions[i].percentage as real)
    ensures var s, a := ComputeGaps(dimensions, profileLevel), ComputeGapsFromPercentages(AsPercentageInputs(dimensions), 4);
      |s| == |a| && forall i :: 0 <= i < |s| ==>
        s[i].gap == a[i].gap && s[i].priority == a[i].priority && s[i].palierAtteint == a[i].achievedTier
  {
  }

  lemma {:induction false} SumPercentagesUniform(dimensions: seq<DimensionScore>, pct: int)
    requires forall i :: 0 <= i < |dimensions| ==> dimensions[i].percentage == pct
    ensures SumPercentages(dimensions) == |dimensions| * pct
  {
    if dimensions != [] {
      SumPercentagesUniform(dimensions[..|dimensions| - 1], pct);
    }
  }

  lemma {:induction false} SumPercentagesFront(dimensions: seq<DimensionScore>)
    requires dimensions != []
    ensures SumPercentages(dimensions) == dimensions[0].percentage + SumPercentages(dimensions[1..])
  {
    if |dimensions| > 1 {
      var front := dimensions[..|dimensions| - 1];
      SumPercentagesFront(front);
      assert front[1..] == dimensions[1..][..|dimensions[1..]| - 1];
    }
  }

  /** Six dimensions at 30%: global score 30, hence a tier-2 profile, and against that
      profile-derived target every adaptive-policy gap is 0. */
  lemma UniformScenario(dimensions: seq<DimensionScore>)
    requires |dimensions| == 6
    requires forall i :: 0 <= i < 6 ==> dimensions[i].percentage == 30
    ensures ComputeGlobalScore(dimensions) == 30
    ensures ProfileLevel(ProfileOf(ComputeGlobalScore(dimensions) as real)) == 2
    ensures forall g :: g in ComputeGapsFromPercentages(AsPercentageInputs(dimensions), 2) ==> g.gap == 0
  {
    SumPercentagesUniform(dimensions, 30);
  }

  /** One dimension at 90% and five at 40%: global score 48, a tier-2 profile. The 90%
      dimension (tier 4) has gap 0 under the fixed-target policy, while its status against
      the profile-derived target is "above target". */
  lemma MixedScenario(dimensions: seq<DimensionScore>)
    requires |dimensions| == 6
    requires dimensions[0].percentage == 90
    requires forall i :: 1 <= i < 6 ==> dimensions[i].percentage == 40
    requires dimensions[0].palierAtteint == TierFromPercentage(90.0)
    ensures ComputeGlobalScore(dimensions) == 48
    ensures ProfileLevel(ProfileOf(ComputeGlobalScore(dimensions) as real)) == 2
    ensures ComputeGaps(dimensions, 2)[0].gap == 0
    ensures GetTierStatus(dimensions[0].palierAtteint, 2) == AboveTarget
  {
    SumPercentagesFront(dimensions);
    SumPercentagesUniform(dimensions[1..], 40);
  }
  // ---------------------------------------------------------------------------
  // Labels, narratives, action suggestions
  //
  // The prose of these tables is produced by contract-free text functions of a selector;
  // the contracts state which entry is selected, not what its wording is.

  function GetPalierLabel(palier: int): (s: string)
    ensures s == "" <==> !(1 <= palier <= 4)
  {
    if palier == 1 then "Initiation"
    else if palier == 2 then "Experimentation"
    else if palier == 3 then "Structuring"
    else if palier == 4 then "Steering & Innovation"
    else ""
  }

  /** The description shared by the profiles of a level. */
  function ProfileDescription(level: Tier): string
  {
    if level == 1 then
      "Your organisation is just discovering digital. Initiatives are occasional and not yet structured, so the impact on the business model remains limited. The main challenge is to establish a shared digital vision and the first operational foundations."
    else if level == 2 then
      "Your organisation is experimenting with digital through visible tools and projects. Practices are still fragmented between departments. The challenge is to structure, prioritise and better coordinate initiatives to gain coherence and impact."
    else if level == 3 then
      "Your organisation is already well structured and integrated into key operations. Your organisation has solid processes and tools, but can still progress on industrialisation, data and innovation to catch up with leaders in your sector."
    else
      "Digital is at the heart of the business model, driven by a culture of innovation and data. Your organisation is seen as a reference in its market and must maintain this advantage through anticipation, continuous experimentation and operational excellence."
  }

  /** `describeProfile`: the text of the profile's level. */
  function DescribeProfile(p: Profile): string
  {
    ProfileDescription(ProfileLevel(p))
  }

  /** The adaptive questionnaire describes each level with the static questionnaire's text. */
  function DescribeConversationProfile(p: ConversationProfile): (s: string)
    ensures forall q: Profile :: ToConversationProfile(q) == p ==> s == DescribeProfile(q)
  {
    ProfileDescription(ProfileTier(p))
  }

  /** The six dimensions the narrative and action tables know. */
  const KnownDimensionIds: seq<string> :=
    ["strategie", "culture", "relation_client", "processus", "technologies", "securite"]

  /** The row of the narrative and action tables a dimension id selects. */
  datatype DimensionKind = Strategie | Culture | RelationClient | Processus | Technologies | Securite | OtherDimension

  function KindOf(dimensionId: string): (k: DimensionKind)
    ensures k == OtherDimension <==> dimensionId !in KnownDimensionIds
    ensures k == Strategie <==> dimensionId == "strategie"
    ensures k == Culture <==> dimensionId == "culture"
    ensures k == RelationClient <==> dimensionId == "relation_client"
    ensures k == Processus <==> dimensionId == "processus"
    ensures k == Technologies <==> dimensionId == "technologies"
    ensures k == Securite <==> dimensionId == "securite"
  {
    if dimensionId == "strategie" then Strategie
    else if dimensionId == "culture" then Culture
    else if dimensionId == "relation_client" then RelationClient
    else if dimensionId == "processus" then Processus
    else if dimensionId == "technologies" then Technologies
    else if dimensionId == "securite" then Securite
    else OtherDimension
  }

  /** The narrative text of a row of the table at a palier. */
  function NarrativeText(row: DimensionKind, palier: Tier): string
  {
    match row
    case Culture =>
      if palier == 1 then
        "At the Initiation tier, the digital culture is still emerging. Staff awareness is occasional and upskilling needs are not yet structured."
      else if palier == 2 then
        "At the Experimentation tier, an initial training plan and key digital roles appear. Awareness is increasing but collaborative practices remain uneven."
      else if palier == 3 then
        "At the Structuring tier, capability pathways are organised, cross-functional collaboration is strengthened and cultural transformation is monitored with indicators."
      else
        "At the Steering & Innovation tier, the organisation attracts digital talent, encourages autonomy and initiative, and has leadership strongly engaged in digital transformation."
    case RelationClient =>
      if palier == 1 then
        "At the Initiation tier, the digital presence towards customers remains basic (showcase website, email) and the experience is poorly structured across channels."
      else if palier == 2 then
        "At the Experimentation tier, the first e-commerce or online service capabilities emerge, with an initial CRM and simple segmentation."
      else if palier == 3 then
        "At the Structuring tier, the experience becomes omnichannel, personalised and powered by more advanced customer analytics."
      else
        "At the Steering & Innovation tier, the organisation anticipates customer needs, leverages data and AI, and orchestrates an ecosystem of partners to enrich the experience."
    case Processus =>
      if palier == 1 then
        "At the Initiation tier, processes are only partially documented and automation is occasional. Improvements are mainly informal."
      else if palier == 2 then
        "At the Experimentation tier, key processes are mapped, a workflow platform begins to structure flows and performance KPIs are introduced."
      else if palier == 3 then
        "At the Structuring tier, advanced automation, RPA and continuous improvement help secure and optimise operations."
      else
        "At the Steering & Innovation tier, processes become intelligent, adaptive and centred on a frictionless experience, supported by a culture of continuous innovation."
    case Technologies =>
      if palier == 1 then
        "At the Initiation tier, the IT infrastructure is basic and technology management remains largely opportunistic and reactive."
      else if palier == 2 then
        "At the Experimentation tier, the technology architecture is formalised, initial cloud migrations are underway and interoperability is improving."
      else if palier == 3 then
        "At the Structuring tier, the architecture is API- and microservices-oriented, data is centralised and DevOps practices support deployments."
      else
        "At the Steering & Innovation tier, the organisation has a cloud-native architecture, an advanced data platform and integrates AI at the core of its solutions."
    case Securite =>
      if palier == 1 then
        "At the Initiation tier, security is mainly addressed through awareness and basic technical protection (antivirus, simple backups)."
      else if palier == 2 then
        "At the Experimentation tier, security policies are formalised, access management is structured and regulatory compliance is taken into account."
      else if palier == 3 then
        "At the Structuring tier, encryption, security monitoring and continuity plans are in place and regularly tested."
      else
        "At the Steering & Innovation tier, security is designed in by default, relies on zero-trust architectures and an advanced capability to detect and respond to threats."
    case Strategie | OtherDimension =>
      if palier == 1 then
        "At the Initiation tier, digital transformation is seen as an opportunity but there is no formalised vision. A few pilot projects may exist but they are not yet connected to a global strategic trajectory."
      else if palier == 2 then
        "At the Experimentation tier, an initial digital strategy begins to take shape: priority axes are identified, investments are planned, but governance and follow-up are still limited."
      else if palier == 3 then
        "At the Structuring tier, the digital strategy is clearly defined, shared and aligned with the business strategy. Priorities are arbitrated, roadmaps are managed and digital performance indicators are monitored regularly."
      else
        "At the Steering & Innovation tier, the digital strategy is anticipatory and relies on monitoring, data and innovation to create new growth levers. Digital becomes a structural differentiation factor in the market."
  }

  /** Which narrative `describeDimensionPalier` shows: none outside paliers 1..4, otherwise
      the palier's entry in the row of the dimension, an unknown id reading the
      "strategie" row. */
  datatype NarrativeChoice = NoNarrative | NarrativeAt(row: DimensionKind, palier: Tier)

  function SelectNarrative(dimensionId: string, palier: int): (c: NarrativeChoice)
    ensures c == NoNarrative <==> !(1 <= palier <= 4)
    ensures c != NoNarrative ==> c.palier == palier && c.row != OtherDimension
    ensures c != NoNarrative ==> (c.row == Strategie <==> dimensionId == "strategie" || dimensionId !in KnownDimensionIds)
    ensures c != NoNarrative && dimensionId in KnownDimensionIds ==> c.row == KindOf(dimensionId)
  {
    if 1 <= palier <= 4 then
      var kind := KindOf(dimensionId);
      NarrativeAt(if kind == OtherDimension then Strategie else kind, palier)
    else NoNarrative
  }

  /** The narrative of a dimension at a palier; the empty string outside 1..4. */
  function DescribeDimensionPalier(dimensionId: string, palier: int): (s: string)
    ensures !(1 <= palier <= 4) ==> s == ""
  {
    match SelectNarrative(dimensionId, palier)
    case NoNarrative => ""
    case NarrativeAt(row, tier) => NarrativeText(row, tier)
  }

  datatype Actions = Actions(quickWins: seq<string>, strategic: seq<string>)

  /** The slots of the action table: two quick wins, two strategic items, and the
      executive-sponsor item that large gaps add. */
  datatype ActionSlot = QuickWin1 | QuickWin2 | Strategic1 | Strategic2 | ExecutiveSponsor

  function ActionText(row: DimensionKind, slot: ActionSlot): string
  {
    if slot == ExecutiveSponsor then
      "Make this dimension an explicit executive committee priority with a dedicated sponsor."
    else match row
    case Strategie =>
      if slot == QuickWin1 then
        "Formalise a one-page digital strategy brief with 3 key priorities."
      else if slot == QuickWin2 then
        "Clarify ongoing digital projects and link them to explicit business objectives."
      else if slot == Strategic1 then
        "Build a 12–24 month digital roadmap with investment estimates and associated KPIs."
      else
        "Set up a digital transformation steering committee with quarterly reviews."
    case Culture =>
      if slot == QuickWin1 then
        "Launch a digital awareness campaign (workshops, webinars, internal talks)."
      else if slot == QuickWin2 then
        "Identify priority teams for an initial digital upskilling programme."
      else if slot == Strategic1 then
        "Structure a digital skills development plan by role or job family."
      else
        "Define and deploy digital champion roles in key business units."
    case RelationClient =>
      if slot == QuickWin1 then
        "Map key customer journeys and identify 2–3 major digital pain points."
      else if slot == QuickWin2 then
        "Set up a simple mechanism for continuous customer feedback collection."
      else if slot == Strategic1 then
        "Strengthen omnichannel experience (consistency across physical and digital channels)."
      else
        "Implement a personalisation approach based on customer data."
    case Processus =>
      if slot == QuickWin1 then
        "Identify the 2–3 most critical processes and document their key steps."
      else if slot == QuickWin2 then
        "Implement an initial targeted automation on a low-risk repetitive task."
      else if slot == Strategic1 then
        "Deploy an automation/workflow platform on a priority perimeter."
      else
        "Structure a continuous improvement approach (process reviews and KPIs)."
    case Technologies =>
      if slot == QuickWin1 then
        "Perform an inventory of the IT architecture and core applications."
      else if slot == QuickWin2 then
        "Prioritise 1–2 short-term rationalisation or modernisation initiatives."
      else if slot == Strategic1 then
        "Build an IT master plan including cloud migration and data management."
      else
        "Gradually introduce DevOps practices on a pilot application perimeter."
    case Securite =>
      if slot == QuickWin1 then
        "Remind staff of security best practices (passwords, phishing, etc.)."
      else if slot == QuickWin2 then
        "Check the existence and effectiveness of backups on critical systems."
      else if slot == Strategic1 then
        "Formalise and roll out a security and access management policy."
      else
        "Implement a structured security monitoring and audit capability."
    case OtherDimension =>
      if slot == QuickWin1 then
        "Clarify the current maturity level and main pain points observed."
      else if slot == QuickWin2 then
        "Organise a scoping workshop to define 2–3 quick and realistic actions."
      else if slot == Strategic1 then
        "Build a structured roadmap for the dimension concerned."
      else
        "Define indicators to track progress over the next 6–12 months."
  }

  /** The slots `suggestActionsForDimension` fills: none without a gap; otherwise two quick
      wins and two strategic items of the row, the executive-sponsor item following them
      exactly when the gap is 2 or more. Unknown ids read the generic row. */
  function SelectActions(dimensionId: string, gap: int): (r: (DimensionKind, seq<ActionSlot>, seq<ActionSlot>))
    ensures r.0 == KindOf(dimensionId)
    ensures gap <= 0 ==> r.1 == [] && r.2 == []
    ensures gap > 0 ==> |r.2| == (if gap >= 2 then 3 else 2)
    ensures gap > 0 ==> r.1 == [QuickWin1, QuickWin2] && r.2[..2] == [Strategic1, Strategic2]
    ensures ExecutiveSponsor in r.2 <==> gap >= 2
  {
    var row := KindOf(dimensionId);
    if gap <= 0 then (row, [], [])
    else if gap >= 2 then (row, [QuickWin1, QuickWin2], [Strategic1, Strategic2, ExecutiveSponsor])
    else (row, [QuickWin1, QuickWin2], [Strategic1, Strategic2])
  }

  function ActionTexts(row: DimensionKind, slots: seq<ActionSlot>): (r: seq<string>)
    ensures |r| == |slots|
    ensures forall i :: 0 <= i < |slots| ==> r[i] == ActionText(row, slots[i])
  {
    seq(|slots|, i requires 0 <= i < |slots| => ActionText(row, slots[i]))
  }

  function SuggestActionsForDimension(dimensionId: string, gap: int): (a: Actions)
    ensures gap <= 0 ==> a == Actions([], [])
    ensures gap > 0 ==> |a.quickWins| == 2 && |a.strategic| == (if gap >= 2 then 3 else 2)
  {
    var (row, quickWins, strategic) := SelectActions(dimensionId, gap);
    Actions(ActionTexts(row, quickWins), ActionTexts(row, strategic))
  }

  /** The two lists a suggestion holds. */
  datatype ActionList = QuickWinList | StrategicList

  function ListOf(a: Actions, list: ActionList): seq<string>
  {
    match list
    case QuickWinList => a.quickWins
    case StrategicList => a.strategic
  }

  /** An unknown id reads the "strategie" narratives but the generic action row, not the
      "strategie" one: the two tables fall back differently. */
  lemma FallbacksDiffer(dimensionId: string, palier: int)
    requires dimensionId !in KnownDimensionIds && 1 <= palier <= 4
    ensures SelectNarrative(dimensionId, palier) == SelectNarrative("strategie", palier)
    ensures DescribeDimensionPalier(dimensionId, palier) == DescribeDimensionPalier("strategie", palier)
    ensures SelectActions(dimensionId, 1).0 == OtherDimension != SelectActions("strategie", 1).0
  {
  }
}
