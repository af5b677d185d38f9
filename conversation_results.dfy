/** The results of the conversational questionnaire (app/conversation-results/page.tsx):
    one score per dimension from the engine, their rounded mean, the profile, gaps against
    tier 4, the strongest and weakest dimensions, the suggested actions, and the elapsed
    time as "m:ss". */
module ConversationResults {
  import opened Collections
  import opened JsNumbers
  import opened ScoringUtils
  import opened AdaptiveEngine

  /** BaseDimensionScore, without the display icon. */
  datatype BaseScore = BaseScore(id: string, name: string, score: int)

  /** EnrichedDimensionScore, without the display icon. */
  datatype EnrichedDimension = EnrichedDimension(
    id: string, name: string, score: int,
    tier: Tier, targetTier: Tier, gap: int, priority: Priority, status: TierStatus)

  datatype PersonalizedResults = PersonalizedResults(
    globalScore: Option<int>,
    profile: ConversationProfile,
    dimensionScores: seq<EnrichedDimension>,
    timeToComplete: string,
    keyStrengths: seq<string>,
    criticalGaps: seq<string>,
    quickWins: seq<string>,
    strategicInitiatives: seq<string>,
    profileDescription: string)

  /** The gap target of this page, whatever the profile. */
  const TargetTier: Tier := 4

  // ---------------------------------------------------------------------------
  // Scores

  /** The engine's score for every dimension, in definition order. */
  function BaseScores(questionDimensionMap: map<string, string>, dimensions: seq<Dimension>,
                      answers: seq<(string, StoredAnswer)>): (r: seq<BaseScore>)
    ensures |r| == |dimensions|
    ensures forall i :: 0 <= i < |dimensions| ==>
      r[i] == BaseScore(dimensions[i].id, dimensions[i].name,
                        DimensionPercentage(questionDimensionMap, dimensions[i].id, answers))
  {
    seq(|dimensions|, i requires 0 <= i < |dimensions| =>
      BaseScore(dimensions[i].id, dimensions[i].name,
                DimensionPercentage(questionDimensionMap, dimensions[i].id, answers)))
  }

  /** Asks the engine for each dimension's score, in definition order. */
  method BaseDimensionScores(engine: Engine, dimensions: seq<Dimension>, answers: seq<(string, StoredAnswer)>)
    returns (base: seq<BaseScore>)
    ensures base == BaseScores(engine.questionDimensionMap, dimensions, answers)
  {
    base := [];
    var i := 0;
    while i < |dimensions|
      invariant 0 <= i <= |dimensions|
      invariant base == BaseScores(engine.questionDimensionMap, dimensions[..i], answers)
    {
      var score := engine.CalculateScore(dimensions[i].id, answers);
      base := base + [BaseScore(dimensions[i].id, dimensions[i].name, score)];
      i := i + 1;
    }
    assert dimensions[..i] == dimensions;
  }

  function SumScores(base: seq<BaseScore>): int
  {
    if base == [] then 0 else SumScores(base[..|base| - 1]) + base[|base| - 1].score
  }

  /** `Math.round(sum / length)`, None for the NaN an empty list gives. */
  function GlobalScore(base: seq<BaseScore>): (g: Option<int>)
    ensures g.None? <==> base == []
    ensures g.Some? ==> 2 * |base| * g.value <= 2 * SumScores(base) + |base| < 2 * |base| * (g.value + 1)
  {
    if base == [] then None else Some(RoundDiv(SumScores(base), |base|))
  }

  /** `getProfileFromGlobalScore(globalScore)`: every comparison with NaN fails, so no
      dimensions at all make a Leader. */
  function ProfileFor(globalScore: Option<int>): (p: ConversationProfile)
    ensures globalScore.None? ==> p == ConversationLeader
    ensures globalScore.Some? ==> p == ProfileFromGlobalScore(globalScore.value as real)
  {
    match globalScore
    case None => ConversationLeader
    case Some(g) => ProfileFromGlobalScore(g as real)
  }

  /** The same static dimension list read as engine scores. */
  predicate SameScores(base: seq<BaseScore>, dimensions: seq<DimensionScore>)
  {
    |base| == |dimensions| && forall i :: 0 <= i < |base| ==> base[i].score == dimensions[i].percentage
  }

  /** On a non-empty list this page's mean is the library's `computeGlobalScore`; the two
      differ only on the empty list (NaN here, 0 there). */
  lemma GlobalScoreAgrees(base: seq<BaseScore>, dimensions: seq<DimensionScore>)
    requires SameScores(base, dimensions)
    ensures base != [] ==> GlobalScore(base) == Some(ComputeGlobalScore(dimensions))
    ensures base == [] ==> GlobalScore(base).None? && ComputeGlobalScore(dimensions) == 0
  {
    SumScoresAgree(base, dimensions);
  }

  lemma {:induction false} SumScoresAgree(base: seq<BaseScore>, dimensions: seq<DimensionScore>)
    requires SameScores(base, dimensions)
    ensures SumScores(base) == SumPercentages(dimensions)
  {
    if base != [] {
      SumScoresAgree(base[..|base| - 1], dimensions[..|dimensions| - 1]);
    }
  }

  /** Scores in [0, 100] give a global score in [0, 100]. */
  lemma GlobalScoreInRange(base: seq<BaseScore>)
    requires base != []
    requires forall i :: 0 <= i < |base| ==> 0 <= base[i].score <= 100
    ensures 0 <= GlobalScore(base).value <= 100
  {
    SumScoresBounds(base);
    RoundDivBounds(SumScores(base), |base|, 0, 100);
  }

  lemma {:induction false} SumScoresBounds(base: seq<BaseScore>)
    requires forall i :: 0 <= i < |base| ==> 0 <= base[i].score <= 100
    ensures 0 <= SumScores(base) <= 100 * |base|
  {
    if base != [] {
      SumScoresBounds(base[..|base| - 1]);
    }
  }

  // ---------------------------------------------------------------------------
  // Gaps and enrichment

  /** The percentages the gap computation reads. */
  function PercentageInputs(base: seq<BaseScore>): (r: seq<DimensionPercentageInput>)
    ensures |r| == |base|
    ensures forall i :: 0 <= i < |base| ==> r[i] == DimensionPercentageInput(base[i].id, base[i].name, base[i].score)
  {
    seq(|base|, i requires 0 <= i < |base| => DimensionPercentageInput(base[i].id, base[i].name, base[i].score))
  }

  /** `gapMap.get(id)`: a Map built from the list keeps the last entry of each id. */
  function GapFor(gaps: seq<TierGapInfo>, id: string): (r: Option<TierGapInfo>)
    ensures r.None? <==> forall i :: 0 <= i < |gaps| ==> gaps[i].id != id
    ensures r.Some? ==> r.value.id == id && r.value in gaps
  {
    FindLast(gaps, (g: TierGapInfo) => g.id == id)
  }

  /** One enriched row: the score from the dimension, the tiers, gap and priority from its
      gap info, and the status those tiers give. */
  function EnrichOne(b: BaseScore, g: TierGapInfo): (r: EnrichedDimension)
    ensures r.status == AboveTarget <==> r.tier > r.targetTier
    ensures r.status == OnTarget <==> r.tier == r.targetTier
    ensures r.status == BelowTarget <==> r.tier < r.targetTier
  {
    EnrichedDimension(b.id, b.name, b.score, g.achievedTier, g.targetTier, g.gap, g.priority,
                      GetTierStatus(g.achievedTier, g.targetTier))
  }

  /** `baseDimensionScores.map(...)`, which throws at the first dimension without gap info. */
  function Enrich(base: seq<BaseScore>, gaps: seq<TierGapInfo>): (r: Result<seq<EnrichedDimension>, string>)
    ensures r.Err? <==> exists i :: 0 <= i < |base| && GapFor(gaps, base[i].id).None?
    ensures r.Ok? ==> |r.value| == |base|
    ensures r.Ok? ==> forall i :: 0 <= i < |base| ==> r.value[i] == EnrichOne(base[i], GapFor(gaps, base[i].id).value)
  {
    if base == [] then Ok([])
    else
      var init, last := base[..|base| - 1], base[|base| - 1];
      match Enrich(init, gaps)
      case Err(e) => Err(e)
      case Ok(rows) =>
        match GapFor(gaps, last.id)
        case None => Err("Missing gap info for dimension " + last.id)
        case Some(g) => Ok(rows + [EnrichOne(last, g)])
  }

  /** The gaps are computed from the same list, so enrichment never throws; with distinct
      ids every row carries its own score's tier, the target, their gap, its priority and
      its status. */
  lemma EnrichNeverFails(base: seq<BaseScore>, target: Tier)
    ensures Enrich(base, ComputeGapsFromPercentages(PercentageInputs(base), target)).Ok?
    ensures Distinct(Ids(base)) ==>
      var rows := Enrich(base, ComputeGapsFromPercentages(PercentageInputs(base), target)).value;
      forall i :: 0 <= i < |base| ==> RowOf(rows[i], base[i], target)
  {
    var gaps := ComputeGapsFromPercentages(PercentageInputs(base), target);
    EveryDimensionHasGapInfo(base, gaps, target);
    if Distinct(Ids(base)) {
      RowsUseOwnGapInfo(base, gaps, target);
      var rows := Enrich(base, gaps).value;
      forall i | 0 <= i < |base| ensures RowOf(rows[i], base[i], target) {
        assert rows[i] == EnrichOne(base[i], gaps[i]);
      }
    }
  }

  /** `row` is the enriched row of `b` against `target`: its score, the tier of that score,
      the target, their gap, the gap's priority and the tiers' status. */
  predicate RowOf(row: EnrichedDimension, b: BaseScore, target: Tier)
  {
    row.score == b.score &&
    row.tier == TierFromPercentage(b.score as real) &&
    row.targetTier == target &&
    row.gap == Gap(row.tier, target) &&
    row.priority == GapPriority(row.gap) &&
    row.status == GetTierStatus(row.tier, target)
  }

  lemma EveryDimensionHasGapInfo(base: seq<BaseScore>, gaps: seq<TierGapInfo>, target: Tier)
    requires gaps == ComputeGapsFromPercentages(PercentageInputs(base), target)
    ensures Enrich(base, gaps).Ok?
  {
    forall i | 0 <= i < |base| ensures GapFor(gaps, base[i].id).Some? {
      assert gaps[i].id == base[i].id;
    }
  }

  lemma RowsUseOwnGapInfo(base: seq<BaseScore>, gaps: seq<TierGapInfo>, target: Tier)
    requires gaps == ComputeGapsFromPercentages(PercentageInputs(base), target)
    requires Distinct(Ids(base)) && Enrich(base, gaps).Ok?
    ensures forall i :: 0 <= i < |base| ==> Enrich(base, gaps).value[i] == EnrichOne(base[i], gaps[i])
  {
    forall i | 0 <= i < |base| ensures Enrich(base, gaps).value[i] == EnrichOne(base[i], gaps[i]) {
      OwnGapInfo(base, gaps, i);
    }
  }

  lemma OwnGapInfo(base: seq<BaseScore>, gaps: seq<TierGapInfo>, i: int)
    requires Distinct(Ids(base)) && 0 <= i < |base|
    requires |gaps| == |base| && forall k :: 0 <= k < |gaps| ==> gaps[k].id == base[k].id
    ensures GapFor(gaps, base[i].id) == Some(gaps[i])
  {
    var g := GapFor(gaps, base[i].id).value;
    var k :| 0 <= k < |gaps| && gaps[k] == g;
    assert Ids(base)[k] == base[i].id == Ids(base)[i];
  }

  function Ids(base: seq<BaseScore>): (r: seq<string>)
    ensures |r| == |base| && forall i :: 0 <= i < |base| ==> r[i] == base[i].id
  {
    seq(|base|, i requires 0 <= i < |base| => base[i].id)
  }

  /** Against tier 4 a dimension has no gap exactly when it reached tier 4. */
  lemma NoGapIffTopTier(tier: Tier)
    ensures Gap(tier, TargetTier) == 0 <==> tier == 4
  {
  }

  // ---------------------------------------------------------------------------
  // Strengths and gaps

  function Names(rows: seq<EnrichedDimension>): (r: seq<string>)
    ensures |r| == |rows| && forall i :: 0 <= i < |rows| ==> r[i] == rows[i].name
  {
    seq(|rows|, i requires 0 <= i < |rows| => rows[i].name)
  }

  predicate HasNoGap(d: EnrichedDimension) { d.gap == 0 }
  predicate HasGap(d: EnrichedDimension) { d.gap > 0 }
  function ByScoreDescending(d: EnrichedDimension): Key { Key(-d.score, 0) }
  function ByGapThenScore(d: EnrichedDimension): Key { Key(-d.gap, d.score) }

  /** The dimensions without a gap, highest score first, at most 3. */
  function StrengthDimensions(rows: seq<EnrichedDimension>): (r: seq<EnrichedDimension>)
    ensures |r| <= 3
    ensures forall d :: d in r ==> d in rows && d.gap == 0
  {
    TopByProperties(rows, HasNoGap, ByScoreDescending, 3);
    TopBy(rows, HasNoGap, ByScoreDescending, 3)
  }

  /** The dimensions with a gap, largest gap first, then lowest score first. */
  function GapDimensions(rows: seq<EnrichedDimension>): (r: seq<EnrichedDimension>)
    ensures forall d :: d in r <==> d in rows && d.gap > 0
  {
    SortByMembers(Filter(rows, HasGap), ByGapThenScore);
    SortBy(Filter(rows, HasGap), ByGapThenScore)
  }

  /** The key strengths are at most three dimensions without a gap, highest score first,
      and no dimension left out without a gap scores above a chosen one; against tier 4
      they are tier-4 dimensions. */
  lemma StrengthsAreTopScores(rows: seq<EnrichedDimension>)
    ensures var s := StrengthDimensions(rows);
      |s| <= 3 &&
      (forall d :: d in s ==> d in rows && d.gap == 0) &&
      (forall i, j :: 0 <= i < j < |s| ==> s[i].score >= s[j].score) &&
      (forall d, e :: d in rows && d.gap == 0 && d !in s && e in s ==> d.score <= e.score)
    ensures forall d :: d in StrengthDimensions(rows) && d.targetTier == TargetTier && d.gap == Gap(d.tier, d.targetTier) ==>
      d.tier == 4
  {
    TopByProperties(rows, HasNoGap, ByScoreDescending, 3);
    var s := StrengthDimensions(rows);
    forall i, j | 0 <= i < j < |s| ensures s[i].score >= s[j].score {
      assert !KeyLess(ByScoreDescending(s[j]), ByScoreDescending(s[i]));
    }
    forall d, e | d in rows && d.gap == 0 && d !in s && e in s ensures d.score <= e.score {
      assert HasNoGap(d);
      assert !KeyLess(ByScoreDescending(d), ByScoreDescending(e));
    }
  }

  /** The critical gaps are at most three dimensions with a gap, largest gap first and
      lowest score first among equal gaps, and no dimension left out has a larger gap. */
  lemma CriticalGapsAreLargest(rows: seq<EnrichedDimension>)
    ensures var c := Take(GapDimensions(rows), 3);
      |c| <= 3 &&
      (forall d :: d in c ==> d in rows && d.gap > 0) &&
      (forall i, j :: 0 <= i < j < |c| ==>
        c[i].gap > c[j].gap || (c[i].gap == c[j].gap && c[i].score <= c[j].score)) &&
      (forall d, e :: d in rows && d.gap > 0 && d !in c && e in c ==> d.gap <= e.gap)
  {
    TopByProperties(rows, HasGap, ByGapThenScore, 3);
    var c := Take(GapDimensions(rows), 3);
    assert c == TopBy(rows, HasGap, ByGapThenScore, 3);
    forall i, j | 0 <= i < j < |c| ensures c[i].gap > c[j].gap || (c[i].gap == c[j].gap && c[i].score <= c[j].score) {
      assert !KeyLess(ByGapThenScore(c[j]), ByGapThenScore(c[i]));
    }
    forall d, e | d in rows && d.gap > 0 && d !in c && e in c ensures d.gap <= e.gap {
      assert HasGap(d);
      assert !KeyLess(ByGapThenScore(d), ByGapThenScore(e));
    }
  }

  // ---------------------------------------------------------------------------
  // Suggested actions

  /** The characters the page puts between a dimension name and an action. */
  function Separator(): string
  {
    " \U{201A}\U{00C4}\U{00EC} "
  }

  /** `${name} ‚Äì ${action}` for each action. */
  function Prefixed(name: string, actions: seq<string>): (r: seq<string>)
    ensures |r| == |actions|
    ensures forall i :: 0 <= i < |actions| ==> r[i] == name + Separator() + actions[i]
  {
    seq(|actions|, i requires 0 <= i < |actions| => name + Separator() + actions[i])
  }

  /** The lines the loop collects over `dims`, dimension after dimension. */
  function ActionLines(dims: seq<EnrichedDimension>, list: ActionList): seq<string>
  {
    if dims == [] then []
    else
      var last := dims[|dims| - 1];
      ActionLines(dims[..|dims| - 1], list) +
        Prefixed(last.name, ListOf(SuggestActionsForDimension(last.id, last.gap), list))
  }

  /** Collects every gap dimension's suggestions, quick wins and strategic items apart. */
  method CollectActions(gapDimensions: seq<EnrichedDimension>) returns (quickWins: seq<string>, strategic: seq<string>)
    ensures quickWins == ActionLines(gapDimensions, QuickWinList)
    ensures strategic == ActionLines(gapDimensions, StrategicList)
  {
    quickWins, strategic := [], [];
    var i := 0;
    while i < |gapDimensions|
      invariant 0 <= i <= |gapDimensions|
      invariant quickWins == ActionLines(gapDimensions[..i], QuickWinList)
      invariant strategic == ActionLines(gapDimensions[..i], StrategicList)
    {
      var dim := gapDimensions[i];
      var actions := SuggestActionsForDimension(dim.id, dim.gap);
      assert gapDimensions[..i + 1][..i] == gapDimensions[..i];
      quickWins := quickWins + Prefixed(dim.name, actions.quickWins);
      strategic := strategic + Prefixed(dim.name, actions.strategic);
      i := i + 1;
    }
    assert gapDimensions[..i] == gapDimensions;
  }

  /** Dimensions with a gap contribute two quick wins each, and two or three strategic
      items (three for a gap of 2 or more). */
  lemma {:induction false} ActionLinesCount(dims: seq<EnrichedDimension>)
    requires forall i :: 0 <= i < |dims| ==> dims[i].gap > 0
    ensures |ActionLines(dims, QuickWinList)| == 2 * |dims|
    ensures 2 * |dims| <= |ActionLines(dims, StrategicList)| <= 3 * |dims|
  {
    if dims != [] {
      ActionLinesCount(dims[..|dims| - 1]);
    }
  }

  /** Every collected line names a gap dimension and one of its suggestions. */
  lemma {:induction false} ActionLinesFrom(dims: seq<EnrichedDimension>, list: ActionList, line: string)
    requires line in ActionLines(dims, list)
    ensures exists d, a :: (d in dims && a in ListOf(SuggestActionsForDimension(d.id, d.gap), list) &&
      line == d.name + Separator() + a)
  {
    var init, last := dims[..|dims| - 1], dims[|dims| - 1];
    var own := ListOf(SuggestActionsForDimension(last.id, last.gap), list);
    if line in ActionLines(init, list) {
      ActionLinesFrom(init, list, line);
      var d, a :| d in init && a in ListOf(SuggestActionsForDimension(d.id, d.gap), list) &&
        line == d.name + Separator() + a;
      assert d in dims;
    } else {
      var k :| 0 <= k < |Prefixed(last.name, own)| && Prefixed(last.name, own)[k] == line;
      assert own[k] in own;
    }
  }

  /** The fallback advice for a list no dimension fills. */
  function DefaultAdvice(list: ActionList): string
  {
    match list
    case QuickWinList =>
      "Consolidate fundamentals on 1\U{201A}\U{00C4}\U{00EC}2 key dimensions before launching more ambitious initiatives."
    case StrategicList =>
      "Define an integrated digital roadmap that prioritises the dimensions with the largest maturity gaps."
  }

  /** `lines.length ? Array.from(new Set(lines)) : [default]`. */
  function Finalize(lines: seq<string>, list: ActionList): (r: seq<string>)
    ensures lines == [] ==> r == [DefaultAdvice(list)]
    ensures lines != [] ==> (forall x :: x in r <==> x in lines) && Distinct(r) && FirstOccurrenceOrder(r, lines)
  {
    if |lines| > 0 then DedupOrder(lines); Dedup(lines) else [DefaultAdvice(list)]
  }

  /** The default advice is shown exactly when no dimension has a gap. */
  lemma DefaultAdviceIffNoGap(rows: seq<EnrichedDimension>, list: ActionList)
    ensures ActionLines(GapDimensions(rows), list) == [] <==> forall d :: d in rows ==> d.gap <= 0
  {
    var g := GapDimensions(rows);
    SortByProperties(Filter(rows, HasGap), ByGapThenScore);
    FilterMultiset(rows, HasGap);
    forall i | 0 <= i < |g| ensures g[i].gap > 0 {
      assert g[i] in multiset(g);
      assert g[i] in Filter(rows, HasGap);
    }
    ActionLinesCount(g);
    if exists d :: d in rows && d.gap > 0 {
      var d :| d in rows && d.gap > 0;
      assert d in Filter(rows, HasGap);
      assert |g| == |Filter(rows, HasGap)| > 0;
    }
  }

  // ---------------------------------------------------------------------------
  // Elapsed time

  /** `parsedState?.startTime ? Math.round((now - startTime) / 1000) : 0`, in seconds. */
  function ElapsedSeconds(startTime: Option<int>, now: int): (t: int)
    ensures startTime.None? || startTime.value == 0 ==> t == 0
    ensures startTime.Some? && startTime.value != 0 ==>
      2000 * t <= 2 * (now - startTime.value) + 1000 < 2000 * (t + 1)
  {
    if startTime.None? || startTime.value == 0 then 0 else RoundDiv(now - startTime.value, 1000)
  }

  /** JavaScript's `%`, whose result takes the sign of the dividend. */
  function JsRem(a: int, b: int): (r: int)
    requires b > 0
    ensures a >= 0 ==> r == a % b
    ensures a < 0 ==> -b < r <= 0
  {
    if a >= 0 then a % b else -((-a) % b)
  }

  /** `${Math.floor(t / 60)}:${String(t % 60).padStart(2, "0")}`. */
  function FormatTime(t: int): (r: string)
    ensures t >= 0 ==> |r| >= 4 && r[|r| - 3] == ':'
  {
    SecondsTextLength(t);
    IntText(t / 60) + ":" + PadStart2(IntText(JsRem(t, 60)))
  }

  /** For a non-negative time the text is the minutes in decimal, a colon and exactly two
      digits of seconds, and reading it back gives the time. */
  lemma FormatTimeReadsBack(t: nat)
    ensures var r := FormatTime(t);
      |r| >= 4 && r[|r| - 3] == ':' &&
      (forall i :: 0 <= i < |r| && i != |r| - 3 ==> IsDigit(r[i])) &&
      60 * DecimalValue(r[..|r| - 3]) + 10 * DigitValue(r[|r| - 2]) + DigitValue(r[|r| - 1]) == t
  {
    var minutes, secText := Decimal(t / 60), PadStart2(Decimal(t % 60));
    SecondsText(t % 60);
    var r := FormatTime(t);
    assert r == minutes + ":" + secText;
    assert r[..|r| - 3] == minutes;
    assert r[|r| - 2] == secText[0] && r[|r| - 1] == secText[1];
    DecimalRoundTrip(t / 60);
  }

  lemma SecondsTextLength(t: int)
    ensures t >= 0 ==> |PadStart2(IntText(JsRem(t, 60)))| == 2 && |IntText(t / 60)| >= 1
  {
    if t >= 0 {
      SecondsText(t % 60);
    }
  }

  /** The seconds of a minute are written with exactly two digits. */
  lemma SecondsText(s: nat)
    requires s < 60
    ensures var text := PadStart2(Decimal(s));
      |text| == 2 && IsDigit(text[0]) && IsDigit(text[1]) &&
      10 * DigitValue(text[0]) + DigitValue(text[1]) == s
  {
    if s >= 10 {
      assert Decimal(s) == Decimal(s / 10) + [DigitChar(s % 10)];
      assert Decimal(s / 10) == [DigitChar(s / 10)];
    }
  }

  // ---------------------------------------------------------------------------
  // The whole page

  /** What the page shows for these dimension scores, start time and clock reading. */
  function ResultsOf(base: seq<BaseScore>, startTime: Option<int>, now: int): Result<PersonalizedResults, string>
  {
    var globalScore := GlobalScore(base);
    var profile := ProfileFor(globalScore);
    var gaps := ComputeGapsFromPercentages(PercentageInputs(base), TargetTier);
    match Enrich(base, gaps)
    case Err(e) => Err(e)
    case Ok(rows) =>
      var gapDimensions := GapDimensions(rows);
      Ok(Assemble(globalScore, rows, gapDimensions, ElapsedSeconds(startTime, now),
                  ActionLines(gapDimensions, QuickWinList), ActionLines(gapDimensions, StrategicList)))
  }

  /** The page's fields, from the scored rows, their gap dimensions and the collected advice. */
  function Assemble(globalScore: Option<int>, rows: seq<EnrichedDimension>, gapDimensions: seq<EnrichedDimension>,
                    elapsed: int, quickWins: seq<string>, strategic: seq<string>): (r: PersonalizedResults)
    ensures |r.keyStrengths| <= 3 && |r.criticalGaps| <= 3 && |r.criticalGaps| <= |gapDimensions|
    ensures |gapDimensions| >= 3 ==> |r.criticalGaps| == 3
  {
    var profile := ProfileFor(globalScore);
    PersonalizedResults(
      globalScore, profile, rows,
      FormatTime(elapsed),
      Names(StrengthDimensions(rows)),
      Names(Take(gapDimensions, 3)),
      Finalize(quickWins, QuickWinList),
      Finalize(strategic, StrategicList),
      DescribeConversationProfile(profile))
  }

  /** The page always produces results; every dimension is compared with tier 4 whatever
      the profile, and the profile follows the rounded mean. */
  lemma ResultsAlwaysProduced(base: seq<BaseScore>, startTime: Option<int>, now: int)
    ensures ResultsOf(base, startTime, now).Ok?
    ensures var r := ResultsOf(base, startTime, now).value;
      |r.dimensionScores| == |base| &&
      (forall i :: 0 <= i < |base| ==> r.dimensionScores[i].targetTier == TargetTier) &&
      r.profile == ProfileFor(GlobalScore(base))
  {
    var gaps := ComputeGapsFromPercentages(PercentageInputs(base), TargetTier);
    EnrichNeverFails(base, TargetTier);
    RowsTargetTier(base, gaps, TargetTier);
    assert ResultsOf(base, startTime, now).value.dimensionScores == Enrich(base, gaps).value;
  }

  /** Every enriched row carries the target the gaps were computed against. */
  lemma RowsTargetTier(base: seq<BaseScore>, gaps: seq<TierGapInfo>, target: Tier)
    requires gaps == ComputeGapsFromPercentages(PercentageInputs(base), target)
    requires Enrich(base, gaps).Ok?
    ensures forall i :: 0 <= i < |base| ==> Enrich(base, gaps).value[i].targetTier == target
  {
    forall i | 0 <= i < |base| ensures Enrich(base, gaps).value[i].targetTier == target {
      var g := GapFor(gaps, base[i].id).value;
      var k :| 0 <= k < |gaps| && gaps[k] == g;
    }
  }

  /** The results page: scores every dimension with a fresh engine, then derives the rest. */
  method ComputeResults(engine: Engine, dimensions: seq<Dimension>, answers: seq<(string, StoredAnswer)>,
                        startTime: Option<int>, now: int)
    returns (results: Result<PersonalizedResults, string>)
    ensures results == ResultsOf(BaseScores(engine.questionDimensionMap, dimensions, answers), startTime, now)
    ensures results.Ok?
  {
    var base := BaseDimensionScores(engine, dimensions, answers);
    var gaps := ComputeGapsFromPercentages(PercentageInputs(base), TargetTier);
    EnrichNeverFails(base, TargetTier);
    var rows := Enrich(base, gaps).value;
    var gapDimensions := GapDimensions(rows);
    var quickWins, strategic := CollectActions(gapDimensions);
    results := Ok(Assemble(GlobalScore(base), rows, gapDimensions, ElapsedSeconds(startTime, now), quickWins, strategic));
  }
}
