/** What the static report shows (components/pdf-content.tsx): dimensions above the
    profile's tier, dimensions with a gap in priority order, an action plan from the three
    largest gaps, the summary lines, the table's priority and status, and the heatmap bar. */
module PdfContent {
  import opened Collections
  import opened JsNumbers
  import opened ScoringUtils

  /** `gapMap.get(id)?.gap ?? 0`: the gap of the last entry for `id`, 0 when there is none. */
  function GapOf(gaps: seq<GapInfo>, id: string): (g: int)
    ensures (forall i :: 0 <= i < |gaps| ==> gaps[i].id != id) ==> g == 0
    ensures (exists i :: 0 <= i < |gaps| && gaps[i].id == id) ==>
      exists i :: (0 <= i < |gaps| && gaps[i].id == id && g == gaps[i].gap &&
        forall j :: i < j < |gaps| ==> gaps[j].id != id)
  {
    LastGapFound(gaps, id);
    match FindLast(gaps, (g: GapInfo) => g.id == id)
    case None => 0
    case Some(info) => info.gap
  }

  /** The last entry with an id is the one `FindLast` returns. */
  lemma {:induction false} LastGapFound(gaps: seq<GapInfo>, id: string)
    ensures var r := FindLast(gaps, (g: GapInfo) => g.id == id);
      r.Some? ==> exists i :: (0 <= i < |gaps| && gaps[i] == r.value &&
        forall j :: i < j < |gaps| ==> gaps[j].id != id)
  {
    if gaps != [] && gaps[|gaps| - 1].id != id {
      var init := gaps[..|gaps| - 1];
      LastGapFound(init, id);
      assert FindLast(gaps, (g: GapInfo) => g.id == id) == FindLast(init, (g: GapInfo) => g.id == id);
    }
  }

  // ---------------------------------------------------------------------------
  // Selections

  function AbovePredicate(targetPalier: int): DimensionScore -> bool
  {
    (d: DimensionScore) => d.palierAtteint > targetPalier
  }

  function ByPercentageDescending(d: DimensionScore): Key { Key(-d.percentage, 0) }

  /** `aboveTargetDimensions`: above the profile's tier, highest percentage first, at most 3. */
  function AboveTargetDimensions(dims: seq<DimensionScore>, targetPalier: int): (r: seq<DimensionScore>)
    ensures |r| <= 3
    ensures forall d :: d in r ==> d in dims && d.palierAtteint > targetPalier
  {
    TopByProperties(dims, AbovePredicate(targetPalier), ByPercentageDescending, 3);
    assert forall d :: AbovePredicate(targetPalier)(d) ==> d.palierAtteint > targetPalier;
    TopBy(dims, AbovePredicate(targetPalier), ByPercentageDescending, 3)
  }

  /** The above-target dimensions are at most three dimensions above the profile's tier,
      highest percentage first, and none left out has a higher percentage. */
  lemma AboveTargetSelection(dims: seq<DimensionScore>, targetPalier: int)
    ensures var a := AboveTargetDimensions(dims, targetPalier);
      |a| <= 3 &&
      (forall d :: d in a ==> d in dims && d.palierAtteint > targetPalier) &&
      (forall i, j :: 0 <= i < j < |a| ==> a[i].percentage >= a[j].percentage) &&
      (forall d, e :: d in dims && d.palierAtteint > targetPalier && d !in a && e in a ==>
        d.percentage <= e.percentage)
  {
    var p := AbovePredicate(targetPalier);
    TopByProperties(dims, p, ByPercentageDescending, 3);
    var a := AboveTargetDimensions(dims, targetPalier);
    forall d | d in a ensures d in dims && d.palierAtteint > targetPalier {
      assert p(d);
    }
    forall i, j | 0 <= i < j < |a| ensures a[i].percentage >= a[j].percentage {
      assert !KeyLess(ByPercentageDescending(a[j]), ByPercentageDescending(a[i]));
    }
    forall d, e | d in dims && d.palierAtteint > targetPalier && d !in a && e in a
      ensures d.percentage <= e.percentage
    {
      assert p(d);
      assert !KeyLess(ByPercentageDescending(d), ByPercentageDescending(e));
    }
  }

  function HasGapPredicate(gaps: seq<GapInfo>): DimensionScore -> bool
  {
    (d: DimensionScore) => GapOf(gaps, d.id) > 0
  }

  function ByGapThenPercentage(gaps: seq<GapInfo>): DimensionScore -> Key
  {
    (d: DimensionScore) => Key(-GapOf(gaps, d.id), d.percentage)
  }

  /** `priorityDimensions`: the dimensions with a gap, largest gap first, then lowest
      percentage first. */
  function PriorityDimensions(dims: seq<DimensionScore>, gaps: seq<GapInfo>): (r: seq<DimensionScore>)
    ensures forall d :: d in r <==> d in dims && GapOf(gaps, d.id) > 0
  {
    SortByMembers(Filter(dims, HasGapPredicate(gaps)), ByGapThenPercentage(gaps));
    assert forall d :: HasGapPredicate(gaps)(d) <==> GapOf(gaps, d.id) > 0;
    SortBy(Filter(dims, HasGapPredicate(gaps)), ByGapThenPercentage(gaps))
  }

  /** The priority dimensions are exactly the dimensions with a gap, each as often as in
      the input, ordered by gap descending and then percentage ascending. */
  lemma PrioritySelection(dims: seq<DimensionScore>, gaps: seq<GapInfo>)
    ensures var p := PriorityDimensions(dims, gaps);
      (forall d :: d in p <==> d in dims && GapOf(gaps, d.id) > 0) &&
      multiset(p) == multiset(Filter(dims, HasGapPredicate(gaps))) &&
      (forall i, j :: 0 <= i < j < |p| ==>
        GapOf(gaps, p[i].id) > GapOf(gaps, p[j].id) ||
        (GapOf(gaps, p[i].id) == GapOf(gaps, p[j].id) && p[i].percentage <= p[j].percentage))
  {
    var f := Filter(dims, HasGapPredicate(gaps));
    var key := ByGapThenPercentage(gaps);
    SortByProperties(f, key);
    var p := PriorityDimensions(dims, gaps);
    forall d ensures d in p <==> d in dims && GapOf(gaps, d.id) > 0 {
      assert d in p <==> d in multiset(p);
      assert d in f <==> d in multiset(f);
      assert HasGapPredicate(gaps)(d) == (GapOf(gaps, d.id) > 0);
    }
    forall i, j | 0 <= i < j < |p| ensures
      GapOf(gaps, p[i].id) > GapOf(gaps, p[j].id) ||
      (GapOf(gaps, p[i].id) == GapOf(gaps, p[j].id) && p[i].percentage <= p[j].percentage)
    {
      assert !KeyLess(key(p[j]), key(p[i]));
    }
  }

  /** `topGapDimensions`: the first three priority dimensions. */
  function TopGapDimensions(dims: seq<DimensionScore>, gaps: seq<GapInfo>): (r: seq<DimensionScore>)
    ensures |r| <= 3
    ensures forall d :: d in r ==> d in dims && GapOf(gaps, d.id) > 0
  {
    var p := PriorityDimensions(dims, gaps);
    assert forall d :: d in p[..|Take(p, 3)|] ==> d in p;
    Take(p, 3)
  }

  // ---------------------------------------------------------------------------
  // Summaries

  /** The names of the static report's rows; the adaptive report's
      `ConversationResults.Names` does the same over its own row type. */
  function Names(dims: seq<DimensionScore>): (r: seq<string>)
    ensures |r| == |dims| && forall i :: 0 <= i < |dims| ==> r[i] == dims[i].name
  {
    seq(|dims|, i requires 0 <= i < |dims| => dims[i].name)
  }

  /** The names joined by ", ", or "none identified" for an empty list. */
  function Summary(names: seq<string>): (s: string)
    ensures names == [] ==> s == "none identified"
    ensures |names| == 1 ==> s == names[0]
    ensures |names| > 0 ==> s == Join(names, ", ")
  {
    if |names| > 0 then Join(names, ", ") else "none identified"
  }

  // ---------------------------------------------------------------------------
  // Action plan

  /** `${name} : ${action}` for each action. */
  function Labelled(name: string, actions: seq<string>): (r: seq<string>)
    ensures |r| == |actions|
    ensures forall i :: 0 <= i < |actions| ==> r[i] == name + " : " + actions[i]
  {
    seq(|actions|, i requires 0 <= i < |actions| => name + " : " + actions[i])
  }

  /** The lines the plan collects over `top`, dimension after dimension. */
  function PlanLines(top: seq<DimensionScore>, gaps: seq<GapInfo>, list: ActionList): seq<string>
  {
    if top == [] then []
    else
      PlanLines(top[..|top| - 1], gaps, list) + DimensionLines(top[|top| - 1], gaps, list)
  }

  /** One dimension's suggestions from `list`, each prefixed with the dimension's name. */
  function DimensionLines(dim: DimensionScore, gaps: seq<GapInfo>, list: ActionList): seq<string>
  {
    Labelled(dim.name, ListOf(SuggestActionsForDimension(dim.id, GapOf(gaps, dim.id)), list))
  }

  /** Collects the top-gap dimensions' suggestions, each prefixed with its dimension's name,
      and removes repeated lines keeping the first. */
  method BuildActionPlan(dims: seq<DimensionScore>, gaps: seq<GapInfo>)
    returns (uniqueQuickWins: seq<string>, uniqueStrategic: seq<string>)
    ensures uniqueQuickWins == Dedup(PlanLines(TopGapDimensions(dims, gaps), gaps, QuickWinList))
    ensures uniqueStrategic == Dedup(PlanLines(TopGapDimensions(dims, gaps), gaps, StrategicList))
  {
    var quickWins, strategic := CollectPlan(TopGapDimensions(dims, gaps), gaps);
    uniqueQuickWins := Dedup(quickWins);
    uniqueStrategic := Dedup(strategic);
  }

  /** The loop of the action plan: every dimension's labelled suggestions, in order. */
  method CollectPlan(top: seq<DimensionScore>, gaps: seq<GapInfo>)
    returns (quickWins: seq<string>, strategic: seq<string>)
    ensures quickWins == PlanLines(top, gaps, QuickWinList)
    ensures strategic == PlanLines(top, gaps, StrategicList)
  {
    quickWins, strategic := [], [];
    var i := 0;
    while i < |top|
      invariant 0 <= i <= |top|
      invariant quickWins == PlanLines(top[..i], gaps, QuickWinList)
      invariant strategic == PlanLines(top[..i], gaps, StrategicList)
    {
      var dim := top[i];
      var actions := SuggestActionsForDimension(dim.id, GapOf(gaps, dim.id));
      PlanLinesStep(top, gaps, i, QuickWinList);
      PlanLinesStep(top, gaps, i, StrategicList);
      quickWins := quickWins + Labelled(dim.name, actions.quickWins);
      strategic := strategic + Labelled(dim.name, actions.strategic);
      i := i + 1;
    }
    assert top[..i] == top;
  }

  lemma PlanLinesStep(top: seq<DimensionScore>, gaps: seq<GapInfo>, i: int, list: ActionList)
    requires 0 <= i < |top|
    ensures PlanLines(top[..i + 1], gaps, list) == PlanLines(top[..i], gaps, list) + DimensionLines(top[i], gaps, list)
  {
    assert top[..i + 1][..i] == top[..i];
  }


  /** The plan draws on at most three dimensions, each with a gap: at most six quick wins
      and nine strategic items before repeats are removed, and none without a gap. */
  lemma {:induction false} PlanSize(top: seq<DimensionScore>, gaps: seq<GapInfo>)
    requires forall i :: 0 <= i < |top| ==> GapOf(gaps, top[i].id) > 0
    ensures |PlanLines(top, gaps, QuickWinList)| == 2 * |top|
    ensures 2 * |top| <= |PlanLines(top, gaps, StrategicList)| <= 3 * |top|
  {
    if top != [] {
      PlanSize(top[..|top| - 1], gaps);
    }
  }

  /** The top-gap dimensions all have a gap, so the plan is empty exactly when no
      dimension has one. */
  lemma PlanEmptyIffNoGap(dims: seq<DimensionScore>, gaps: seq<GapInfo>)
    ensures |TopGapDimensions(dims, gaps)| <= 3
    ensures PlanLines(TopGapDimensions(dims, gaps), gaps, QuickWinList) == [] <==>
      forall d :: d in dims ==> GapOf(gaps, d.id) <= 0
  {
    PrioritySelection(dims, gaps);
    var p := PriorityDimensions(dims, gaps);
    var top := TopGapDimensions(dims, gaps);
    forall i | 0 <= i < |top| ensures GapOf(gaps, top[i].id) > 0 {
      assert top[i] == p[i];
      assert p[i] in p;
    }
    PlanSize(top, gaps);
    if exists d :: d in dims && GapOf(gaps, d.id) > 0 {
      var d :| d in dims && GapOf(gaps, d.id) > 0;
      assert d in p;
    }
  }

  // ---------------------------------------------------------------------------
  // Table and heatmap

  /** The table's priority label: thresholds 2 and 1 on the gap, as `getGapPriority`. */
  function TablePriority(gap: int): (p: Priority)
    ensures p == GapPriority(gap)
    ensures p == High <==> gap >= 2
    ensures p == Medium <==> gap == 1
  {
    if gap >= 2 then High else if gap == 1 then Medium else Low
  }

  /** The table's status compares the achieved tier with the profile's tier. The page
      writes this comparison inline (components/pdf-content.tsx:370-377); it is the
      comparison of `getTierStatus`, so the model reuses that one. */
  function TableStatus(achievedTier: Tier, profileLevel: Tier): (s: TierStatus)
    ensures s == AboveTarget <==> achievedTier > profileLevel
    ensures s == OnTarget <==> achievedTier == profileLevel
    ensures s == BelowTarget <==> achievedTier < profileLevel
  {
    GetTierStatus(achievedTier, profileLevel)
  }

  /** The status is measured against the profile's tier but the priority against tier 4,
      so a dimension can be above target and of high priority in the same row. */
  lemma StatusAndPriorityDisagree(d: DimensionScore)
    requires d.palierAtteint == 2
    ensures var gap := GapOf(ComputeGaps([d], 1), d.id);
      TableStatus(d.palierAtteint, 1) == AboveTarget && TablePriority(gap) == High
  {
    var gaps := ComputeGaps([d], 1);
    assert gaps[0].id == d.id;
  }

  /** `Math.max(0, Math.min(3, gap))`. */
  function HeatmapGap(gap: int): (v: int)
    ensures 0 <= v <= 3
    ensures 0 <= gap <= 3 ==> v == gap
  {
    ClampInt(gap, 0, 3)
  }

  /** `gapValue / 3 * 100`: the bar's width in percent. */
  function HeatmapWidth(gap: int): (w: real)
    ensures 0.0 <= w <= 100.0
    ensures w == 0.0 <==> gap <= 0
    ensures w == 100.0 <==> gap >= 3
  {
    HeatmapGap(gap) as real / 3.0 * 100.0
  }

  /** A larger gap never draws a narrower bar. */
  lemma WidthMonotone(a: int, b: int)
    requires a <= b
    ensures HeatmapWidth(a) <= HeatmapWidth(b)
  {
  }
}
