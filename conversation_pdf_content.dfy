/** What the conversation report shows (components/conversation-pdf-content.tsx): the
    profile band text, the per-dimension narrative, the header's target tier, the priority
    and above-target selections, the deduplicated action lists, and the heatmap, which sorts
    the shared row array in place before the table reads it. */
module ConversationPdfContent {
  import opened Collections
  import opened JsNumbers
  import opened ScoringUtils
  import opened ConversationResults
  import PdfContent

  // ---------------------------------------------------------------------------
  // Profile band text

  /** The words before the company name in the profile's band text. */
  function BandOpening(p: ConversationProfile): string
  {
    match p
    case Beginner => "Digital capabilities are emerging and remain mostly opportunistic. "
    case Emerging => "Digital is visible through projects and tools, but remains uneven across the organisation. "
    case ConversationChallenger => "Digital is well structured and integrated into key operations. "
    case ConversationLeader => "Digital is embedded in the business model and innovation agenda. "
  }

  /** The words after the company name in the profile's band text. */
  function BandClosing(p: ConversationProfile): string
  {
    match p
    case Beginner =>
      " is starting to structure initiatives but still needs to clarify priorities and governance to build a consistent foundation."
    case Emerging =>
      " now needs to standardise practices, formalise governance and focus investments on the most value-creating use cases."
    case ConversationChallenger =>
      " has solid processes and tools, but can still progress on industrialisation, data and innovation to catch up with leaders in its sector."
    case ConversationLeader =>
      " must continue to invest in data, AI and ecosystem partnerships to sustain and extend its leadership."
  }

  /** `getProfileBandText`: the profile's fixed text with the company name inserted
      verbatim between its two halves. */
  function ProfileBandText(p: ConversationProfile, companyName: string): (s: string)
    ensures |s| == |BandOpening(p)| + |companyName| + |BandClosing(p)|
    ensures s[..|BandOpening(p)|] == BandOpening(p)
    ensures s[|BandOpening(p)|..|BandOpening(p)| + |companyName|] == companyName
  {
    BandOpening(p) + companyName + BandClosing(p)
  }

  // ---------------------------------------------------------------------------
  // Dimension narrative

  /** The closing sentence of a narrative: progress towards a tier, or maintain the level. */
  datatype NextStep = ProgressTowards(tier: Tier) | Maintain

  /** `nextTier`, `progressionTarget` and the comparison that picks the closing sentence. */
  function NextStepOf(palier: Tier, targetTier: Tier): (n: NextStep)
    ensures palier < 4 ==> n == ProgressTowards(palier + 1)
    ensures palier == 4 ==> n == Maintain
  {
    var nextTier: Tier := if palier < 4 then palier + 1 else 4;
    var progressionTarget: Tier := if palier < 4 then nextTier else targetTier;
    if palier < progressionTarget then ProgressTowards(progressionTarget) else Maintain
  }

  /** `implicationByTier[palier]`. */
  function Implication(palier: Tier): string
  {
    match palier
    case 1 => "This level provides only a limited foundation for scaling digital practices and requires structured investment to reduce operational risk."
    case 2 => "This level provides an initial foundation to support pilot initiatives, but remains fragile for large-scale transformation."
    case 3 => "This level provides a solid base to support cross-functional transformation and data-driven decision-making."
    case 4 => "This level provides an advanced foundation to drive continuous innovation and differentiation."
  }

  function NextStepSentence(step: NextStep, companyName: string): string
  {
    match step
    case ProgressTowards(t) =>
      "To progress towards Tier L" + Decimal(t) + ", " + companyName +
      " should formalise and execute a focused roadmap for this dimension, with clear milestones and ownership."
    case Maintain =>
      companyName + " should maintain this level by regularly reviewing the roadmap for this dimension and aligning it with evolving strategic priorities."
  }

  /** `getDimensionNarrative`: the dimension's description at its tier, the tier's
      implication, and the closing sentence. */
  function DimensionNarrative(dimensionId: string, palier: Tier, targetTier: Tier, companyName: string): string
  {
    NarrativeWith(dimensionId, palier, NextStepOf(palier, targetTier), companyName)
  }

  function NarrativeWith(dimensionId: string, palier: Tier, step: NextStep, companyName: string): string
  {
    DescribeDimensionPalier(dimensionId, palier) + " " + Implication(palier) + " " +
      NextStepSentence(step, companyName)
  }

  /** The target tier never changes the narrative: below tier 4 it always points to the
      next tier, and at tier 4 it always says to maintain the level. */
  lemma NarrativeIgnoresTarget(dimensionId: string, palier: Tier, t1: Tier, t2: Tier, companyName: string)
    ensures DimensionNarrative(dimensionId, palier, t1, companyName) ==
            DimensionNarrative(dimensionId, palier, t2, companyName)
  {
    assert NextStepOf(palier, t1) == NextStepOf(palier, t2);
  }

  // ---------------------------------------------------------------------------
  // Header and selections

  /** The header's target tier comes from the profile while every row's target is tier 4,
      so the two agree only for a Leader. */
  lemma HeaderTargetMatchesRowsOnlyForLeader(p: ConversationProfile)
    ensures ProfileTier(p) == TargetTier <==> p == ConversationLeader
    ensures p != ConversationLeader ==> ProfileTier(p) < TargetTier
  {
  }

  /** `priorityDimensions` is the results page's gap ordering: exactly the rows with a gap,
      each as often as in the input, by gap descending and then score ascending. */
  lemma PrioritySelection(rows: seq<EnrichedDimension>)
    ensures var p := GapDimensions(rows);
      (forall d :: d in p <==> d in rows && d.gap > 0) &&
      multiset(p) == multiset(Filter(rows, HasGap)) &&
      (forall i, j :: 0 <= i < j < |p| ==>
        p[i].gap > p[j].gap || (p[i].gap == p[j].gap && p[i].score <= p[j].score))
  {
    var f := Filter(rows, HasGap);
    SortByProperties(f, ByGapThenScore);
    var p := GapDimensions(rows);
    forall d ensures d in p <==> d in rows && d.gap > 0 {
      assert d in p <==> d in multiset(p);
      assert d in f <==> d in multiset(f);
    }
    forall i, j | 0 <= i < j < |p| ensures
      p[i].gap > p[j].gap || (p[i].gap == p[j].gap && p[i].score <= p[j].score)
    {
      assert !KeyLess(ByGapThenScore(p[j]), ByGapThenScore(p[i]));
    }
  }

  /** There are priority rows exactly when some row has a gap. */
  lemma PriorityEmptyIffNoGap(rows: seq<EnrichedDimension>)
    ensures GapDimensions(rows) == [] <==> forall d :: d in rows ==> d.gap <= 0
  {
    PrioritySelection(rows);
    var p := GapDimensions(rows);
    if p != [] {
      assert p[0] in p;
    }
    if exists d :: d in rows && d.gap > 0 {
      var d :| d in rows && d.gap > 0;
      assert d in GapDimensions(rows);
    }
  }

  predicate AboveOwnTarget(d: EnrichedDimension) { d.tier > d.targetTier }

  /** `aboveTargetDimensions`: above their own target, highest score first, at most 3. */
  function AboveTargetDimensions(rows: seq<EnrichedDimension>): (r: seq<EnrichedDimension>)
    ensures |r| <= 3
    ensures forall d :: d in r ==> d in rows && d.tier > d.targetTier
  {
    TopByProperties(rows, AboveOwnTarget, ByScoreDescending, 3);
    TopBy(rows, AboveOwnTarget, ByScoreDescending, 3)
  }

  /** The above-target rows are at most three rows above their own target, highest score
      first, and none left out scores higher; rows that target tier 4 are never among them. */
  lemma AboveTargetSelection(rows: seq<EnrichedDimension>)
    ensures var a := AboveTargetDimensions(rows);
      |a| <= 3 &&
      (forall d :: d in a ==> d in rows && d.tier > d.targetTier) &&
      (forall i, j :: 0 <= i < j < |a| ==> a[i].score >= a[j].score) &&
      (forall d, e :: d in rows && d.tier > d.targetTier && d !in a && e in a ==> d.score <= e.score)
    ensures (forall d :: d in rows ==> d.targetTier == TargetTier) ==> AboveTargetDimensions(rows) == []
  {
    TopByProperties(rows, AboveOwnTarget, ByScoreDescending, 3);
    var a := AboveTargetDimensions(rows);
    forall i, j | 0 <= i < j < |a| ensures a[i].score >= a[j].score {
      assert !KeyLess(ByScoreDescending(a[j]), ByScoreDescending(a[i]));
    }
    forall d, e | d in rows && d.tier > d.targetTier && d !in a && e in a ensures d.score <= e.score {
      assert AboveOwnTarget(d);
      assert !KeyLess(ByScoreDescending(d), ByScoreDescending(e));
    }
    if forall d :: d in rows ==> d.targetTier == TargetTier {
      if a != [] {
        assert a[0] in a;
      }
    }
  }

  /** `summaryAboveTarget` and `summaryPriorityDimensions`. */
  function AboveTargetSummary(rows: seq<EnrichedDimension>): (s: string)
    ensures AboveTargetDimensions(rows) == [] ==> s == "none identified"
    ensures AboveTargetDimensions(rows) != [] ==> s == Join(Names(AboveTargetDimensions(rows)), ", ")
  {
    PdfContent.Summary(Names(AboveTargetDimensions(rows)))
  }

  function PrioritySummary(rows: seq<EnrichedDimension>): (s: string)
    ensures (forall d :: d in rows ==> d.gap <= 0) ==> s == "none identified"
    ensures (exists d :: d in rows && d.gap > 0) ==> s == Join(Names(GapDimensions(rows)), ", ")
  {
    PriorityEmptyIffNoGap(rows);
    PdfContent.Summary(Names(GapDimensions(rows)))
  }

  /** `Array.from(new Set(xs ?? []))`. */
  function UniqueItems(items: Option<seq<string>>): (r: seq<string>)
    ensures items.None? ==> r == []
    ensures items.Some? ==> (forall x :: x in r <==> x in items.value) && Distinct(r) && |r| <= |items.value|
    ensures items.Some? ==> FirstOccurrenceOrder(r, items.value)
  {
    match items
    case None => []
    case Some(xs) => DedupOrder(xs); Dedup(xs)
  }

  const CriticalFallback := "the most critical dimensions"

  /** `topPriorityDimensionName`: the name of the first priority row, which has the largest
      gap and, among the rows with that gap, the lowest score; a fixed phrase when no row
      has a gap. */
  function TopPriorityName(rows: seq<EnrichedDimension>): (s: string)
    ensures (forall d :: d in rows ==> d.gap <= 0) ==> s == CriticalFallback
    ensures (exists d :: d in rows && d.gap > 0) ==>
      GapDimensions(rows) != [] && s == GapDimensions(rows)[0].name
    ensures (exists d :: d in rows && d.gap > 0) ==>
      exists d :: (d in rows && d.gap > 0 && s == d.name &&
        forall e :: e in rows ==> e.gap < d.gap || (e.gap == d.gap && d.score <= e.score))
  {
    PrioritySelection(rows);
    PriorityEmptyIffNoGap(rows);
    var p := GapDimensions(rows);
    if p == [] then CriticalFallback
    else
      assert p[0] in p;
      assert forall e :: e in rows && e.gap > 0 ==> e in p;
      assert forall k :: 0 < k < |p| ==>
        p[0].gap > p[k].gap || (p[0].gap == p[k].gap && p[0].score <= p[k].score);
      p[0].name
  }

  // ---------------------------------------------------------------------------
  // Heatmap and table

  function ByGapDescending(d: EnrichedDimension): Key { Key(-d.gap, 0) }

  /** `enrichedDimensions.sort((a, b) => b.gap - a.gap)`: rearranges the rows of the array
      itself, largest gap first, equal gaps in their previous order. The engine's sorting
      algorithm is not modelled; the stable order it produces is written back into the
      same array. */
  method SortHeatmap(a: array<EnrichedDimension>)
    modifies a
    ensures a[..] == SortBy(old(a[..]), ByGapDescending)
  {
    var sorted := SortBy(a[..], ByGapDescending);
    var k := 0;
    while k < a.Length
      invariant 0 <= k <= a.Length
      invariant forall m :: 0 <= m < k ==> a[m] == sorted[m]
    {
      a[k] := sorted[k];
      k := k + 1;
    }
    assert a[..] == sorted;
  }

  /** The heatmap sorts the page's own row array, and the table, rendered after it, reads
      the same array: both list the rows largest gap first, not in the input order. */
  method HeatmapThenTable(rows: seq<EnrichedDimension>) returns (heatmap: seq<EnrichedDimension>, table: seq<EnrichedDimension>)
    ensures heatmap == SortBy(rows, ByGapDescending)
    ensures table == SortBy(rows, ByGapDescending)
  {
    var a := new EnrichedDimension[|rows|](i requires 0 <= i < |rows| => rows[i]);
    assert a[..] == rows;
    SortHeatmap(a);
    heatmap := a[..];
    table := a[..];
  }

  /** The heatmap order holds the same rows, gaps never increase down the list, and rows
      with equal gaps keep their order. */
  /** One bar of the heatmap: the row's id, its gap clamped to 0..3 and the bar's width. */
  datatype HeatmapBar = HeatmapBar(id: string, gapValue: int, widthPercent: real)

  /** The heatmap's bars, one per row of the array it has just sorted, with the clamp
      `Math.max(0, Math.min(3, gap))` of the static report. */
  function HeatmapBars(rows: seq<EnrichedDimension>): (bars: seq<HeatmapBar>)
    ensures |bars| == |rows|
    ensures forall i :: 0 <= i < |rows| ==>
      bars[i].id == rows[i].id && 0 <= bars[i].gapValue <= 3 &&
      (0 <= rows[i].gap <= 3 ==> bars[i].gapValue == rows[i].gap) &&
      (bars[i].widthPercent == 0.0 <==> rows[i].gap <= 0) &&
      (bars[i].widthPercent == 100.0 <==> rows[i].gap >= 3)
  {
    seq(|rows|, i requires 0 <= i < |rows| =>
      HeatmapBar(rows[i].id, PdfContent.HeatmapGap(rows[i].gap), PdfContent.HeatmapWidth(rows[i].gap)))
  }

  /** Drawn in heatmap order, the bars never widen from top to bottom. */
  lemma HeatmapBarsNarrow(rows: seq<EnrichedDimension>)
    ensures var bars := HeatmapBars(SortBy(rows, ByGapDescending));
      forall i, j :: 0 <= i < j < |bars| ==> bars[i].widthPercent >= bars[j].widthPercent
  {
    HeatmapOrder(rows, 0);
    var h := SortBy(rows, ByGapDescending);
    var bars := HeatmapBars(h);
    forall i, j | 0 <= i < j < |bars| ensures bars[i].widthPercent >= bars[j].widthPercent {
      PdfContent.WidthMonotone(h[j].gap, h[i].gap);
    }
  }

  lemma HeatmapOrder(rows: seq<EnrichedDimension>, gap: int)
    ensures var h := SortBy(rows, ByGapDescending);
      multiset(h) == multiset(rows) &&
      (forall i, j :: 0 <= i < j < |h| ==> h[i].gap >= h[j].gap) &&
      WithKey(h, ByGapDescending, Key(-gap, 0)) == WithKey(rows, ByGapDescending, Key(-gap, 0))
  {
    SortByProperties(rows, ByGapDescending);
    SortByStable(rows, ByGapDescending, Key(-gap, 0));
    var h := SortBy(rows, ByGapDescending);
    forall i, j | 0 <= i < j < |h| ensures h[i].gap >= h[j].gap {
      assert !KeyLess(ByGapDescending(h[j]), ByGapDescending(h[i]));
    }
  }

  /** The table's priority and status labels, recomputed from a row's gap and tiers, agree
      with what the results page stored in the row; no row is ever above its target. */
  lemma TableAgreesWithRows(base: seq<BaseScore>)
    requires Distinct(Ids(base))
    ensures var rows := Enrich(base, ComputeGapsFromPercentages(PercentageInputs(base), TargetTier)).value;
      forall i :: 0 <= i < |rows| ==>
        PdfContent.TablePriority(rows[i].gap) == rows[i].priority &&
        GetTierStatus(rows[i].tier, rows[i].targetTier) == rows[i].status &&
        rows[i].status != AboveTarget
  {
    EnrichNeverFails(base, TargetTier);
  }
}
