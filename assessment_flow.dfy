/** The static questionnaire (app/assessment/page.tsx): a score per criterion, one
    dimension shown at a time, and navigation that only moves forward from a fully
    answered dimension. */
module AssessmentFlow {
  import opened Collections
  import opened StaticResults

  /** Every criterion of every palier of `dim` has an answer. */
  predicate DimensionComplete(dim: CriteriaDimension, answers: seq<(string, int)>)
  {
    forall j, k :: 0 <= j < |dim.paliers| && 0 <= k < |dim.paliers[j].criteria| ==>
      Get(answers, dim.paliers[j].criteria[k].id).Some?
  }

  /** Answering a criterion never makes a complete dimension incomplete, and answering the
      one criterion still missing completes it. */
  lemma AnsweringKeepsComplete(dim: CriteriaDimension, answers: seq<(string, int)>, id: string, score: int)
    ensures DimensionComplete(dim, answers) ==> DimensionComplete(dim, Put(answers, id, score))
    ensures (forall j, k :: (0 <= j < |dim.paliers| && 0 <= k < |dim.paliers[j].criteria| &&
               dim.paliers[j].criteria[k].id != id) ==> Get(answers, dim.paliers[j].criteria[k].id).Some?) ==>
      DimensionComplete(dim, Put(answers, id, score))
  {
  }

  /** A dimension without criteria is complete before any answer. */
  lemma EmptyDimensionComplete(dim: CriteriaDimension)
    requires forall j :: 0 <= j < |dim.paliers| ==> dim.paliers[j].criteria == []
    ensures DimensionComplete(dim, [])
  {
  }

  class AssessmentPage {
    const dimensions: seq<CriteriaDimension>
    /** Criterion id → score, in the order first answered. */
    var answers: seq<(string, int)>
    var currentDimensionIndex: int
    /** The answers stored for the results page when the last dimension is submitted. */
    var savedAnswers: Option<seq<(string, int)>>

    /** The index designates a dimension, or is 0 when there is none. */
    predicate Valid()
      reads this
    {
      0 <= currentDimensionIndex && (currentDimensionIndex < |dimensions| || currentDimensionIndex == 0)
    }

    constructor(dimensions: seq<CriteriaDimension>)
      ensures this.dimensions == dimensions
      ensures answers == [] && currentDimensionIndex == 0 && savedAnswers == None
      ensures Valid()
    {
      this.dimensions := dimensions;
      answers := [];
      currentDimensionIndex := 0;
      savedAnswers := None;
    }

    /** `isCurrentDimensionComplete`: false when there is no current dimension. */
    predicate IsCurrentDimensionComplete(): (r: bool)
      reads this
      ensures r ==> 0 <= currentDimensionIndex < |dimensions|
      ensures r ==> forall j, k ::
        (0 <= j < |dimensions[currentDimensionIndex].paliers| &&
         0 <= k < |dimensions[currentDimensionIndex].paliers[j].criteria|) ==>
        Get(answers, dimensions[currentDimensionIndex].paliers[j].criteria[k].id).Some?
    {
      0 <= currentDimensionIndex < |dimensions| && DimensionComplete(dimensions[currentDimensionIndex], answers)
    }

    /** Records `score` for `criterionId` and changes nothing else. */
    method HandleAnswer(criterionId: string, score: int)
      requires Valid()
      modifies this
      ensures Valid()
      ensures answers == Put(old(answers), criterionId, score)
      ensures currentDimensionIndex == old(currentDimensionIndex) && savedAnswers == old(savedAnswers)
      ensures old(IsCurrentDimensionComplete()) ==> IsCurrentDimensionComplete()
    {
      if IsCurrentDimensionComplete() {
        AnsweringKeepsComplete(dimensions[currentDimensionIndex], answers, criterionId, score);
      }
      answers := Put(answers, criterionId, score);
    }

    /** Moves to the next dimension once the current one is complete; on the last one,
        saves the answers for the results page instead. */
    method HandleNext()
      requires Valid()
      modifies this
      ensures Valid()
      ensures answers == old(answers)
      ensures !old(IsCurrentDimensionComplete()) ==>
        currentDimensionIndex == old(currentDimensionIndex) && savedAnswers == old(savedAnswers)
      ensures old(IsCurrentDimensionComplete()) && old(currentDimensionIndex) < |dimensions| - 1 ==>
        currentDimensionIndex == old(currentDimensionIndex) + 1 && savedAnswers == old(savedAnswers)
      ensures old(IsCurrentDimensionComplete()) && old(currentDimensionIndex) == |dimensions| - 1 ==>
        currentDimensionIndex == old(currentDimensionIndex) && savedAnswers == Some(answers)
    {
      if IsCurrentDimensionComplete() {
        if currentDimensionIndex < |dimensions| - 1 {
          currentDimensionIndex := currentDimensionIndex + 1;
        } else {
          savedAnswers := Some(answers);
        }
      }
    }

    /** Moves back one dimension, except from the first. */
    method HandlePrevious()
      requires Valid()
      modifies this
      ensures Valid()
      ensures answers == old(answers) && savedAnswers == old(savedAnswers)
      ensures old(currentDimensionIndex) > 0 ==> currentDimensionIndex == old(currentDimensionIndex) - 1
      ensures old(currentDimensionIndex) == 0 ==> currentDimensionIndex == 0
    {
      if currentDimensionIndex > 0 {
        currentDimensionIndex := currentDimensionIndex - 1;
      }
    }
  }
}
