/** The backend's assessment endpoints (backend/api/answers.py): an in-memory table of
    assessments keyed by id, with start, submit-answer, get and complete handlers. The
    clock, which gives both the id and the timestamps, is a parameter. */
module AnswersApi {
  import opened Collections
  import RulesEngine

  const NotFound := 404
  const BadRequest := 400

  datatype Status = InProgress | Completed

  /** One assessment record; `completedAt` is the key `complete` adds. */
  datatype Assessment = Assessment(
    id: string,
    companyName: string,
    industry: string,
    size: string,
    answers: map<string, int>,
    createdAt: string,
    status: Status,
    completedAt: Option<string>)

  type Table = map<string, Assessment>

  /** What every handler keeps true of the table: each record sits under its own id,
      every stored answer is a valid score, and a completion time is recorded exactly
      when the record is completed. */
  ghost predicate WellFormed(t: Table)
  {
    forall id :: id in t ==>
      t[id].id == id &&
      (forall q :: q in t[id].answers ==> 0 <= t[id].answers[q] <= 3) &&
      (t[id].completedAt.Some? <==> t[id].status == Completed)
  }

  // ---------------------------------------------------------------------------
  // Specification

  /** `start_assessment`: a fresh record under `id`, replacing any record already there. */
  function Start(t: Table, id: string, companyName: string, industry: string, size: string, now: string): (r: Table)
    ensures id in r && r[id].answers == map[] && r[id].status == InProgress
    ensures forall other :: other != id ==> (other in r <==> other in t) && (other in t ==> r[other] == t[other])
  {
    t[id := Assessment(id, companyName, industry, size, map[], now, InProgress, None)]
  }

  /** `submit_answer`: the new table and either the number of questions answered or the
      error status. An unknown id is 404 and a score outside 0..3 is 400, checked in that
      order, and neither changes the table. */
  function Submit(t: Table, id: string, questionId: string, score: int): (r: (Table, Result<int, int>))
    ensures id !in t ==> r == (t, Err(NotFound))
    ensures id in t && !(0 <= score <= 3) ==> r == (t, Err(BadRequest))
    ensures id in t && 0 <= score <= 3 ==>
      id in r.0 && r.0[id].answers == t[id].answers[questionId := score] &&
      r.1 == Ok(|r.0[id].answers|)
    ensures forall other :: other != id ==> (other in r.0 <==> other in t) && (other in t ==> r.0[other] == t[other])
  {
    if id !in t then (t, Err(NotFound))
    else if !(0 <= score <= 3) then (t, Err(BadRequest))
    else
      var record := t[id].(answers := t[id].answers[questionId := score]);
      (t[id := record], Ok(|record.answers|))
  }

  /** `get_assessment`. */
  function AssessmentOf(t: Table, id: string): (r: Result<Assessment, int>)
    ensures r.Ok? <==> id in t
    ensures r.Ok? ==> r.value == t[id]
    ensures r.Err? ==> r.error == NotFound
  {
    if id in t then Ok(t[id]) else Err(NotFound)
  }

  /** `complete_assessment`: the record's status and completion time, or 404. */
  function Complete(t: Table, id: string, now: string): (r: (Table, Result<string, int>))
    ensures id !in t ==> r == (t, Err(NotFound))
    ensures id in t ==>
      id in r.0 && r.1 == Ok(id) && r.0[id] == t[id].(status := Completed, completedAt := Some(now))
    ensures forall other :: other != id ==> (other in r.0 <==> other in t) && (other in t ==> r.0[other] == t[other])
  {
    if id !in t then (t, Err(NotFound))
    else (t[id := t[id].(status := Completed, completedAt := Some(now))], Ok(id))
  }

  // ---------------------------------------------------------------------------
  // Properties

  /** The handlers keep the table well formed. */
  lemma HandlersPreserveWellFormed(t: Table, id: string, questionId: string, score: int,
                                   companyName: string, industry: string, size: string, now: string)
    requires WellFormed(t)
    ensures WellFormed(Start(t, id, companyName, industry, size, now))
    ensures WellFormed(Submit(t, id, questionId, score).0)
    ensures WellFormed(Complete(t, id, now).0)
  {
  }

  /** The endpoint's range check is the rules engine's `validate_score`. */
  lemma SubmitAcceptsValidScores(t: Table, id: string, questionId: string, score: int)
    requires id in t
    ensures Submit(t, id, questionId, score).1.Ok? <==> RulesEngine.ValidateScore(score)
  {
  }

  /** An accepted answer raises the count by one for a new question and leaves it as it
      was for a question already answered. */
  lemma SubmitCount(t: Table, id: string, questionId: string, score: int)
    requires id in t && 0 <= score <= 3
    ensures questionId in t[id].answers ==> Submit(t, id, questionId, score).1 == Ok(|t[id].answers|)
    ensures questionId !in t[id].answers ==> Submit(t, id, questionId, score).1 == Ok(|t[id].answers| + 1)
  {
    var m := t[id].answers;
    if questionId in m {
      assert m[questionId := score].Keys == m.Keys;
    } else {
      assert m[questionId := score].Keys == m.Keys + {questionId};
    }
  }

  /** Submitting the same answer twice leaves the table as one submission does. */
  lemma SubmitIdempotent(t: Table, id: string, questionId: string, score: int)
    ensures var once := Submit(t, id, questionId, score);
      Submit(once.0, id, questionId, score) == once
  {
    if id in t && 0 <= score <= 3 {
      var once := Submit(t, id, questionId, score).0;
      assert once[id].answers[questionId := score] == once[id].answers;
      assert once[id := once[id]] == once;
    }
  }

  /** Completing an assessment does not close it: a later valid answer is still recorded,
      and the record stays completed. */
  lemma SubmitAfterComplete(t: Table, id: string, now: string, questionId: string, score: int)
    requires id in t && 0 <= score <= 3
    ensures var done := Complete(t, id, now).0;
      var after := Submit(done, id, questionId, score).0;
      Submit(done, id, questionId, score).1.Ok? &&
      after[id].status == Completed && after[id].answers[questionId] == score
  {
  }

  /** Starting again under an id already in use discards that record's answers and
      completion. */
  lemma RestartResets(t: Table, id: string, companyName: string, industry: string, size: string, now: string)
    requires id in t
    ensures var r := Start(t, id, companyName, industry, size, now)[id];
      r.answers == map[] && r.status == InProgress && r.completedAt == None &&
      r.createdAt == now && |Start(t, id, companyName, industry, size, now)| == |t|
  {
    assert Start(t, id, companyName, industry, size, now).Keys == t.Keys;
  }

  /** Only start adds records; submit and complete never change which ids exist. */
  lemma IdsOnlyGrowByStart(t: Table, id: string, questionId: string, score: int, now: string)
    ensures Submit(t, id, questionId, score).0.Keys == t.Keys
    ensures Complete(t, id, now).0.Keys == t.Keys
  {
  }

  // ---------------------------------------------------------------------------
  // The module-level table

  class AssessmentStore {
    /** The module-level `assessments` dict. */
    var assessments: Table

    ghost predicate Valid()
      reads this
    {
      WellFormed(assessments)
    }

    constructor()
      ensures assessments == map[] && Valid()
    {
      assessments := map[];
    }

    /** `start_assessment`: `id` is the clock's time formatted as the id, `now` the
        creation time. */
    method StartAssessment(id: string, companyName: string, industry: string, size: string, now: string)
      returns (assessmentId: string)
      requires Valid()
      modifies this
      ensures Valid()
      ensures assessments == Start(old(assessments), id, companyName, industry, size, now)
      ensures assessmentId == id
    {
      HandlersPreserveWellFormed(assessments, id, "", 0, companyName, industry, size, now);
      assessments := assessments[id := Assessment(id, companyName, industry, size, map[], now, InProgress, None)];
      assessmentId := id;
    }

    method SubmitAnswer(id: string, questionId: string, score: int) returns (r: Result<int, int>)
      requires Valid()
      modifies this
      ensures Valid()
      ensures (assessments, r) == Submit(old(assessments), id, questionId, score)
    {
      HandlersPreserveWellFormed(assessments, id, questionId, score, "", "", "", "");
      if id !in assessments {
        return Err(NotFound);
      }
      if !(0 <= score <= 3) {
        return Err(BadRequest);
      }
      var record := assessments[id];
      assessments := assessments[id := record.(answers := record.answers[questionId := score])];
      r := Ok(|assessments[id].answers|);
    }

    method GetAssessment(id: string) returns (r: Result<Assessment, int>)
      ensures r == AssessmentOf(assessments, id)
    {
      if id !in assessments {
        return Err(NotFound);
      }
      r := Ok(assessments[id]);
    }

    method CompleteAssessment(id: string, now: string) returns (r: Result<string, int>)
      requires Valid()
      modifies this
      ensures Valid()
      ensures (assessments, r) == Complete(old(assessments), id, now)
    {
      HandlersPreserveWellFormed(assessments, id, "", 0, "", "", "", now);
      if id !in assessments {
        return Err(NotFound);
      }
      var record := assessments[id];
      assessments := assessments[id := record.(status := Completed, completedAt := Some(now))];
      r := Ok(id);
    }
  }
}
