/** The adaptive question graph: an engine built once from the dimension → branch →
    question tree, which resolves the next question of a conversation and computes a
    dimension's percentage from the recorded answers. */
module AdaptiveEngine {
  import opened Collections
  import opened JsNumbers

  datatype QuestionType = Binary | Choice | MultiSelect
  datatype Impact = LowImpact | MediumImpact | HighImpact

  datatype AnswerOption = AnswerOption(value: string, score: int, labelText: string)
  datatype YesNoScoring = YesNoScoring(yes: int, no: int)

  /** `nextQuestion`: absent, a question id, or a yes/no table of question ids. */
  datatype NextLink = NoNext | NextId(id: string) | NextByAnswer(yes: string, no: string)

  datatype AdaptiveQuestion = AdaptiveQuestion(
    id: string, text: string, questionType: QuestionType, options: Option<seq<AnswerOption>>,
    impact: Impact, nextQuestion: NextLink, scoring: Option<YesNoScoring>)

  datatype Branch = Branch(branchId: string, questions: seq<AdaptiveQuestion>)
  datatype Dimension = Dimension(id: string, name: string, branches: seq<Branch>)

  /** The shapes an answer takes when it reaches the engine: a boolean for binary
      questions, an option value for choice questions, a list of option values for
      multiselect questions (and any other JSON value the caller may pass). */
  datatype RawAnswer = BoolAnswer(b: bool) | TextAnswer(s: string) | NumberAnswer(n: int) | ListAnswer(values: seq<string>)

  /** A recorded score: one number, or one number per selected option. */
  datatype StoredAnswer = Scalar(score: int) | Scores(scores: seq<int>)

  // ---------------------------------------------------------------------------
  // The index the constructor builds

  /** One visit of the constructor's traversal: a question and the dimension that owns it. */
  datatype Entry = Entry(dimensionId: string, question: AdaptiveQuestion)

  function BranchEntries(dimensionId: string, questions: seq<AdaptiveQuestion>): (r: seq<Entry>)
    ensures |r| == |questions|
    ensures forall k :: 0 <= k < |questions| ==> r[k] == Entry(dimensionId, questions[k])
  {
    seq(|questions|, k requires 0 <= k < |questions| => Entry(dimensionId, questions[k]))
  }

  function DimensionEntries(dimensionId: string, branches: seq<Branch>): seq<Entry>
  {
    if branches == [] then []
    else DimensionEntries(dimensionId, branches[..|branches| - 1]) + BranchEntries(dimensionId, branches[|branches| - 1].questions)
  }

  lemma AppendAssociative(a: seq<Entry>, b: seq<Entry>, c: seq<Entry>)
    ensures (a + b) + c == a + (b + c)
  {
  }

  lemma DimensionEntriesStep(dimensionId: string, branches: seq<Branch>, j: int)
    requires 0 <= j < |branches|
    ensures DimensionEntries(dimensionId, branches[..j + 1])
      == DimensionEntries(dimensionId, branches[..j]) + BranchEntries(dimensionId, branches[j].questions)
  {
    assert branches[..j + 1][..j] == branches[..j];
  }

  /** The traversal order of the constructor: dimensions, then branches, then questions. */
  function Entries(dimensions: seq<Dimension>): seq<Entry>
  {
    if dimensions == [] then []
    else
      var last := dimensions[|dimensions| - 1];
      Entries(dimensions[..|dimensions| - 1]) + DimensionEntries(last.id, last.branches)
  }

  lemma {:induction false} DimensionEntriesCover(dimensionId: string, branches: seq<Branch>, j: int, k: int)
    requires 0 <= j < |branches| && 0 <= k < |branches[j].questions|
    ensures Entry(dimensionId, branches[j].questions[k]) in DimensionEntries(dimensionId, branches)
  {
    var init, last := branches[..|branches| - 1], branches[|branches| - 1];
    if j < |branches| - 1 {
      DimensionEntriesCover(dimensionId, init, j, k);
    } else {
      assert BranchEntries(dimensionId, last.questions)[k] == Entry(dimensionId, branches[j].questions[k]);
    }
  }

  /** Every question of the tree is visited, with the id of the dimension that holds it. */
  lemma {:induction false} EntriesCover(dimensions: seq<Dimension>, i: int, j: int, k: int)
    requires 0 <= i < |dimensions| && 0 <= j < |dimensions[i].branches|
    requires 0 <= k < |dimensions[i].branches[j].questions|
    ensures Entry(dimensions[i].id, dimensions[i].branches[j].questions[k]) in Entries(dimensions)
  {
    if i < |dimensions| - 1 {
      EntriesCover(dimensions[..|dimensions| - 1], i, j, k);
    } else {
      DimensionEntriesCover(dimensions[i].id, dimensions[i].branches, j, k);
    }
  }

  /** `questionMap` after visiting `entries`: each visit sets the question under its id. */
  function QuestionIndex(entries: seq<Entry>): (m: map<string, AdaptiveQuestion>)
    ensures forall id :: id in m ==> m[id].id == id
  {
    if entries == [] then map[]
    else
      var e := entries[|entries| - 1];
      QuestionIndex(entries[..|entries| - 1])[e.question.id := e.question]
  }

  /** `questionDimensionMap` after visiting `entries`. */
  function DimensionIndex(entries: seq<Entry>): (m: map<string, string>)
    ensures m.Keys == QuestionIndex(entries).Keys
  {
    if entries == [] then map[]
    else
      var e := entries[|entries| - 1];
      DimensionIndex(entries[..|entries| - 1])[e.question.id := e.dimensionId]
  }

  /** The id of an entry is indexed iff some entry carries it, and the index holds the
      question and dimension of the LAST entry with that id: a later duplicate overwrites. */
  lemma {:induction false} IndexHoldsLastEntry(entries: seq<Entry>, i: int)
    requires 0 <= i < |entries|
    requires forall j :: i < j < |entries| ==> entries[j].question.id != entries[i].question.id
    ensures entries[i].question.id in QuestionIndex(entries) && entries[i].question.id in DimensionIndex(entries)
    ensures QuestionIndex(entries)[entries[i].question.id] == entries[i].question
    ensures DimensionIndex(entries)[entries[i].question.id] == entries[i].dimensionId
  {
    if i < |entries| - 1 {
      IndexHoldsLastEntry(entries[..|entries| - 1], i);
    }
  }

  lemma {:induction false} IndexKeys(entries: seq<Entry>, id: string)
    ensures id in QuestionIndex(entries) <==> exists i :: 0 <= i < |entries| && entries[i].question.id == id
    ensures id in QuestionIndex(entries) <==> id in DimensionIndex(entries)
    ensures id in QuestionIndex(entries) ==> QuestionIndex(entries)[id].id == id
  {
    if entries != [] {
      var init := entries[..|entries| - 1];
      IndexKeys(init, id);
      if id in QuestionIndex(init) {
        var i :| 0 <= i < |init| && init[i].question.id == id;
        assert entries[i] == init[i];
      }
    }
  }

  lemma QuestionIndexAppend(entries: seq<Entry>, e: Entry)
    ensures QuestionIndex(entries + [e]) == QuestionIndex(entries)[e.question.id := e.question]
    ensures DimensionIndex(entries + [e]) == DimensionIndex(entries)[e.question.id := e.dimensionId]
  {
    assert (entries + [e])[..|entries|] == entries;
  }

  /** The engine's invariant: both maps have the same keys and each question is stored
      under its own id. */
  ghost predicate WellIndexed(questionMap: map<string, AdaptiveQuestion>, questionDimensionMap: map<string, string>)
  {
    && questionMap.Keys == questionDimensionMap.Keys
    && forall id :: id in questionMap ==> questionMap[id].id == id
  }

  lemma IndexWellIndexed(entries: seq<Entry>)
    ensures WellIndexed(QuestionIndex(entries), DimensionIndex(entries))
  {
    forall id | id in QuestionIndex(entries) || id in DimensionIndex(entries)
      ensures id in QuestionIndex(entries) && id in DimensionIndex(entries)
      ensures QuestionIndex(entries)[id].id == id
    {
      IndexKeys(entries, id);
    }
  }

  /** When all visits with an id are the same entry, the index holds that entry. */
  lemma {:induction false} IndexOfRepeatedEntry(entries: seq<Entry>, e: Entry)
    requires e in entries
    requires forall i :: 0 <= i < |entries| && entries[i].question.id == e.question.id ==> entries[i] == e
    ensures e.question.id in QuestionIndex(entries) && e.question.id in DimensionIndex(entries)
    ensures QuestionIndex(entries)[e.question.id] == e.question
    ensures DimensionIndex(entries)[e.question.id] == e.dimensionId
  {
    var init, last := entries[..|entries| - 1], entries[|entries| - 1];
    if last.question.id != e.question.id {
      assert e in init by {
        var i :| 0 <= i < |entries| && entries[i] == e;
        assert i != |entries| - 1;
        assert init[i] == e;
      }
      IndexOfRepeatedEntry(init, e);
    }
  }

  /** After construction every question of the tree is retrievable by its id. When the
      questions carrying its id are all this question in this dimension (in particular when
      ids are unique), the engine returns this question and indexes it to this dimension. */
  lemma EveryQuestionIndexed(dimensions: seq<Dimension>, i: int, j: int, k: int)
    requires 0 <= i < |dimensions| && 0 <= j < |dimensions[i].branches|
    requires 0 <= k < |dimensions[i].branches[j].questions|
    ensures dimensions[i].branches[j].questions[k].id in QuestionIndex(Entries(dimensions))
    ensures dimensions[i].branches[j].questions[k].id in DimensionIndex(Entries(dimensions))
    ensures var entries, q := Entries(dimensions), dimensions[i].branches[j].questions[k];
      (forall n :: 0 <= n < |entries| && entries[n].question.id == q.id ==> entries[n] == Entry(dimensions[i].id, q)) ==>
        QuestionIndex(entries)[q.id] == q && DimensionIndex(entries)[q.id] == dimensions[i].id
  {
    var entries, q := Entries(dimensions), dimensions[i].branches[j].questions[k];
    EntriesCover(dimensions, i, j, k);
    var n :| 0 <= n < |entries| && entries[n] == Entry(dimensions[i].id, q);
    IndexKeys(entries, q.id);
    if forall n :: 0 <= n < |entries| && entries[n].question.id == q.id ==> entries[n] == Entry(dimensions[i].id, q) {
      IndexOfRepeatedEntry(entries, Entry(dimensions[i].id, q));
    }
  }

  // ---------------------------------------------------------------------------
  // Next question

  /** `answer === true || answer === 'yes'`. */
  predicate IsYes(answer: RawAnswer)
  {
    answer == BoolAnswer(true) || answer == TextAnswer("yes")
  }

  /** The next question id, or None for `null`. An absent or empty link gives None; a
      plain id is returned whatever the answer; a yes/no table gives its yes entry exactly
      for a "yes" answer and its no entry for every other answer. */
  function GetNextQuestion(current: AdaptiveQuestion, answer: RawAnswer): (r: Option<string>)
    ensures current.nextQuestion == NoNext || current.nextQuestion == NextId("") ==> r == None
    ensures current.nextQuestion.NextId? && current.nextQuestion.id != "" ==> r == Some(current.nextQuestion.id)
    ensures current.nextQuestion.NextByAnswer? ==>
      r == Some(if IsYes(answer) then current.nextQuestion.yes else current.nextQuestion.no)
  {
    match current.nextQuestion
    case NoNext => None
    case NextId(id) => if id == "" then None else Some(id)
    case NextByAnswer(yes, no) => Some(if IsYes(answer) then yes else no)
  }

  /** A plain link does not depend on the answer. */
  lemma NextIdIgnoresAnswer(current: AdaptiveQuestion, a: RawAnswer, b: RawAnswer)
    requires !current.nextQuestion.NextByAnswer?
    ensures GetNextQuestion(current, a) == GetNextQuestion(current, b)
  {
  }

  /** With a yes/no table, `true` and "yes" take the yes branch; `false`, "no", numbers and
      lists take the no branch. */
  lemma YesNoRouting(current: AdaptiveQuestion, n: int, values: seq<string>)
    requires current.nextQuestion.NextByAnswer?
    ensures GetNextQuestion(current, BoolAnswer(true)) == Some(current.nextQuestion.yes)
    ensures GetNextQuestion(current, TextAnswer("yes")) == Some(current.nextQuestion.yes)
    ensures GetNextQuestion(current, BoolAnswer(false)) == Some(current.nextQuestion.no)
    ensures GetNextQuestion(current, TextAnswer("no")) == Some(current.nextQuestion.no)
    ensures GetNextQuestion(current, NumberAnswer(n)) == Some(current.nextQuestion.no)
    ensures GetNextQuestion(current, ListAnswer(values)) == Some(current.nextQuestion.no)
  {
  }

  // ---------------------------------------------------------------------------
  // Dimension score

  /** The contribution of one answer: its score, or the sum of its scores. */
  function AnswerTotal(a: StoredAnswer): int
  {
    match a
    case Scalar(score) => score
    case Scores(scores) => Sum(scores)
  }

  /** The answers, in order, whose question is indexed to `dimensionId`. */
  function Counted(questionDimensionMap: map<string, string>, dimensionId: string,
                   answers: seq<(string, StoredAnswer)>): (r: seq<StoredAnswer>)
    ensures |r| <= |answers|
  {
    if answers == [] then []
    else
      var (id, a) := answers[|answers| - 1];
      Counted(questionDimensionMap, dimensionId, answers[..|answers| - 1])
        + (if id in questionDimensionMap && questionDimensionMap[id] == dimensionId then [a] else [])
  }

  function TotalOf(answers: seq<StoredAnswer>): int
  {
    if answers == [] then 0 else TotalOf(answers[..|answers| - 1]) + AnswerTotal(answers[|answers| - 1])
  }

  /** `count > 0 ? Math.round(totalScore / (count * 3) * 100) : 0` over the counted answers. */
  function DimensionPercentage(questionDimensionMap: map<string, string>, dimensionId: string,
                               answers: seq<(string, StoredAnswer)>): (r: int)
    ensures Counted(questionDimensionMap, dimensionId, answers) == [] ==> r == 0
    ensures var c := Counted(questionDimensionMap, dimensionId, answers);
      c != [] ==> 2 * (3 * |c|) * r <= 2 * (100 * TotalOf(c)) + 3 * |c| < 2 * (3 * |c|) * (r + 1)
  {
    var counted := Counted(questionDimensionMap, dimensionId, answers);
    if |counted| > 0 then RoundDiv(100 * TotalOf(counted), 3 * |counted|) else 0
  }

  /** How one more answer changes the counted answers and their total. */
  lemma CalculateScoreStep(m: map<string, string>, dimensionId: string, answers: seq<(string, StoredAnswer)>, i: int)
    requires 0 <= i < |answers|
    ensures var c := Counted(m, dimensionId, answers[..i]);
      var c' := Counted(m, dimensionId, answers[..i + 1]);
      if answers[i].0 in m && m[answers[i].0] == dimensionId
      then c' == c + [answers[i].1] && TotalOf(c') == TotalOf(c) + AnswerTotal(answers[i].1)
      else c' == c
  {
    var c := Counted(m, dimensionId, answers[..i]);
    assert answers[..i + 1][..i] == answers[..i];
    assert (c + [answers[i].1])[..|c|] == c;
  }

  lemma {:induction false} CountedAppend(m: map<string, string>, dimensionId: string,
                                         a: seq<(string, StoredAnswer)>, b: seq<(string, StoredAnswer)>)
    ensures Counted(m, dimensionId, a + b) == Counted(m, dimensionId, a) + Counted(m, dimensionId, b)
    decreases |b|
  {
    if b == [] {
      assert a + b == a;
    } else {
      var init := b[..|b| - 1];
      assert (a + b)[..|a + b| - 1] == a + init;
      CountedAppend(m, dimensionId, a, init);
    }
  }

  /** Answers to questions that are unknown or belong to another dimension change nothing. */
  lemma ForeignAnswersIgnored(m: map<string, string>, dimensionId: string,
                              answers: seq<(string, StoredAnswer)>, foreign: seq<(string, StoredAnswer)>)
    requires forall i :: 0 <= i < |foreign| ==> foreign[i].0 !in m || m[foreign[i].0] != dimensionId
    ensures DimensionPercentage(m, dimensionId, answers + foreign) == DimensionPercentage(m, dimensionId, answers)
  {
    CountedAppend(m, dimensionId, answers, foreign);
    assert Counted(m, dimensionId, foreign) == [] by {
      CountedNone(m, dimensionId, foreign);
    }
    assert Counted(m, dimensionId, answers) + [] == Counted(m, dimensionId, answers);
  }

  lemma {:induction false} CountedNone(m: map<string, string>, dimensionId: string, answers: seq<(string, StoredAnswer)>)
    requires forall i :: 0 <= i < |answers| ==> answers[i].0 !in m || m[answers[i].0] != dimensionId
    ensures Counted(m, dimensionId, answers) == []
  {
    if answers != [] {
      CountedNone(m, dimensionId, answers[..|answers| - 1]);
    }
  }

  predicate ScalarInRange(a: StoredAnswer)
  {
    a.Scalar? && 0 <= a.score <= 3
  }

  lemma {:induction false} CountedScalarsInRange(m: map<string, string>, dimensionId: string, answers: seq<(string, StoredAnswer)>)
    requires forall i :: 0 <= i < |answers| ==> ScalarInRange(answers[i].1)
    ensures forall a :: a in Counted(m, dimensionId, answers) ==> ScalarInRange(a)
  {
    if answers != [] {
      CountedScalarsInRange(m, dimensionId, answers[..|answers| - 1]);
    }
  }

  lemma {:induction false} TotalOfScalarsBounds(c: seq<StoredAnswer>)
    requires forall a :: a in c ==> ScalarInRange(a)
    ensures 0 <= TotalOf(c) <= 3 * |c|
  {
    if c != [] {
      assert c[|c| - 1] in c;
      assert forall a :: a in c[..|c| - 1] ==> a in c;
      TotalOfScalarsBounds(c[..|c| - 1]);
    }
  }

  /** When every answer is a single score in 0..3, the percentage is in 0..100. */
  lemma DimensionPercentageInRange(m: map<string, string>, dimensionId: string, answers: seq<(string, StoredAnswer)>)
    requires forall i :: 0 <= i < |answers| ==> ScalarInRange(answers[i].1)
    ensures 0 <= DimensionPercentage(m, dimensionId, answers) <= 100
  {
    var c := Counted(m, dimensionId, answers);
    CountedScalarsInRange(m, dimensionId, answers);
    TotalOfScalarsBounds(c);
    if c != [] {
      RoundDivBounds(100 * TotalOf(c), 3 * |c|, 0, 100);
    }
  }

  /** Nothing clamps the result: one multiselect answer scoring 2 + 2 gives 133. */
  lemma MultiSelectCanExceedHundred(m: map<string, string>, dimensionId: string, q: string)
    requires q in m && m[q] == dimensionId
    ensures DimensionPercentage(m, dimensionId, [(q, Scores([2, 2]))]) == 133
  {
    var answers := [(q, Scores([2, 2]))];
    assert answers[..0] == [];
    assert Counted(m, dimensionId, answers) == [Scores([2, 2])];
    assert Sum([2, 2]) == 4 by {
      assert [2, 2][..1] == [2];
      assert [2][..0] == [];
    }
    assert TotalOf([Scores([2, 2])]) == 4 by {
      assert [Scores([2, 2])][..0] == [];
    }
  }

  /** Two binary answers scoring 3 and 0 give 50. */
  lemma TwoBinaryAnswers(m: map<string, string>, dimensionId: string, q1: string, q2: string)
    requires q1 in m && m[q1] == dimensionId && q2 in m && m[q2] == dimensionId
    ensures DimensionPercentage(m, dimensionId, [(q1, Scalar(3)), (q2, Scalar(0))]) == 50
  {
    var answers := [(q1, Scalar(3)), (q2, Scalar(0))];
    assert answers[..1] == [(q1, Scalar(3))];
    assert answers[..1][..0] == [];
    var c := [Scalar(3), Scalar(0)];
    assert Counted(m, dimensionId, answers[..1]) == [Scalar(3)];
    assert Counted(m, dimensionId, answers) == c;
    assert c[..1] == [Scalar(3)] && c[..1][..0] == [];
    assert TotalOf(c) == 3;
  }

  /** One multiselect answer with scores 1 and 2 counts once and gives 100. */
  lemma OneMultiSelectAnswer(m: map<string, string>, dimensionId: string, q: string)
    requires q in m && m[q] == dimensionId
    ensures DimensionPercentage(m, dimensionId, [(q, Scores([1, 2]))]) == 100
  {
    var answers := [(q, Scores([1, 2]))];
    assert answers[..0] == [];
    assert Counted(m, dimensionId, answers) == [Scores([1, 2])];
    assert Sum([1, 2]) == 3 by {
      assert [1, 2][..1] == [1];
      assert [1][..0] == [];
    }
    assert TotalOf([Scores([1, 2])]) == 3 by {
      assert [Scores([1, 2])][..0] == [];
    }
  }

  // ---------------------------------------------------------------------------
  // The engine

  class Engine {
    /** Question id → question. */
    var questionMap: map<string, AdaptiveQuestion>
    /** Question id → id of the dimension whose branch holds it. */
    var questionDimensionMap: map<string, string>

    ghost predicate Valid()
      reads this
    {
      WellIndexed(questionMap, questionDimensionMap)
    }

    constructor(dimensions: seq<Dimension>)
      ensures questionMap == QuestionIndex(Entries(dimensions))
      ensures questionDimensionMap == DimensionIndex(Entries(dimensions))
      ensures Valid()
    {
      questionMap := map[];
      questionDimensionMap := map[];
      new;
      BuildQuestionMap(dimensions);
      IndexWellIndexed(Entries(dimensions));
    }

    /** Visits every question of every branch of every dimension, in order, and records it
        and its dimension under its id. */
    method BuildQuestionMap(dimensions: seq<Dimension>)
      requires questionMap == map[] && questionDimensionMap == map[]
      modifies this
      ensures questionMap == QuestionIndex(Entries(dimensions))
      ensures questionDimensionMap == DimensionIndex(Entries(dimensions))
    {
      assert dimensions[..0] == [];
      var i := 0;
      while i < |dimensions|
        invariant 0 <= i <= |dimensions|
        invariant questionMap == QuestionIndex(Entries(dimensions[..i]))
        invariant questionDimensionMap == DimensionIndex(Entries(dimensions[..i]))
      {
        IndexDimension(dimensions[i].id, dimensions[i].branches, Entries(dimensions[..i]));
        assert dimensions[..i + 1][..i] == dimensions[..i];
        i := i + 1;
      }
      assert dimensions[..i] == dimensions;
    }

    /** The visits of one dimension's branches, after the visits `before`. */
    method IndexDimension(dimensionId: string, branches: seq<Branch>, ghost before: seq<Entry>)
      requires questionMap == QuestionIndex(before) && questionDimensionMap == DimensionIndex(before)
      modifies this
      ensures questionMap == QuestionIndex(before + DimensionEntries(dimensionId, branches))
      ensures questionDimensionMap == DimensionIndex(before + DimensionEntries(dimensionId, branches))
    {
      assert branches[..0] == [] && before + [] == before;
      ghost var visited := before;
      var j := 0;
      while j < |branches|
        invariant 0 <= j <= |branches|
        invariant visited == before + DimensionEntries(dimensionId, branches[..j])
        invariant questionMap == QuestionIndex(visited) && questionDimensionMap == DimensionIndex(visited)
      {
        IndexBranch(dimensionId, branches[j].questions, visited);
        DimensionEntriesStep(dimensionId, branches, j);
        AppendAssociative(before, DimensionEntries(dimensionId, branches[..j]), BranchEntries(dimensionId, branches[j].questions));
        visited := visited + BranchEntries(dimensionId, branches[j].questions);
        j := j + 1;
      }
      assert branches[..j] == branches;
    }

    /** The visits of one branch's questions, after the visits `before`. */
    method IndexBranch(dimensionId: string, questions: seq<AdaptiveQuestion>, ghost before: seq<Entry>)
      requires questionMap == QuestionIndex(before) && questionDimensionMap == DimensionIndex(before)
      modifies this
      ensures questionMap == QuestionIndex(before + BranchEntries(dimensionId, questions))
      ensures questionDimensionMap == DimensionIndex(before + BranchEntries(dimensionId, questions))
    {
      assert questions[..0] == [] && before + [] == before;
      var k := 0;
      while k < |questions|
        invariant 0 <= k <= |questions|
        invariant questionMap == QuestionIndex(before + BranchEntries(dimensionId, questions[..k]))
        invariant questionDimensionMap == DimensionIndex(before + BranchEntries(dimensionId, questions[..k]))
      {
        var q := questions[k];
        QuestionIndexAppend(before + BranchEntries(dimensionId, questions[..k]), Entry(dimensionId, q));
        assert before + BranchEntries(dimensionId, questions[..k + 1])
          == (before + BranchEntries(dimensionId, questions[..k])) + [Entry(dimensionId, q)];
        questionMap := questionMap[q.id := q];
        questionDimensionMap := questionDimensionMap[q.id := dimensionId];
        k := k + 1;
      }
      assert questions[..k] == questions;
    }

    /** `questionMap.get(questionId)`: a retrieved question carries the id asked for and
        is indexed to a dimension. */
    function GetQuestion(questionId: string): (r: Option<AdaptiveQuestion>)
      requires Valid()
      reads this
      ensures r.Some? <==> questionId in questionMap
      ensures r.Some? ==> r.value.id == questionId && questionId in questionDimensionMap
    {
      if questionId in questionMap then Some(questionMap[questionId]) else None
    }

    /** Sums the answers indexed to `dimensionId`, a list of scores counting as one
        question, and returns the rounded percentage of 3 points per question. */
    method CalculateScore(dimensionId: string, answers: seq<(string, StoredAnswer)>) returns (score: int)
      ensures score == DimensionPercentage(questionDimensionMap, dimensionId, answers)
    {
      var totalScore := 0;
      var count := 0;
      var i := 0;
      while i < |answers|
        invariant 0 <= i <= |answers|
        invariant totalScore == TotalOf(Counted(questionDimensionMap, dimensionId, answers[..i]))
        invariant count == |Counted(questionDimensionMap, dimensionId, answers[..i])|
      {
        var (questionId, answer) := answers[i];
        CalculateScoreStep(questionDimensionMap, dimensionId, answers, i);
        if questionId in questionDimensionMap && questionDimensionMap[questionId] == dimensionId {
          totalScore := totalScore + AnswerTotal(answer);
          count := count + 1;
        }
        i := i + 1;
      }
      assert answers[..i] == answers;
      score := if count > 0 then RoundDiv(100 * totalScore, 3 * count) else 0;
    }
  }
}
