/** The conversational questionnaire (app/conversation/page.tsx): the state kept between
    answers, the value stored for one answer, and the transition one answer makes — follow
    the question graph inside a dimension, and move to the next incomplete dimension when
    a branch ends. */
module Conversation {
  import opened Collections
  import opened AdaptiveEngine

  /** ConversationState. `answers` is the answers object, in insertion order; `startTime`
      is the clock reading taken when the conversation starts. */
  datatype ConversationState = ConversationState(
    currentQuestionId: string,
    currentDimensionId: string,
    answers: seq<(string, StoredAnswer)>,
    visitedQuestions: seq<string>,
    dimensionsCompleted: set<string>,
    startTime: int)

  /** The state a new conversation starts from. */
  function InitialState(now: int): (s: ConversationState)
    ensures s.currentQuestionId == "strat_q1" && s.currentDimensionId == "strategie"
    ensures s.answers == [] && s.visitedQuestions == [] && s.dimensionsCompleted == {}
    ensures s.startTime == now
  {
    ConversationState("strat_q1", "strategie", [], [], {}, now)
  }

  // ---------------------------------------------------------------------------
  // The value stored for an answer

  /** The score of the first option whose value is `value`, or None when no option has it. */
  function FirstOptionScore(options: seq<AnswerOption>, value: string): (r: Option<int>)
    ensures r.None? <==> forall i :: 0 <= i < |options| ==> options[i].value != value
    ensures r.Some? ==> exists i :: (0 <= i < |options| && options[i].value == value &&
      options[i].score == r.value && forall j :: 0 <= j < i ==> options[j].value != value)
  {
    if options == [] then None
    else if options[0].value == value then Some(options[0].score)
    else
      var r := FirstOptionScore(options[1..], value);
      if r.Some? then
        var i :| 0 <= i < |options[1..]| && options[1..][i].value == value &&
          options[1..][i].score == r.value && forall j :: 0 <= j < i ==> options[1..][j].value != value;
        assert options[i + 1].value == value && options[i + 1].score == r.value;
        assert forall j :: 0 <= j < i + 1 ==> options[j].value != value by {
          forall j | 0 <= j < i + 1 ensures options[j].value != value {
            if j > 0 {
              assert options[j] == options[1..][j - 1];
            }
          }
        }
        r
      else
        assert forall i :: 0 <= i < |options| ==> options[i].value != value by {
          forall i | 0 <= i < |options| ensures options[i].value != value {
            if i > 0 {
              assert options[i] == options[1..][i - 1];
            }
          }
        }
        r
  }

  /** `options?.find(o => o.value === value)?.score`, with a missing option list, a missing
      option and a score of 0 all read as 0 (`|| 0`). */
  function OptionScore(options: Option<seq<AnswerOption>>, value: string): (r: int)
    ensures options.None? ==> r == 0
    ensures options.Some? && FirstOptionScore(options.value, value).None? ==> r == 0
    ensures options.Some? && FirstOptionScore(options.value, value).Some? ==>
      r == FirstOptionScore(options.value, value).value
  {
    match options
    case None => 0
    case Some(opts) =>
      match FirstOptionScore(opts, value)
      case None => 0
      case Some(score) => score
  }

  /** The option score an answer selects: only a text answer can equal an option's value,
      which is a string. */
  function MatchedScore(options: Option<seq<AnswerOption>>, answer: RawAnswer): int
  {
    if answer.TextAnswer? then OptionScore(options, answer.s) else 0
  }

  /** `scoring ? scoring[answer === true ? 'yes' : 'no'] : 0`. */
  function YesNoScore(scoring: Option<YesNoScoring>, answer: RawAnswer): int
  {
    match scoring
    case None => 0
    case Some(table) => if answer == BoolAnswer(true) then table.yes else table.no
  }

  /** The value recorded for an answer: one score per selected value for a multiselect
      question answered with a list, otherwise the matched option's score, or the yes/no
      table's entry when that score is missing or 0. */
  function ScoreValue(q: AdaptiveQuestion, answer: RawAnswer): (v: StoredAnswer)
    ensures v.Scores? <==> q.questionType == MultiSelect && answer.ListAnswer?
    ensures v.Scores? ==> |v.scores| == |answer.values|
    ensures v.Scores? ==> forall i :: 0 <= i < |v.scores| ==> v.scores[i] == OptionScore(q.options, answer.values[i])
    ensures v.Scalar? && MatchedScore(q.options, answer) != 0 ==> v.score == MatchedScore(q.options, answer)
    ensures v.Scalar? && MatchedScore(q.options, answer) == 0 ==> v.score == YesNoScore(q.scoring, answer)
  {
    if q.questionType == MultiSelect && answer.ListAnswer? then
      Scores(seq(|answer.values|, i requires 0 <= i < |answer.values| => OptionScore(q.options, answer.values[i])))
    else
      var matched := MatchedScore(q.options, answer);
      Scalar(if matched != 0 then matched else YesNoScore(q.scoring, answer))
  }

  /** A yes/no question without options stores the table's yes score for `true` and its no
      score for `false`. */
  lemma BinaryAnswerScores(q: AdaptiveQuestion, table: YesNoScoring)
    requires q.options.None? && q.scoring == Some(table)
    ensures ScoreValue(q, BoolAnswer(true)) == Scalar(table.yes)
    ensures ScoreValue(q, BoolAnswer(false)) == Scalar(table.no)
  {
  }

  /** A text answer equal to an option's value stores the first such option's score,
      unless that score is 0, in which case the yes/no table's no entry (or 0) is stored. */
  lemma {:induction false} ChosenOptionScore(q: AdaptiveQuestion, i: int)
    requires q.options.Some? && 0 <= i < |q.options.value|
    requires forall j :: 0 <= j < i ==> q.options.value[j].value != q.options.value[i].value
    requires q.questionType != MultiSelect
    ensures var o := q.options.value[i];
      ScoreValue(q, TextAnswer(o.value)) ==
        Scalar(if o.score != 0 then o.score else YesNoScore(q.scoring, TextAnswer(o.value)))
  {
    var opts, o := q.options.value, q.options.value[i];
    var r := FirstOptionScore(opts, o.value);
    assert r.Some?;
    var k :| 0 <= k < |opts| && opts[k].value == o.value && opts[k].score == r.value &&
      forall j :: 0 <= j < k ==> opts[j].value != o.value;
    assert k == i;
  }

  /** A number never equals an option's value, so it stores the table's no entry, or 0. */
  lemma NumberAnswerFallsBack(q: AdaptiveQuestion, n: int)
    ensures ScoreValue(q, NumberAnswer(n)) ==
      Scalar(if q.scoring.Some? then q.scoring.value.no else 0)
  {
  }

  /** In a multiselect answer, a value no option carries scores 0. */
  lemma UnknownSelectionScoresZero(q: AdaptiveQuestion, values: seq<string>, i: int)
    requires q.questionType == MultiSelect && 0 <= i < |values|
    requires q.options.Some? ==> forall j :: 0 <= j < |q.options.value| ==> q.options.value[j].value != values[i]
    ensures ScoreValue(q, ListAnswer(values)).scores[i] == 0
  {
  }

  // ---------------------------------------------------------------------------
  // Dimension order

  /** `adaptiveQuestions.dimensions.map(d => d.id)`. */
  function DimensionIds(dimensions: seq<Dimension>): (ids: seq<string>)
    ensures |ids| == |dimensions|
    ensures forall i :: 0 <= i < |dimensions| ==> ids[i] == dimensions[i].id
  {
    seq(|dimensions|, i requires 0 <= i < |dimensions| => dimensions[i].id)
  }

  /** The set of the ids in a list. */
  function IdSet(ids: seq<string>): (r: set<string>)
    ensures forall x :: x in r <==> x in ids
  {
    if ids == [] then {}
    else
      var init := ids[..|ids| - 1];
      assert forall x :: x in ids <==> x in init || x == ids[|ids| - 1];
      IdSet(init) + {ids[|ids| - 1]}
  }

  /** Without repetitions, a list has as many distinct ids as elements. */
  lemma {:induction false} IdSetSize(ids: seq<string>)
    requires Distinct(ids)
    ensures |IdSet(ids)| == |ids|
  {
    if ids != [] {
      var init := ids[..|ids| - 1];
      assert Distinct(init);
      IdSetSize(init);
      assert ids[|ids| - 1] !in init;
    }
  }

  /** `allDimensions.find(d => !newCompleted.has(d))`: the first id, in definition order,
      that is not completed. */
  function NextIncomplete(ids: seq<string>, completed: set<string>): (r: Option<string>)
    ensures r.None? <==> forall i :: 0 <= i < |ids| ==> ids[i] in completed
    ensures r.Some? ==> r.value in ids && r.value !in completed
  {
    FindFirst(ids, d => d !in completed)
  }

  /** `nextDimData?.branches[0]?.questions[0]?.id`, None when it is missing or empty. */
  function FirstQuestionId(dimensions: seq<Dimension>, dimensionId: string): (r: Option<string>)
    ensures r.Some? ==> r.value != ""
    ensures r.Some? ==> exists i :: (0 <= i < |dimensions| && dimensions[i].id == dimensionId &&
      |dimensions[i].branches| > 0 && |dimensions[i].branches[0].questions| > 0 &&
      dimensions[i].branches[0].questions[0].id == r.value)
  {
    match FindFirst(dimensions, (d: Dimension) => d.id == dimensionId)
    case None => None
    case Some(d) =>
      if |d.branches| > 0 && |d.branches[0].questions| > 0 && d.branches[0].questions[0].id != ""
      then Some(d.branches[0].questions[0].id)
      else None
  }

  // ---------------------------------------------------------------------------
  // One answer

  /** What one answer leads to: a new state and the question now shown, the final state
      saved for the results page, or no change (the next dimension has no first question). */
  datatype Outcome =
    | Moved(next: ConversationState, question: Option<AdaptiveQuestion>)
    | Finished(finalState: ConversationState)
    | Stuck

  /** `engine.getQuestion(id) || null`. */
  function Lookup(questionMap: map<string, AdaptiveQuestion>, id: string): Option<AdaptiveQuestion>
  {
    if id in questionMap then Some(questionMap[id]) else None
  }

  /** The transition `handleAnswer` makes when question `q` is answered in state `s`. */
  function Step(questionMap: map<string, AdaptiveQuestion>, dimensions: seq<Dimension>,
                s: ConversationState, q: AdaptiveQuestion, answer: RawAnswer): (o: Outcome)
    ensures !o.Moved? ==> GetNextQuestion(q, answer).None? || GetNextQuestion(q, answer).value == ""
  {
    var answered := s.(answers := Put(s.answers, q.id, ScoreValue(q, answer)),
                       visitedQuestions := s.visitedQuestions + [q.id]);
    var nextQuestionId := GetNextQuestion(q, answer);
    if nextQuestionId.None? || nextQuestionId.value == "" then
      BranchEnd(questionMap, dimensions, answered)
    else
      Moved(answered.(currentQuestionId := nextQuestionId.value), Lookup(questionMap, nextQuestionId.value))
  }

  /** The branch of `handleAnswer` taken when the answered question has no next question:
      `answered` already holds the new answer and visit. */
  function BranchEnd(questionMap: map<string, AdaptiveQuestion>, dimensions: seq<Dimension>,
                     answered: ConversationState): (o: Outcome)
    ensures var completed := answered.dimensionsCompleted + {answered.currentDimensionId};
      (o.Finished? <==> |completed| == |dimensions|) &&
      (o.Moved? ==> o.next.currentDimensionId in DimensionIds(dimensions) &&
                    o.next.currentDimensionId !in completed)
  {
    var ids := DimensionIds(dimensions);
    var completed := answered.dimensionsCompleted + {answered.currentDimensionId};
    if |completed| == |ids| then
      Finished(answered.(dimensionsCompleted := completed))
    else
      match NextIncomplete(ids, completed)
      case None => Stuck
      case Some(nextDim) =>
        if nextDim == "" then Stuck
        else
        match FirstQuestionId(dimensions, nextDim)
        case None => Stuck
        case Some(firstQ) =>
          Moved(answered.(currentQuestionId := firstQ, currentDimensionId := nextDim,
                          dimensionsCompleted := completed),
                Lookup(questionMap, firstQ))
  }

  /** The state an outcome leaves behind, if it records one. */
  function Recorded(o: Outcome): Option<ConversationState>
  {
    match o
    case Moved(next, _) => Some(next)
    case Finished(f) => Some(f)
    case Stuck => None
  }

  /** An answer is stored under the answered question's id only, that id is appended to
      the visited list, and the start time is kept. */
  lemma StepRecordsAnswer(questionMap: map<string, AdaptiveQuestion>, dimensions: seq<Dimension>,
                          s: ConversationState, q: AdaptiveQuestion, answer: RawAnswer)
    requires Recorded(Step(questionMap, dimensions, s, q, answer)).Some?
    ensures var n := Recorded(Step(questionMap, dimensions, s, q, answer)).value;
      Get(n.answers, q.id) == Some(ScoreValue(q, answer)) &&
      (forall k :: k != q.id ==> Get(n.answers, k) == Get(s.answers, k)) &&
      n.visitedQuestions == s.visitedQuestions + [q.id] &&
      n.startTime == s.startTime
  {
    var answered := s.(answers := Put(s.answers, q.id, ScoreValue(q, answer)),
                       visitedQuestions := s.visitedQuestions + [q.id]);
    BranchEndKeepsAnswers(questionMap, dimensions, answered);
    var n := Recorded(Step(questionMap, dimensions, s, q, answer)).value;
    assert n.answers == answered.answers && n.visitedQuestions == answered.visitedQuestions &&
      n.startTime == s.startTime;
  }

  /** The end of a branch records the answers, visits and start time it is given. */
  lemma BranchEndKeepsAnswers(questionMap: map<string, AdaptiveQuestion>, dimensions: seq<Dimension>,
                              answered: ConversationState)
    ensures Recorded(BranchEnd(questionMap, dimensions, answered)).Some? ==>
      var n := Recorded(BranchEnd(questionMap, dimensions, answered)).value;
      n.answers == answered.answers && n.visitedQuestions == answered.visitedQuestions &&
      n.startTime == answered.startTime
  {
  }

  /** A non-empty next id moves to that question within the same dimension. */
  lemma StepFollowsNextLink(questionMap: map<string, AdaptiveQuestion>, dimensions: seq<Dimension>,
                           s: ConversationState, q: AdaptiveQuestion, answer: RawAnswer)
    requires GetNextQuestion(q, answer).Some? && GetNextQuestion(q, answer).value != ""
    ensures var o := Step(questionMap, dimensions, s, q, answer);
      o.Moved? &&
      o.next.currentQuestionId == GetNextQuestion(q, answer).value &&
      o.next.currentDimensionId == s.currentDimensionId &&
      o.next.dimensionsCompleted == s.dimensionsCompleted &&
      o.question == Lookup(questionMap, GetNextQuestion(q, answer).value)
  {
  }

  /** When the branch ends, the current dimension is completed; the conversation finishes
      exactly when the completed set has as many elements as there are dimensions, and
      otherwise moves to the first incomplete dimension's first question, or stays put when
      there is no incomplete dimension, its id is empty (falsy) or it has no first question. */
  lemma StepCompletesDimension(questionMap: map<string, AdaptiveQuestion>, dimensions: seq<Dimension>,
                               s: ConversationState, q: AdaptiveQuestion, answer: RawAnswer)
    requires GetNextQuestion(q, answer).None? || GetNextQuestion(q, answer).value == ""
    ensures var o := Step(questionMap, dimensions, s, q, answer);
      var completed := s.dimensionsCompleted + {s.currentDimensionId};
      (o.Finished? <==> |completed| == |dimensions|) &&
      (o.Finished? ==> o.finalState.dimensionsCompleted == completed &&
                       o.finalState.currentQuestionId == s.currentQuestionId &&
                       o.finalState.currentDimensionId == s.currentDimensionId) &&
      (o.Moved? ==> o.next.dimensionsCompleted == completed && o.next.currentDimensionId != "" &&
                    Some(o.next.currentDimensionId) == NextIncomplete(DimensionIds(dimensions), completed) &&
                    Some(o.next.currentQuestionId) == FirstQuestionId(dimensions, o.next.currentDimensionId)) &&
      (o.Stuck? <==> |completed| != |dimensions| &&
                     (NextIncomplete(DimensionIds(dimensions), completed).None? ||
                      NextIncomplete(DimensionIds(dimensions), completed).value == "" ||
                      FirstQuestionId(dimensions, NextIncomplete(DimensionIds(dimensions), completed).value).None?))
  {
  }

  // ---------------------------------------------------------------------------
  // Completion

  /** The page's invariant: the current dimension is one of the dimensions and is not
      completed, and only dimensions are completed. */
  predicate Consistent(ids: seq<string>, s: ConversationState)
  {
    s.currentDimensionId in ids &&
    s.currentDimensionId !in s.dimensionsCompleted &&
    s.dimensionsCompleted <= IdSet(ids)
  }

  /** The initial state is consistent for any dimension list holding "strategie". */
  lemma InitialConsistent(dimensions: seq<Dimension>, now: int)
    requires "strategie" in DimensionIds(dimensions)
    ensures Consistent(DimensionIds(dimensions), InitialState(now))
  {
  }

  /** Every move keeps the invariant. */
  lemma StepKeepsConsistent(questionMap: map<string, AdaptiveQuestion>, dimensions: seq<Dimension>,
                            s: ConversationState, q: AdaptiveQuestion, answer: RawAnswer)
    requires Consistent(DimensionIds(dimensions), s)
    requires Step(questionMap, dimensions, s, q, answer).Moved?
    ensures Consistent(DimensionIds(dimensions), Step(questionMap, dimensions, s, q, answer).next)
  {
  }

  /** Completing a dimension grows the completed set by exactly one, and it can never
      exceed the number of distinct dimension ids; with distinct ids, the conversation
      finishes exactly when every dimension is completed, and until then an incomplete
      dimension remains to move to. */
  lemma {:induction false} CompletionProgress(dimensions: seq<Dimension>, s: ConversationState)
    requires Consistent(DimensionIds(dimensions), s)
    ensures |s.dimensionsCompleted + {s.currentDimensionId}| == |s.dimensionsCompleted| + 1
    ensures |s.dimensionsCompleted + {s.currentDimensionId}| <= |IdSet(DimensionIds(dimensions))|
    ensures Distinct(DimensionIds(dimensions)) ==>
      var ids, completed := DimensionIds(dimensions), s.dimensionsCompleted + {s.currentDimensionId};
      (|completed| == |dimensions| <==> completed == IdSet(ids)) &&
      (|completed| != |dimensions| ==> NextIncomplete(ids, completed).Some?)
  {
    var ids, completed := DimensionIds(dimensions), s.dimensionsCompleted + {s.currentDimensionId};
    assert completed <= IdSet(ids);
    SubsetSize(completed, IdSet(ids));
    if Distinct(ids) {
      IdSetSize(ids);
      if |completed| == |dimensions| {
        SubsetSize(completed, IdSet(ids));
      }
      if |completed| != |dimensions| {
        assert |completed| < |IdSet(ids)|;
        var x := Missing(completed, IdSet(ids));
        var i :| 0 <= i < |ids| && ids[i] == x;
      }
    }
  }

  /** A subset is no larger, and a subset of the same size is the whole set. */
  lemma SubsetSize(a: set<string>, b: set<string>)
    requires a <= b
    ensures |a| <= |b|
    ensures |a| == |b| ==> a == b
  {
    assert b == a + (b - a);
    assert |b| == |a| + |b - a|;
    if |a| == |b| {
      assert b - a == {};
    }
  }

  /** A strictly smaller subset misses an element. */
  lemma Missing(a: set<string>, b: set<string>) returns (x: string)
    requires a <= b && |a| < |b|
    ensures x in b && x !in a
  {
    assert b == a + (b - a);
    assert |b - a| > 0;
    x :| x in b - a;
  }

  /** With a repeated dimension id, the completed set can never reach the list's length:
      completing every distinct dimension leaves the conversation stuck. */
  lemma RepeatedIdsNeverFinish(questionMap: map<string, AdaptiveQuestion>, dimensions: seq<Dimension>,
                               s: ConversationState, q: AdaptiveQuestion, answer: RawAnswer)
    requires !Distinct(DimensionIds(dimensions))
    requires Consistent(DimensionIds(dimensions), s)
    requires s.dimensionsCompleted + {s.currentDimensionId} == IdSet(DimensionIds(dimensions))
    requires GetNextQuestion(q, answer).None? || GetNextQuestion(q, answer).value == ""
    ensures Step(questionMap, dimensions, s, q, answer) == Stuck
  {
    var ids := DimensionIds(dimensions);
    var i, j :| 0 <= i < j < |ids| && ids[i] == ids[j];
    DuplicateShrinksSet(ids, i, j);
    var answered := s.(answers := Put(s.answers, q.id, ScoreValue(q, answer)),
                       visitedQuestions := s.visitedQuestions + [q.id]);
    var completed := answered.dimensionsCompleted + {answered.currentDimensionId};
    assert completed == IdSet(ids);
    assert NextIncomplete(ids, completed).None?;
    assert Step(questionMap, dimensions, s, q, answer) == BranchEnd(questionMap, dimensions, answered);
  }

  /** A list with a repeated element has fewer distinct elements than entries. */
  lemma {:induction false} DuplicateShrinksSet(ids: seq<string>, i: int, j: int)
    requires 0 <= i < j < |ids| && ids[i] == ids[j]
    ensures |IdSet(ids)| < |ids|
  {
    var init := ids[..|ids| - 1];
    IdSetAtMost(init);
    if j == |ids| - 1 {
      assert ids[j] in init;
      assert IdSet(ids) == IdSet(init);
    } else {
      DuplicateShrinksSet(init, i, j);
    }
  }

  /** A list has at most as many distinct elements as entries. */
  lemma {:induction false} IdSetAtMost(ids: seq<string>)
    ensures |IdSet(ids)| <= |ids|
  {
    if ids != [] {
      IdSetAtMost(ids[..|ids| - 1]);
    }
  }

  // ---------------------------------------------------------------------------
  // The page

  class ConversationPage {
    const engine: Engine
    /** The questionnaire's dimensions, in definition order. */
    const dimensions: seq<Dimension>
    var state: ConversationState
    /** The question shown, None for `null`. */
    var currentQuestion: Option<AdaptiveQuestion>
    /** The answers stored under `conversationAnswers` once the conversation finishes, and
        the state stored under `conversationState` after every move and at the finish. */
    var savedAnswers: Option<seq<(string, StoredAnswer)>>
    var savedState: Option<ConversationState>

    ghost predicate Valid()
      reads this, engine
    {
      engine.Valid() &&
      engine.questionMap == QuestionIndex(Entries(dimensions)) &&
      Consistent(DimensionIds(dimensions), state)
    }

    /** A fresh conversation: a new engine over the questionnaire, the initial state and
        its first question. */
    constructor(dimensions: seq<Dimension>, now: int)
      requires "strategie" in DimensionIds(dimensions)
      ensures this.dimensions == dimensions && fresh(engine)
      ensures state == InitialState(now)
      ensures currentQuestion == Lookup(engine.questionMap, "strat_q1")
      ensures savedAnswers == None && savedState == None
      ensures Valid()
    {
      this.dimensions := dimensions;
      var e := new Engine(dimensions);
      engine := e;
      state := InitialState(now);
      currentQuestion := e.GetQuestion("strat_q1");
      savedAnswers := None;
      savedState := None;
      new;
      InitialConsistent(dimensions, now);
    }

    /** `handleAnswer`: records the answer and moves on as `Step` says, saving each new
        state; once every dimension is complete, saves the final state and answers instead
        of updating. */
    method HandleAnswer(answer: RawAnswer)
      requires Valid() && currentQuestion.Some?
      modifies this
      ensures Valid()
      ensures var o := Step(engine.questionMap, dimensions, old(state), old(currentQuestion).value, answer);
        match o
        case Moved(next, question) =>
          state == next && currentQuestion == question &&
          savedAnswers == old(savedAnswers) && savedState == Some(next)
        case Finished(f) =>
          state == old(state) && currentQuestion == old(currentQuestion) &&
          savedAnswers == Some(f.answers) && savedState == Some(f)
        case Stuck =>
          state == old(state) && currentQuestion == old(currentQuestion) &&
          savedAnswers == old(savedAnswers) && savedState == old(savedState)
    {
      var q := currentQuestion.value;
      ghost var s := state;
      var answered := state.(answers := Put(state.answers, q.id, ScoreValue(q, answer)),
                             visitedQuestions := state.visitedQuestions + [q.id]);
      var nextQuestionId := GetNextQuestion(q, answer);
      if nextQuestionId.None? || nextQuestionId.value == "" {
        EndBranch(answered);
      } else {
        state := answered.(currentQuestionId := nextQuestionId.value);
        savedState := Some(state);
        currentQuestion := engine.GetQuestion(nextQuestionId.value);
      }
      if Step(engine.questionMap, dimensions, s, q, answer).Moved? {
        StepKeepsConsistent(engine.questionMap, dimensions, s, q, answer);
      }
    }

    /** The end-of-branch part of `handleAnswer`: finish and save, move to the next
        incomplete dimension's first question, or leave the page as it is. */
    method EndBranch(answered: ConversationState)
      requires engine.Valid()
      modifies this
      ensures var o := BranchEnd(engine.questionMap, dimensions, answered);
        match o
        case Moved(next, question) =>
          state == next && currentQuestion == question &&
          savedAnswers == old(savedAnswers) && savedState == Some(next)
        case Finished(f) =>
          state == old(state) && currentQuestion == old(currentQuestion) &&
          savedAnswers == Some(f.answers) && savedState == Some(f)
        case Stuck =>
          state == old(state) && currentQuestion == old(currentQuestion) &&
          savedAnswers == old(savedAnswers) && savedState == old(savedState)
    {
      var allDimensions := DimensionIds(dimensions);
      var newCompleted := answered.dimensionsCompleted + {answered.currentDimensionId};
      if |newCompleted| == |allDimensions| {
        var finalState := answered.(dimensionsCompleted := newCompleted);
        savedAnswers := Some(finalState.answers);
        savedState := Some(finalState);
      } else {
        var nextDim := NextIncomplete(allDimensions, newCompleted);
        if nextDim.Some? && nextDim.value != "" {
          var firstQ := FirstQuestionId(dimensions, nextDim.value);
          if firstQ.Some? {
            state := answered.(currentQuestionId := firstQ.value, currentDimensionId := nextDim.value,
                               dimensionsCompleted := newCompleted);
            savedState := Some(state);
            currentQuestion := engine.GetQuestion(firstQ.value);
          }
        }
      }
    }
  }
}
