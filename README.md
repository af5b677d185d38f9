# DigiAssistant maturity scoring, in Dafny

DigiAssistant rates a company's digital maturity along six dimensions (strategy, culture,
customer relationship, processes, technology, security). Each dimension has four maturity
levels, called paliers in the static questionnaire and tiers in the adaptive one. This
project models the scoring and gap-analysis logic behind both questionnaires, the report
selections built on it, and the Python backend's parallel scoring, session table and rules.
It proves what that logic promises.

One module per source file:

- `ScoringUtils` (lib/scoring-utils.ts) holds the pure classifiers and lookup tables:
  - tier, palier and profile classifiers for the French and the English profile sets;
  - dimension and global aggregation;
  - the two gap policies (target 4 always, or the caller's target);
  - narrative and action selection.
  The long texts are opaque constants. The proofs are about which row and slot is chosen.
- `AdaptiveEngine` (lib/adaptive-engine.ts) is a class whose constructor fills two maps in
  nested loops. Its `calculateScore` loop is proved against a dimension-percentage function.
- `Conversation` (app/conversation/page.tsx):
  - the adaptive questionnaire's state;
  - the `handleAnswer` step as a function;
  - the page as a class whose method performs that step.
- `ConversationResults` (app/conversation-results/page.tsx) is the results pipeline:
  - base scores, global score and profile;
  - enriched rows against the hard-coded target 4;
  - strengths, critical gaps, action lists and the elapsed-time text.
- `StaticResults` (app/results/page.tsx) covers the criterion → palier → dimension loops,
  with `Number(raw)` coercion as a missing/number/not-a-number variant, and the
  strongest/weakest reductions.
- `AssessmentFlow` (app/assessment/page.tsx) is the static questionnaire's answer and
  navigation state, as a class.
- `PdfContent` and `ConversationPdfContent` (components/pdf-content.tsx,
  components/conversation-pdf-content.tsx) cover the report selections:
  - gap lookup, above-target and priority lists, and action-plan assembly with deduplication;
  - status and priority labels and the heatmap clamp;
  - the band and narrative texts;
  - the in-place heatmap sort on an `array`.
- `PdfUtils` (lib/pdf-utils.ts) is `formatCompanyName`, with JavaScript's `\s` class written
  out.
- `ScoringEngine`, `ScoringApi`, `AnswersApi` and `RulesEngine` cover the Python backend:
  - the scoring engine;
  - the scoring endpoint's nested loops, with the criteria file as a parameter;
  - the in-memory assessment table, as a class;
  - the rule constants.
- `Collections` and `JsNumbers` are shared helpers:
  - Option/Result;
  - Python dicts and JavaScript records as ordered key/value lists;
  - filters, stable sorts, deduplication and joins;
  - `Math.round` as an integer formula, clamps and decimal text.

Behaviour of the code that the model keeps and proves, including cases a reader might
not expect:

- **A uniform 30 % is tier 2.** Six dimensions at 30 % give a global score of 30. That is
  above 25, so the profile is the tier-2 one (`ScoringUtils.UniformScenario`).
- **The backend and the front end disagree between integers.** The backend profile uses
  strict thresholds 26/51/76, the front end inclusive 25/50/75. They agree on whole
  numbers, but strictly between 25 and 26 (and likewise at 50–51 and 75–76) the backend is
  one level lower (`ScoringEngine.DisagreesBetweenIntegers`).
- **Header and rows use different targets.** The conversational report's header shows the
  profile's tier as the target, while every row targets tier 4. The two agree only for
  Leader (`ConversationPdfContent.HeaderTargetMatchesRowsOnlyForLeader`).
- **The table shows rows in heatmap order.** The heatmap sorts the shared rows array in
  place, so the table rendered after it lists the rows by gap
  (`ConversationPdfContent.HeatmapThenTable`).
- **The narrative ignores the target tier.** `getDimensionNarrative` never uses its target
  tier (`ConversationPdfContent.NarrativeIgnoresTarget`).
- **A multiselect answer can score over 100 %.** It counts as one answer but adds all its
  option scores (`AdaptiveEngine.MultiSelectCanExceedHundred`).
- **Repeated dimension ids stop the conversation.** With a repeated id the conversation can
  never finish (`Conversation.RepeatedIdsNeverFinish`).
- **Status and priority can disagree in the static report.** Its table can show "Above
  target" with "High" priority, because the status compares with the profile level and
  the gap with palier 4 (`PdfContent.StatusAndPriorityDisagree`).
- **Completion does not close an assessment.** A completed assessment still accepts
  answers (`AnswersApi.SubmitAfterComplete`).

## Model

| member | source | states |
|---|---|---|
| JsNumbers.RoundDiv | lib/scoring-utils.ts:171 | `Math.round(n / d)` for a positive divisor: the integer nearest the quotient, a half rounding up |
| JsNumbers.RoundDivMonotone | lib/scoring-utils.ts:188 | rounding a larger quotient never gives a smaller integer |
| JsNumbers.RoundDivBounds | lib/scoring-utils.ts:188 | a quotient between two integers rounds to an integer between them |
| JsNumbers.ClampReal | lib/scoring-utils.ts:61 | the same clamp on a real percentage |
| JsNumbers.Decimal | backend/api/scoring.py:39 | the decimal text of a natural number: at least one digit, all digits, one digit exactly below 10 |
| JsNumbers.DecimalRoundTrip | backend/api/scoring.py:39 | reading the decimal text back gives the number, so distinct levels give distinct keys |
| JsNumbers.IntText | backend/api/scoring.py:39 | the text of any integer: its digits, with a leading minus sign when negative |
| JsNumbers.PadStart2 | app/conversation/page.tsx:246 | `padStart(2, "0")`: a one-character text gains a leading zero, a longer one is unchanged |
| ScoringUtils.TierFromPercentage | lib/scoring-utils.ts:60-66 | after clamping to 0..100, tier 1 exactly up to 25, 2 above 25 up to 50, 3 above 50 up to 75, 4 above 75 |
| ScoringUtils.TierMonotone | lib/scoring-utils.ts:60-66 | a higher percentage never gets a lower tier |
| ScoringUtils.TierBreakpoints | lib/scoring-utils.ts:60-66 | the breakpoints are inclusive: 25, 50 and 75 stay in the lower tier, 0 is tier 1 and 100 tier 4 |
| ScoringUtils.ProfileFromGlobalScore | lib/scoring-utils.ts:68-73 | Beginner exactly up to 25 and Leader exactly above 75, with no clamp |
| ScoringUtils.ProfileOf | lib/scoring-utils.ts:114-119 | Débutant exactly up to 25 and Leader exactly above 75, with no clamp |
| ScoringUtils.ProfileTier | lib/scoring-utils.ts:75-88 | an adaptive profile's tier t is the quarter of the score scale its scores lie in: above 25·(t−1) unless t is 1, at most 25·t unless t is 4 |
| ScoringUtils.ProfileLevel | lib/scoring-utils.ts:121-134 | the same for the static profiles: every score classified as the profile lies in its level's quarter |
| ScoringUtils.PalierFromPercentage | lib/scoring-utils.ts:144-148 | after the 0..100 clamp, palier 1 exactly up to 25, 2 above 25 up to 50, 3 above 50 up to 75, 4 above 75 |
| ScoringUtils.PalierFromScore | lib/scoring-utils.ts:150-154 | the tier of a raw score clamped to 0..36, with breakpoints 9, 18 and 27 |
| ScoringUtils.ClassifiersAgree | lib/scoring-utils.ts:60-154 | the adaptive profile's tier, the static profile's level and `getPalierFromPercentage` all equal `getTierFromPercentage` |
| ScoringUtils.PalierFromScoreEnds | lib/scoring-utils.ts:150-154 | raw 0 is tier 1 and raw 36 is tier 4 |
| ScoringUtils.ToConversationProfile | lib/scoring-utils.ts:75-88 | each static profile has an adaptive counterpart of the same tier |
| ScoringUtils.ProfileSetsParallel | lib/scoring-utils.ts:68-119 | both profile classifiers pick counterpart profiles for every score |
| ScoringUtils.Gap | lib/scoring-utils.ts:156-158 | the gap is never negative, and it is either 0 or target minus achieved |
| ScoringUtils.GapPriority | lib/scoring-utils.ts:160-164 | High exactly from gap 2, Medium exactly at gap 1, Low below 1 |
| ScoringUtils.GetTierStatus | lib/scoring-utils.ts:106-110 | Above, On or Below target exactly as achieved is above, equal to or below the target |
| ScoringUtils.GapPriorityExamples | lib/scoring-utils.ts:156-164 | tier 1 against target 4 is High, and a met or exceeded target is Low |
| ScoringUtils.ComputeDimensionFromPaliers | lib/scoring-utils.ts:168-183 | the raw score is the sum of the four palier sums, the percentage is its nearest whole percent of 36, and the stored palier is that percentage's tier |
| ScoringUtils.DimensionInRange | lib/scoring-utils.ts:168-183 | palier sums in 0..9 give a raw score in 0..36 and a percentage in 0..100 |
| ScoringUtils.DimensionExtremes | lib/scoring-utils.ts:168-183 | all paliers at 9 give 36, 100 % and palier 4; all at 0 give 0, 0 % and palier 1 |
| ScoringUtils.RoundedPercentTier | lib/scoring-utils.ts:171-172 | rounding the percentage before classifying never changes the tier of an integer raw score |
| ScoringUtils.DimensionTierFromRawScore | lib/scoring-utils.ts:168-183 | the stored palier is the tier of the raw score itself |
| ScoringUtils.ComputeGlobalScore | lib/scoring-utils.ts:185-189 | 0 with no dimensions, otherwise the rounded mean of the percentages |
| ScoringUtils.SumPercentagesBounds | lib/scoring-utils.ts:187 | percentages in 0..100 add up to between 0 and 100 per dimension |
| ScoringUtils.GlobalScoreInRange | lib/scoring-utils.ts:185-189 | percentages in 0..100 give a global score in 0..100 |
| ScoringUtils.ComputeGaps | lib/scoring-utils.ts:191-206 | one gap per dimension, in order, against target 4, with gap 4 minus the achieved palier and its priority |
| ScoringUtils.ComputeGapsIgnoresProfile | lib/scoring-utils.ts:191-206 | the profile level argument has no effect on the gaps |
| ScoringUtils.ComputeGapsFromPercentages | lib/scoring-utils.ts:90-104 | one row per dimension, in order, with its id, name, tier, the caller's target, the clamped gap and its priority |
| ScoringUtils.AsPercentageInputs | lib/scoring-utils.ts:54-58 | a dimension score seen as a percentage input keeps its id, name and percentage |
| ScoringUtils.PoliciesAgreeAtTargetFour | lib/scoring-utils.ts:90-206 | with target 4 the adaptive gap rows have the static rows' gaps, priorities and tiers |
| ScoringUtils.SumPercentagesUniform | lib/scoring-utils.ts:187 | dimensions all at one percentage add up to count times that percentage |
| ScoringUtils.UniformScenario | lib/scoring-utils.ts:114-206 | six dimensions at 30 % give global score 30, a tier-2 profile, and no gap against target 2 |
| ScoringUtils.MixedScenario | lib/scoring-utils.ts:106-206 | one dimension at 90 % and five at 40 % give global 48 and a tier-2 profile; the 90 % dimension is above a target of 2 |
| ScoringUtils.GetPalierLabel | lib/scoring-utils.ts:240-253 | the label is empty exactly outside paliers 1..4 |
| ScoringUtils.DescribeProfile | lib/scoring-utils.ts:210-223 | no contract of its own: the text of the profile's level, which `DescribeConversationProfile` proves the adaptive profiles share |
| ScoringUtils.DescribeConversationProfile | lib/scoring-utils.ts:210-238 | each adaptive profile is described with its static counterpart's text |
| ScoringUtils.KindOf | lib/scoring-utils.ts:258-330 | the six known ids select their own row, and any other id selects the fallback row |
| ScoringUtils.SelectNarrative | lib/scoring-utils.ts:255-344 | no narrative outside paliers 1..4; otherwise the known dimension's own row at that palier, with any id outside the six known ones reading the "strategie" row (ids naming built-in object members are not modelled, see "Left out") |
| ScoringUtils.DescribeDimensionPalier | lib/scoring-utils.ts:332-343 | the empty text outside paliers 1..4 |
| ScoringUtils.SelectActions | lib/scoring-utils.ts:346-434 | no actions without a positive gap; otherwise two quick wins and two strategic items of the id's row, plus the executive-sponsor item exactly when the gap is 2 or more |
| ScoringUtils.ActionTexts | lib/scoring-utils.ts:346-434 | one text per slot, in order, from the row's table |
| ScoringUtils.SuggestActionsForDimension | lib/scoring-utils.ts:346-434 | empty lists without a positive gap; otherwise two quick wins and two or three strategic items |
| ScoringUtils.FallbacksDiffer | lib/scoring-utils.ts:418-426 | an unknown id reads the "strategie" narrative but the generic action row, not the "strategie" actions (the narrative falls back to "strategie" at line 330) |
| AdaptiveEngine.BranchEntries | lib/adaptive-engine.ts:31-34 | one index entry per question of a branch, in order, each tagged with the dimension id |
| AdaptiveEngine.DimensionEntriesStep | lib/adaptive-engine.ts:30-35 | indexing one more branch appends that branch's entries |
| AdaptiveEngine.DimensionEntriesCover | lib/adaptive-engine.ts:30-35 | every question of every branch of a dimension is visited |
| AdaptiveEngine.EntriesCover | lib/adaptive-engine.ts:29-36 | every question of every branch of every dimension is visited, tagged with its dimension |
| AdaptiveEngine.IndexHoldsLastEntry | lib/adaptive-engine.ts:32-33 | for a repeated question id the later `set` wins in both maps |
| AdaptiveEngine.IndexKeys | lib/adaptive-engine.ts:32-33 | an id is a key of the question map exactly when some visited question has it, the two maps have the same keys, and the question stored under an id has that id |
| AdaptiveEngine.QuestionIndex | lib/adaptive-engine.ts:32 | every question is stored under its own id |
| AdaptiveEngine.DimensionIndex | lib/adaptive-engine.ts:33 | the dimension map has exactly the question map's keys |
| AdaptiveEngine.QuestionIndexAppend | lib/adaptive-engine.ts:32-33 | visiting one more question sets its id in both maps and changes no other key |
| AdaptiveEngine.IndexWellIndexed | lib/adaptive-engine.ts:28-37 | the maps built from any questions have the same keys and each question sits under its own id |
| AdaptiveEngine.IndexOfRepeatedEntry | lib/adaptive-engine.ts:32-33 | an id always seen with the same question and dimension maps to them |
| AdaptiveEngine.EveryQuestionIndexed | lib/adaptive-engine.ts:28-37 | every question of the data is indexed in both maps, and a question whose id is unique maps to itself and its dimension |
| AdaptiveEngine.GetNextQuestion | lib/adaptive-engine.ts:39-52 | none without a next question (or with an empty id), the fixed id whatever the answer, and for a yes/no branch the "yes" target exactly when the answer is `true` or "yes" |
| AdaptiveEngine.NextIdIgnoresAnswer | lib/adaptive-engine.ts:40-44 | without a yes/no branch the answer does not matter |
| AdaptiveEngine.YesNoRouting | lib/adaptive-engine.ts:46-49 | `true` and "yes" take the "yes" target; `false`, "no", numbers and lists take the "no" target |
| AdaptiveEngine.Counted | lib/adaptive-engine.ts:61-64 | only answers whose question is indexed to the dimension are counted, so no more than there are answers |
| AdaptiveEngine.DimensionPercentage | lib/adaptive-engine.ts:54-76 | 0 with no counted answer, otherwise the nearest whole percent of the counted total over 3 per counted answer |
| AdaptiveEngine.CountedAppend | lib/adaptive-engine.ts:61-73 | counting distributes over concatenated answer lists |
| AdaptiveEngine.ForeignAnswersIgnored | lib/adaptive-engine.ts:63-64 | answers to unknown questions or other dimensions do not change the score |
| AdaptiveEngine.CountedNone | lib/adaptive-engine.ts:63-64 | answers all foreign to the dimension count nothing |
| AdaptiveEngine.CountedScalarsInRange | lib/adaptive-engine.ts:61-73 | counted answers are among the given ones, so scalar answers in 0..3 stay in 0..3 |
| AdaptiveEngine.TotalOfScalarsBounds | lib/adaptive-engine.ts:66-72 | scalar answers in 0..3 total between 0 and 3 per answer |
| AdaptiveEngine.DimensionPercentageInRange | lib/adaptive-engine.ts:54-76 | with scalar answers in 0..3 the score is in 0..100 |
| AdaptiveEngine.MultiSelectCanExceedHundred | lib/adaptive-engine.ts:66-68 | a multiselect answer counts once but adds all its scores, so [2, 2] scores 133 |
| AdaptiveEngine.TwoBinaryAnswers | lib/adaptive-engine.ts:70-75 | answers 3 and 0 in the dimension score 50 |
| AdaptiveEngine.OneMultiSelectAnswer | lib/adaptive-engine.ts:66-75 | a multiselect answer [1, 2] scores 100 |
| AdaptiveEngine.Engine.constructor | lib/adaptive-engine.ts:24-26 | the two maps are the index of every question of the data, in visiting order |
| AdaptiveEngine.Engine.BuildQuestionMap | lib/adaptive-engine.ts:28-37 | from empty maps, the nested loops leave both maps equal to the index of all visited questions |
| AdaptiveEngine.Engine.IndexDimension | lib/adaptive-engine.ts:29-35 | the loop over one dimension's branches extends both maps by that dimension's entries |
| AdaptiveEngine.Engine.IndexBranch | lib/adaptive-engine.ts:31-34 | the loop over one branch's questions extends both maps by that branch's entries |
| AdaptiveEngine.Engine.GetQuestion | lib/adaptive-engine.ts:78-80 | a question exactly for an indexed id, and it carries that id |
| AdaptiveEngine.Engine.CalculateScore | lib/adaptive-engine.ts:54-76 | the loop's result is the dimension percentage of the answers, leaving the maps unchanged |
| Conversation.InitialState | app/conversation/page.tsx:44-51 | the fresh state sits on question "strat_q1" of dimension "strategie" with no answers, no visited question, no completed dimension, and the given start time |
| Conversation.FirstOptionScore | app/conversation/page.tsx:81 | `options.find`: nothing exactly when no option has the value, otherwise the score of the first option that has it |
| Conversation.OptionScore | app/conversation/page.tsx:77-80 | `opt?.score \|\| 0`: 0 without options or without a matching option, otherwise the first match's score |
| Conversation.ScoreValue | app/conversation/page.tsx:76-82 | a list of option scores exactly for a list answer to a multiselect question, one per selected value; otherwise the matched option's score, falling back to the yes/no scoring when that is 0 |
| Conversation.BinaryAnswerScores | app/conversation/page.tsx:81-82 | without options, `true` scores the "yes" entry and `false` the "no" entry |
| Conversation.ChosenOptionScore | app/conversation/page.tsx:81-82 | choosing an option scores that option, unless its score is 0, which falls through to the yes/no scoring |
| Conversation.NumberAnswerFallsBack | app/conversation/page.tsx:81-82 | a numeric answer matches no option and scores the "no" entry, or 0 without scoring |
| Conversation.UnknownSelectionScoresZero | app/conversation/page.tsx:77-80 | a selected value that matches no option scores 0 |
| Conversation.DimensionIds | app/conversation/page.tsx:90 | the dimension ids in data order |
| Conversation.IdSet | app/conversation/page.tsx:91-92 | the set of the listed ids |
| Conversation.IdSetSize | app/conversation/page.tsx:94 | distinct ids make a set of the same size |
| Conversation.NextIncomplete | app/conversation/page.tsx:106 | `find` of a not-completed id: none exactly when all are completed, otherwise a listed id not completed |
| Conversation.FirstQuestionId | app/conversation/page.tsx:108-110 | a non-empty id only when it is the first question of the first branch of a dimension with that id |
| Conversation.Step | app/conversation/page.tsx:84-137 | the step moves whenever the answered question has a non-empty next id; only an absent or empty next id leads to the end-of-branch handling |
| Conversation.BranchEnd | app/conversation/page.tsx:89-125 | the run finishes exactly when the completed set, with the current dimension added, has as many ids as there are dimensions; a move goes to a listed dimension not yet completed |
| Conversation.StepRecordsAnswer | app/conversation/page.tsx:84-133 | whenever the step records a state, the answer is stored under the question id, no other answer changes, the id is appended to the visited list and the start time is kept |
| Conversation.BranchEndKeepsAnswers | app/conversation/page.tsx:95-117 | the end of a branch records the answers, visits and start time it is given |
| Conversation.StepFollowsNextLink | app/conversation/page.tsx:126-137 | with a next question the state moves to it in the same dimension, with the completed set unchanged, and the shown question is its lookup |
| Conversation.StepCompletesDimension | app/conversation/page.tsx:89-125 | at a branch end the current dimension joins the completed set; the run finishes exactly when the set reaches the number of dimensions, otherwise moves to the first question of the first incomplete dimension, whose id is never empty, or stays put when there is none, its id is empty or it has no first question |
| Conversation.InitialConsistent | app/conversation/page.tsx:44-51 | the fresh state is consistent when "strategie" is a dimension |
| Conversation.StepKeepsConsistent | app/conversation/page.tsx:84-137 | every move keeps the current dimension a known, not yet completed one |
| Conversation.CompletionProgress | app/conversation/page.tsx:91-94 | completing the current dimension adds exactly one id, never more than there are ids, and with distinct ids the run ends exactly when every id is completed, and otherwise an incomplete one is found |
| Conversation.RepeatedIdsNeverFinish | app/conversation/page.tsx:90-94 | with a repeated dimension id the set never reaches the dimension count, so the last branch end leaves the page stuck |
| Conversation.DuplicateShrinksSet | app/conversation/page.tsx:94 | a repeated id makes the set smaller than the list |
| Conversation.ConversationPage.constructor | app/conversation/page.tsx:30-58 | a fresh engine, the initial state and the question "strat_q1" looked up in it |
| Conversation.ConversationPage.HandleAnswer | app/conversation/page.tsx:73-141 | the new state and question are the step's move and the moved state is saved; on finishing the answers and the final state are saved; nothing changes when stuck |
| Conversation.ConversationPage.EndBranch | app/conversation/page.tsx:89-125 | the page follows `BranchEnd`: on a move it takes the new state and question and saves the state, on finishing it saves the answers and the final state, and when stuck nothing changes |
| ConversationResults.BaseScores | app/conversation-results/page.tsx:101-106 | one base score per dimension, in data order, equal to the engine's score of that dimension |
| ConversationResults.BaseDimensionScores | app/conversation-results/page.tsx:99-106 | the loop calling `calculateScore` per dimension yields the base scores |
| ConversationResults.GlobalScore | app/conversation-results/page.tsx:108-110 | NaN (none) exactly for no dimensions, otherwise the rounded mean of the scores |
| ConversationResults.ProfileFor | app/conversation-results/page.tsx:112 | the adaptive profile of the global score, and Leader for NaN, which fails every comparison |
| ConversationResults.GlobalScoreAgrees | app/conversation-results/page.tsx:108-110 | the page's global score is the scoring library's `computeGlobalScore` of the same percentages, except that no dimensions give NaN instead of 0 |
| ConversationResults.SumScoresAgree | app/conversation-results/page.tsx:109 | the page's total equals the library's total of the same percentages |
| ConversationResults.GlobalScoreInRange | app/conversation-results/page.tsx:108-110 | scores in 0..100 give a global score in 0..100 |
| ConversationResults.SumScoresBounds | app/conversation-results/page.tsx:109 | scores in 0..100 total between 0 and 100 per dimension |
| ConversationResults.PercentageInputs | app/conversation-results/page.tsx:115-119 | each base score becomes a percentage input with the same id, name and score |
| ConversationResults.GapFor | app/conversation-results/page.tsx:123-126 | `gapMap.get`: none exactly when no row has the id, otherwise a row with that id |
| ConversationResults.Enrich | app/conversation-results/page.tsx:125-143 | an error exactly when some dimension has no gap row; otherwise one enriched row per dimension, in order, built from its own gap row |
| ConversationResults.EnrichOne | app/conversation-results/page.tsx:130-142 | the row's status is Above, On or Below target exactly as its tier is above, equal to or below its target tier |
| ConversationResults.EnrichNeverFails | app/conversation-results/page.tsx:113-143 | the "missing gap info" error never happens, and with distinct ids each row has its score, tier, target 4, gap, priority and status |
| ConversationResults.OwnGapInfo | app/conversation-results/page.tsx:123-126 | with distinct ids each dimension finds its own gap row |
| ConversationResults.Ids | app/conversation-results/page.tsx:123 | the dimension ids in order |
| ConversationResults.NoGapIffTopTier | app/conversation-results/page.tsx:113 | against target 4 the gap is 0 exactly at tier 4 |
| ConversationResults.Names | app/conversation-results/page.tsx:167-168 | the names of the rows in order |
| ConversationResults.StrengthsAreTopScores | app/conversation-results/page.tsx:160-167 | at most three strengths, all rows without a gap, by descending score, none left out scoring higher, and all of them at tier 4 |
| ConversationResults.StrengthDimensions | app/conversation-results/page.tsx:160-163 | at most three rows, each taken from the input and without a gap |
| ConversationResults.GapDimensions | app/conversation-results/page.tsx:165 | a row is listed exactly when it is an input row with a positive gap |
| ConversationResults.CriticalGapsAreLargest | app/conversation-results/page.tsx:165-168 | at most three critical gaps, all rows with a gap, by descending gap then ascending score, none left out with a larger gap |
| ConversationResults.Prefixed | app/conversation-results/page.tsx:175-176 | each action prefixed with the dimension name and the separator |
| ConversationResults.CollectActions | app/conversation-results/page.tsx:170-177 | the `forEach`/`push` loop yields the quick-win and strategic lines of the gap dimensions in order |
| ConversationResults.ActionLinesCount | app/conversation-results/page.tsx:173-177 | each gap dimension adds two quick wins and two or three strategic lines |
| ConversationResults.ActionLinesFrom | app/conversation-results/page.tsx:173-177 | every line is some gap dimension's name and one of its suggested actions |
| ConversationResults.Finalize | app/conversation-results/page.tsx:187-192 | the default advice alone for no lines, otherwise the same lines without repeats, each at its first occurrence and in that order |
| ConversationResults.DefaultAdviceIffNoGap | app/conversation-results/page.tsx:165-192 | the default advice appears exactly when no dimension has a gap |
| ConversationResults.ElapsedSeconds | app/conversation-results/page.tsx:156 | 0 without a start time, otherwise the elapsed milliseconds rounded to whole seconds |
| ConversationResults.JsRem | app/conversation-results/page.tsx:158 | JavaScript's `%`: the Euclidean remainder for a non-negative dividend, and a remainder between -b and 0 otherwise |
| ConversationResults.FormatTimeReadsBack | app/conversation-results/page.tsx:158 | for a non-negative time the text is minutes, a colon and two digits, and reads back as the number of seconds |
| ConversationResults.FormatTime | app/conversation-results/page.tsx:158 | for a non-negative time, at least four characters with the colon third from the end |
| ConversationResults.SecondsText | app/conversation-results/page.tsx:158 | a seconds count below 60 is padded to two digits that read back as it |
| ConversationResults.ResultsAlwaysProduced | app/conversation-results/page.tsx:99-194 | results are always produced, with one row per dimension, every target at 4, and the profile of the global score |
| ConversationResults.ResultsOf | app/conversation-results/page.tsx:99-194 | no contract of its own: `ResultsAlwaysProduced` and `Assemble` state what the page shows |
| ConversationResults.Assemble | app/conversation-results/page.tsx:160-168 | at most three strengths and three critical gaps, never more critical gaps than gap dimensions, and three whenever there are three |
| ConversationResults.ComputeResults | app/conversation-results/page.tsx:82-197 | the page computes the results of the engine's base scores, and it always succeeds |
| StaticResults.Contribution | app/results/page.tsx:83-88 | a missing answer adds 0, an answer that is not a number adds nothing, and a number adds itself |
| StaticResults.SumPalier | app/results/page.tsx:79-89 | the loop over a palier's criteria yields the palier total of the answers |
| StaticResults.PalierTotal | app/results/page.tsx:79-89 | no contract of its own: `SumPalier` ties it to the loop and `PalierTotalBounds` bounds it |
| StaticResults.PalierTotalBounds | app/results/page.tsx:79-89 | with numeric answers in 0..3 a palier totals between 0 and 3 per criterion |
| StaticResults.UnusableAnswersTotalZero | app/results/page.tsx:83-88 | a palier whose answers are all missing or not numbers totals 0 |
| StaticResults.LastLevelWins | app/results/page.tsx:92-95 | each of `p1`..`p4` holds the total of the last palier with that level, and 0 when there is none |
| StaticResults.PalierScoresOf | app/results/page.tsx:78-96 | no contract of its own: `LastLevelWins` states which palier total each level holds |
| StaticResults.ScorePaliers | app/results/page.tsx:76-96 | the loop over a dimension's paliers yields the level-by-level palier scores |
| StaticResults.PalierScoresBounded | app/results/page.tsx:76-96 | paliers of at most three criteria with answers in 0..3 give palier sums in 0..9 |
| StaticResults.CoreDimensions | app/results/page.tsx:75-105 | one dimension score per criteria dimension, in order |
| StaticResults.CalculateResults | app/results/page.tsx:71-128 | one row per dimension with its score and raw-score alias, the rounded global mean, its profile and level, and the gaps of the core dimensions |
| StaticResults.ResultsTargetFour | app/results/page.tsx:107-111 | every gap targets palier 4 with gap 4 minus the achieved palier, and the profile level is the global score's tier |
| StaticResults.Strongest | app/results/page.tsx:150-152 | none for no dimensions, otherwise the first dimension with the highest percentage |
| StaticResults.Weakest | app/results/page.tsx:153-155 | none for no dimensions, otherwise the first dimension with the lowest percentage |
| StaticResults.StrongestWeakest | app/results/page.tsx:150-155 | the weakest never beats the strongest, and they tie exactly when all percentages are equal |
| AssessmentFlow.AnsweringKeepsComplete | app/assessment/page.tsx:49-58 | answering never makes a complete dimension incomplete, and answering its one missing criterion completes it |
| AssessmentFlow.EmptyDimensionComplete | app/assessment/page.tsx:56-58 | a dimension without criteria is complete before any answer |
| AssessmentFlow.AssessmentPage.IsCurrentDimensionComplete | app/assessment/page.tsx:56-58 | complete only when the current dimension exists and every criterion of every one of its paliers has an answer |
| AssessmentFlow.AssessmentPage.constructor | app/assessment/page.tsx:32-37 | no answers, the first dimension, nothing saved |
| AssessmentFlow.AssessmentPage.HandleAnswer | app/assessment/page.tsx:49-54 | the score is stored under the criterion id and nothing else changes; a complete dimension stays complete |
| AssessmentFlow.AssessmentPage.HandleNext | app/assessment/page.tsx:60-74 | nothing happens unless the dimension is complete; then the index advances, or on the last dimension the answers are saved; answers are never cleared |
| AssessmentFlow.AssessmentPage.HandlePrevious | app/assessment/page.tsx:76-85 | the index goes back one, except from the first dimension; answers and saved answers are unchanged |
| PdfContent.GapOf | components/pdf-content.tsx:29-40 | `gapMap.get(id)?.gap ?? 0`: 0 when no gap row has the id, otherwise the gap of the last row with it, since later rows overwrite earlier ones in the map |
| PdfContent.LastGapFound | components/pdf-content.tsx:29 | the row found is one with the id and no later row has it |
| PdfContent.AboveTargetSelection | components/pdf-content.tsx:33-36 | at most three dimensions, all above the target palier, by descending percentage, none left out with a higher percentage |
| PdfContent.AboveTargetDimensions | components/pdf-content.tsx:33-36 | at most three dimensions, each from the input and above the target palier |
| PdfContent.PrioritySelection | components/pdf-content.tsx:39-45 | exactly the dimensions with a positive gap, each as often as in the input, by descending gap then ascending percentage |
| PdfContent.PriorityDimensions | components/pdf-content.tsx:39-45 | a dimension is listed exactly when it is an input dimension with a positive gap |
| PdfContent.TopGapDimensions | components/pdf-content.tsx:58-66 | at most three dimensions, each from the input with a positive gap |
| PdfContent.Names | components/pdf-content.tsx:49-54 | the names of the dimensions in order |
| PdfContent.Summary | components/pdf-content.tsx:47-55 | "none identified" for no names, otherwise the names joined with ", " |
| PdfContent.Labelled | components/pdf-content.tsx:74-79 | each action prefixed with the dimension name and " : " |
| PdfContent.BuildActionPlan | components/pdf-content.tsx:57-83 | the top three gap dimensions' labelled quick wins and strategic items, repeats removed keeping each first occurrence in order (`Collections.DedupOrder`) |
| PdfContent.CollectPlan | components/pdf-content.tsx:71-80 | the `forEach`/`push` loop yields every top gap dimension's labelled quick wins and strategic items, in order |
| PdfContent.PlanSize | components/pdf-content.tsx:71-80 | each gap dimension contributes two quick wins and two or three strategic items |
| PdfContent.PlanEmptyIffNoGap | components/pdf-content.tsx:58-66 | at most three dimensions feed the plan, and it is empty exactly when no dimension has a positive gap |
| PdfContent.TablePriority | components/pdf-content.tsx:367-368 | the table's priority label is the scoring library's `getGapPriority`: High from gap 2, Medium at 1 |
| PdfContent.TableStatus | components/pdf-content.tsx:370-377 | Above, On or Below target as the achieved palier compares with the profile level: the page writes out inline the comparison of `getTierStatus`, which the model reuses |
| PdfContent.StatusAndPriorityDisagree | components/pdf-content.tsx:367-377 | a palier-2 dimension of a level-1 profile shows "Above target" with "High" priority, because the gap is against palier 4 and the status against the profile level |
| PdfContent.HeatmapGap | components/pdf-content.tsx:464-465 | the heatmap gap is clamped to 0..3 and equals the gap inside that range |
| PdfContent.HeatmapWidth | components/pdf-content.tsx:466 | the bar width is between 0 and 100 %, empty exactly for no gap and full exactly from gap 3 |
| PdfContent.WidthMonotone | components/pdf-content.tsx:465-466 | a larger gap never draws a narrower bar |
| JsNumbers.ClampInt | components/pdf-content.tsx:465 | `Math.max(lo, Math.min(hi, x))`: inside the bounds, equal to `x` when `x` is inside, and the nearer bound otherwise |
| ConversationPdfContent.ProfileBandText | components/conversation-pdf-content.tsx:40-53 | the profile's opening sentence, then the company name verbatim, then the profile's closing text |
| ConversationPdfContent.NextStepOf | components/conversation-pdf-content.tsx:57-72 | below tier 4 the next step is progress towards the next tier; at tier 4 it is to maintain the level |
| ConversationPdfContent.NarrativeIgnoresTarget | components/conversation-pdf-content.tsx:55-75 | the narrative never depends on the target tier, since the progression target only falls back to it at tier 4, where it cannot exceed the palier |
| ConversationPdfContent.DimensionNarrative | components/conversation-pdf-content.tsx:55-75 | no contract of its own: `NarrativeIgnoresTarget` proves the target tier never changes it |
| ConversationPdfContent.HeaderTargetMatchesRowsOnlyForLeader | components/conversation-pdf-content.tsx:82 | the header's target (the profile's tier) equals the rows' target 4 exactly for Leader, and is lower for every other profile (header at line 262, rows at line 430) |
| ConversationPdfContent.PrioritySelection | components/conversation-pdf-content.tsx:89-91 | exactly the rows with a positive gap, each as often as in the input, by descending gap then ascending score |
| ConversationPdfContent.PriorityEmptyIffNoGap | components/conversation-pdf-content.tsx:89-102 | the priority list is empty exactly when no row has a positive gap |
| ConversationPdfContent.AboveTargetSelection | components/conversation-pdf-content.tsx:93-96 | at most three rows above their own target, by descending score, none left out scoring higher; with every target at 4 the list is empty |
| ConversationPdfContent.AboveTargetDimensions | components/conversation-pdf-content.tsx:93-96 | at most three rows, each from the input and above its own target |
| ConversationPdfContent.AboveTargetSummary | components/conversation-pdf-content.tsx:98-99 | "none identified" when no row is above its target, otherwise the selected rows' names joined with ", " |
| ConversationPdfContent.PrioritySummary | components/conversation-pdf-content.tsx:101-102 | "none identified" when no row has a gap, otherwise the priority names joined with ", " |
| ConversationPdfContent.UniqueItems | components/conversation-pdf-content.tsx:104-105 | no items when the list is absent, otherwise the same items without repeats, each at its first occurrence and in that order |
| Collections.DedupOrder | components/conversation-pdf-content.tsx:104-105 | `Array.from(new Set(xs))` keeps the items in the order of their first occurrences |
| ConversationPdfContent.TopPriorityName | components/conversation-pdf-content.tsx:107-108 | the fallback text when no row has a gap, otherwise the name of the first row of the priority order: a largest gap, among those a lowest score, and among those the earliest row |
| ConversationPdfContent.SortHeatmap | components/conversation-pdf-content.tsx:500-501 | `enrichedDimensions.sort` leaves the shared array holding its rows in the stable descending-gap order |
| ConversationPdfContent.HeatmapThenTable | components/conversation-pdf-content.tsx:500-501 | the table rendered after the heatmap reads the same array, so it shows the rows in the heatmap's order (the table reads the array at line 676) |
| ConversationPdfContent.HeatmapOrder | components/conversation-pdf-content.tsx:500-501 | the sorted rows are the same rows, by non-increasing gap, with rows of equal gap in their original order |
| ConversationPdfContent.HeatmapBars | components/conversation-pdf-content.tsx:502-505 | one bar per row in the array's order, carrying the row's id; the gap is clamped to 0..3 and equals the gap inside that range; the width is 0 exactly for no gap and 100 % exactly from gap 3 |
| ConversationPdfContent.HeatmapBarsNarrow | components/conversation-pdf-content.tsx:500-505 | drawn over the heatmap-sorted rows, the bars never widen from top to bottom |
| ConversationPdfContent.TableAgreesWithRows | components/conversation-pdf-content.tsx:676-683 | for rows computed by the results page the table's recomputed priority and status equal the stored ones, and no row is above target |
| PdfUtils.SkipSpaces | lib/pdf-utils.ts:88 | where `trim` starts: every character before the index is white space and the character at it is not |
| PdfUtils.BackSpaces | lib/pdf-utils.ts:88 | where `trim` ends: every character from the index on is white space and the one before it is not |
| PdfUtils.TrimStart | lib/pdf-utils.ts:88 | the leading part of `trim`: no longer than the text and not starting with white space |
| PdfUtils.TrimEnd | lib/pdf-utils.ts:88 | the trailing part of `trim`: no longer than the text and not ending with white space |
| PdfUtils.Trim | lib/pdf-utils.ts:88 | never longer than its input; `TrimShape` says which slice it is |
| PdfUtils.TrimShape | lib/pdf-utils.ts:88 | `trim()` gives the slice from the first to the last non-blank character: only white space around it and none at either end |
| PdfUtils.TrimNoSpace | lib/pdf-utils.ts:88 | a text without white space is left unchanged by both halves of `trim` |
| PdfUtils.TrimStartAllSpace | lib/pdf-utils.ts:88 | a text of white space only trims to nothing |
| PdfUtils.TrimStartAfterSpace | lib/pdf-utils.ts:88 | leading white space does not change the trimmed text |
| PdfUtils.TrimEndBeforeSpace | lib/pdf-utils.ts:88 | trailing white space does not change the trimmed text |
| PdfUtils.TrimStartKeepsTail | lib/pdf-utils.ts:88 | trimming the start never reaches past a non-blank prefix |
| PdfUtils.CollapseSpaces | lib/pdf-utils.ts:88 | `replace(/\s+/g, '_')`: no white space left and never longer than the input |
| PdfUtils.CollapseNoSpace | lib/pdf-utils.ts:88 | a text without white space is unchanged |
| PdfUtils.CollapseKeepsWord | lib/pdf-utils.ts:88 | a prefix without white space is kept as it is |
| PdfUtils.CollapseRun | lib/pdf-utils.ts:88 | a whole run of white space becomes a single underscore |
| PdfUtils.FormatCompanyName | lib/pdf-utils.ts:87-89 | only ASCII letters, digits and underscores remain, and the result is never longer than the name |
| PdfUtils.BlankNameIsEmpty | lib/pdf-utils.ts:87-89 | a blank name formats to the empty text |
| PdfUtils.LeadingPaddingIgnored | lib/pdf-utils.ts:87-89 | leading white space does not change the result |
| PdfUtils.TrailingPaddingIgnored | lib/pdf-utils.ts:87-89 | trailing white space does not change the result |
| PdfUtils.NoSpaceNameKeepsWordChars | lib/pdf-utils.ts:87-89 | a name without white space keeps exactly its letters, digits and underscores, in order |
| PdfUtils.SpacesHoldNoAlphanumerics | lib/pdf-utils.ts:88 | white space holds no letter or digit |
| PdfUtils.CollapseKeepsAlphanumerics | lib/pdf-utils.ts:88 | collapsing white space keeps every letter and digit, in order |
| PdfUtils.TrimStartKeepsAlphanumerics | lib/pdf-utils.ts:88 | trimming the start keeps every letter and digit |
| PdfUtils.TrimEndKeepsAlphanumerics | lib/pdf-utils.ts:88 | trimming the end keeps every letter and digit |
| PdfUtils.KeepsLettersAndDigits | lib/pdf-utils.ts:87-89 | the formatted name has exactly the name's ASCII letters and digits, in order |
| PdfUtils.FormatIdempotent | lib/pdf-utils.ts:87-89 | formatting a formatted name changes nothing |
| ScoringEngine.CriterionScore | backend/services/scoring_engine.py:5-7 | the response clamped to 0..3: unchanged inside the range, 0 below it and 3 above it |
| ScoringEngine.CriterionScoreIdempotent | backend/services/scoring_engine.py:5-7 | clamping a clamped score changes nothing |
| ScoringEngine.PalierScore | backend/services/scoring_engine.py:9-11 | no contract of its own: `PalierScoreBounds` bounds it |
| ScoringEngine.SumBounds | backend/services/scoring_engine.py:9-11 | values between two bounds add up to between count times each bound |
| ScoringEngine.PalierScoreBounds | backend/services/scoring_engine.py:9-11 | criterion scores in 0..3 give a palier score between 0 and 3 per criterion, so 0..9 for three |
| ScoringEngine.DimensionPercentage | backend/services/scoring_engine.py:13-16 | a total of 0 is 0 %, a total of 36 is 100 %, and a total in 0..36 lands in 0..100 % |
| ScoringEngine.DimensionPercentageInRange | backend/services/scoring_engine.py:13-16 | four palier scores in 0..9 give a percentage in 0..100 |
| ScoringEngine.DimensionPercentageMonotone | backend/services/scoring_engine.py:13-16 | a larger total never gives a smaller percentage |
| ScoringEngine.GlobalScore | backend/services/scoring_engine.py:18-20 | an error (the division by zero) exactly for no percentages, otherwise the value whose count-fold is their sum |
| ScoringEngine.SumRealBounds | backend/services/scoring_engine.py:18-20 | percentages between two bounds add up to between count times each bound |
| ScoringEngine.GlobalScoreWithin | backend/services/scoring_engine.py:18-20 | the mean lies between any lower and upper bound of the percentages |
| ScoringEngine.DetermineProfile | backend/services/scoring_engine.py:22-31 | Débutant exactly below 26, Émergent from 26 below 51, Challenger from 51 below 76, Leader from 76 |
| ScoringEngine.DetermineProfileMonotone | backend/services/scoring_engine.py:22-31 | a higher global score never gives a lower profile |
| ScoringEngine.AgreesWithFrontEndOnIntegers | backend/services/scoring_engine.py:22-31 | on whole-number scores the strict thresholds 26/51/76 agree with the front end's inclusive 25/50/75 |
| ScoringEngine.DisagreesBetweenIntegers | backend/services/scoring_engine.py:22-31 | strictly between 25 and 26, 50 and 51, or 75 and 76 the backend's profile is one level below the front end's |
| ScoringEngine.ProfileTarget | backend/services/scoring_engine.py:35-42 | each profile name maps to its level, and any other text to 1 |
| ScoringEngine.IdentifyGaps | backend/services/scoring_engine.py:33-50 | the nested loops append, dimension after dimension and palier after palier, the label of every palier scoring below three times the profile's target |
| ScoringEngine.PalierGapsMembership | backend/services/scoring_engine.py:46-48 | a label is listed exactly when some palier of the dimension scores below the target |
| ScoringEngine.PalierGapsGrowWithTarget | backend/services/scoring_engine.py:47 | a higher target never lists fewer paliers |
| ScoringEngine.EveryPalierFlagged | backend/services/scoring_engine.py:46-48 | when every palier is below the target, every palier is listed |
| ScoringEngine.LeaderFlagsEveryPalier | backend/services/scoring_engine.py:39-47 | for a Leader (target 4, threshold 12) every palier scoring at most 9 is listed, so all of them |
| ScoringEngine.NoPalierGaps | backend/services/scoring_engine.py:46-48 | a dimension whose paliers all meet the target lists nothing |
| ScoringEngine.NoGapsWhenTargetMet | backend/services/scoring_engine.py:45-48 | when every palier meets the target the list is empty |
| ScoringApi.Percentage | backend/api/scoring.py:43-47 | a whole number of tenths, never negative for a non-negative score and at most 100 for a score up to 36 |
| ScoringApi.PercentageRoundsToTenth | backend/api/scoring.py:43-47 | the stored percentage is within a twentieth of the exact `score / 36 * 100` |
| ScoringApi.DimensionTable | backend/api/scoring.py:26-49 | the table of dimension entries keyed by id is empty exactly when the criteria have no dimension |
| ScoringApi.Percentages | backend/api/scoring.py:52 | the percentages of the table's entries, in order |
| ScoringApi.GapSources | backend/api/scoring.py:74-75 | each entry's name and palier scores under its id, in order |
| ScoringApi.Summarize | backend/api/scoring.py:51-84 | an error 500 exactly for an empty table (the division by zero); otherwise a result |
| ScoringApi.ScoresOf | backend/api/scoring.py:22-84 | an error 500 exactly when the criteria have no dimension |
| ScoringApi.ScorePalier | backend/api/scoring.py:33-37 | the loop over a palier's criteria adds up the raw answers, 0 for a missing one |
| ScoringApi.ScorePaliers | backend/api/scoring.py:28-39 | the loop over a dimension's paliers yields the sum of every palier's total and the table of palier totals keyed `palier_<level>`, a repeated level keeping its first position and its last total |
| ScoringApi.ScoreDimension | backend/api/scoring.py:28-48 | one dimension's entry: its name, its total, the total's rounded percentage and its palier table |
| ScoringApi.DimensionTableStep | backend/api/scoring.py:44 | scoring one more dimension stores its entry under its id |
| ScoringApi.CalculateScores | backend/api/scoring.py:22-84 | the loops compute the table, the mean, the profile and the gap list that `Summarize` and `DimensionTable` define |
| ScoringApi.Summarise | backend/api/scoring.py:51-77 | the mean, profile and gap list of a table, with the gaps found by `identify_gaps` from the profile's name |
| ScoringApi.CalculateScoring | backend/api/scoring.py:86-93 | no answers is an error 400 before any computation; otherwise the scores |
| ScoringApi.EndpointMatchesEngine | backend/api/scoring.py:51-77 | the inline computation is the scoring engine's: its mean, its strict-threshold profile and its gap list, and the mean lies between any bounds of the percentages |
| ScoringApi.AnswersNotClamped | backend/api/scoring.py:36-37 | an answer counts as given, without the engine's clamp, and a missing one counts 0 |
| ScoringApi.UnansweredPalierIsZero | backend/api/scoring.py:36-37 | criteria nobody answered add nothing |
| ScoringApi.UnansweredDimensionIsZero | backend/api/scoring.py:32-40 | without answers a dimension totals 0 and every palier scores 0 |
| ScoringApi.UnansweredTableIsZero | backend/api/scoring.py:28-49 | without answers every dimension scores 0 and 0 %, with every palier at 0 |
| ScoringApi.NoAnswersGiveDebutant | backend/api/scoring.py:22-84 | without answers the global score is 0, the profile Débutant and every palier is a gap |
| ScoringApi.ZeroMean | backend/api/scoring.py:52 | percentages all 0 have mean 0 |
| ScoringApi.ZeroPaliersFlagged | backend/api/scoring.py:73-77 | paliers all at 0 are all listed against target 1 |
| ScoringApi.FlagsEveryPalier | backend/api/scoring.py:73-77 | when every palier is below the target, the gap list has one label per palier |
| AnswersApi.Start | backend/api/answers.py:22-35 | a fresh in-progress record with no answers under the id, replacing any earlier one; every other record unchanged |
| AnswersApi.Submit | backend/api/answers.py:37-47 | 404 for an unknown id and then 400 for a score outside 0..3, both leaving the table unchanged; otherwise the answer is set, overwriting an earlier one, the count of answered questions is returned, and other records are unchanged |
| AnswersApi.AssessmentOf | backend/api/answers.py:49-55 | the stored record for a known id, 404 otherwise |
| AnswersApi.Complete | backend/api/answers.py:57-65 | 404 for an unknown id; otherwise the record becomes completed with its completion time, and other records are unchanged |
| AnswersApi.HandlersPreserveWellFormed | backend/api/answers.py:22-65 | every handler keeps each record under its own id, every stored answer in 0..3, and a completion time exactly on completed records |
| AnswersApi.SubmitAcceptsValidScores | backend/api/answers.py:43-44 | for a known id an answer is accepted exactly when the rules engine's `validate_score` holds |
| AnswersApi.SubmitCount | backend/api/answers.py:46-47 | an accepted answer raises the count by one for a new question and leaves it unchanged for one already answered |
| AnswersApi.SubmitIdempotent | backend/api/answers.py:46 | submitting the same answer twice has the effect and reply of submitting it once |
| AnswersApi.SubmitAfterComplete | backend/api/answers.py:37-65 | a completed assessment still accepts answers and stays completed |
| AnswersApi.RestartResets | backend/api/answers.py:26-34 | starting again under a used id empties the answers, reopens the record and keeps the number of records |
| AnswersApi.IdsOnlyGrowByStart | backend/api/answers.py:37-65 | submit and complete never add or remove an id |
| AnswersApi.AssessmentStore.constructor | backend/api/answers.py:20 | the table starts empty |
| AnswersApi.AssessmentStore.StartAssessment | backend/api/answers.py:22-35 | the table becomes the start of the old one and the id is returned |
| AnswersApi.AssessmentStore.SubmitAnswer | backend/api/answers.py:37-47 | the table and reply are those `Submit` gives for the old table |
| AnswersApi.AssessmentStore.GetAssessment | backend/api/answers.py:49-55 | the reply is the lookup of the table, which is not changed |
| AnswersApi.AssessmentStore.CompleteAssessment | backend/api/answers.py:57-65 | the table and reply are those `Complete` gives for the old table |
| RulesEngine.QuestionRulesConsistent | backend/services/rules_engine.py:5-10 | a dimension holds four paliers' worth of questions and the questionnaire six dimensions' worth |
| RulesEngine.ValidateScore | backend/services/rules_engine.py:35-37 | valid exactly for the scores 0 to 3 |
| RulesEngine.ValidScoresAreFixedByClamp | backend/services/rules_engine.py:35-37 | a score is valid exactly when the scoring engine's clamp leaves it unchanged |
| RulesEngine.RuleOf | backend/services/rules_engine.py:12-33 | every profile's band lies within 0..100 |
| RulesEngine.RulesContiguous | backend/services/rules_engine.py:12-33 | the bands start at 0, end at 100, and each starts right after the previous one ends |
| RulesEngine.RulesPartition | backend/services/rules_engine.py:12-33 | every integer from 0 to 100 lies in exactly one band |
| RulesEngine.RulesCoverNothingElse | backend/services/rules_engine.py:12-33 | no integer outside 0..100 lies in a band |
| RulesEngine.RulesAgreeWithDetermineProfile | backend/services/rules_engine.py:12-33 | an integer from 0 to 100 lies in a profile's band exactly when `determine_profile` returns that profile |
| RulesEngine.Recommendation | backend/services/rules_engine.py:39-47 | a non-empty text exactly for the four profile names, and the empty text otherwise |
| RulesEngine.EveryProfileRecommended | backend/services/rules_engine.py:39-47 | every profile `determine_profile` returns has a recommendation |

## Left out

- Floating point:
  - NaN inputs to the classifiers are not modelled; percentages and scores are exact
    integers or reals.
  - Python's `round(x, 1)` on binary floats: the dimension percentage is modelled as the
    exact nearest tenth, which no tie can disturb.
  - JavaScript's rounding at binary-float halves.
- ScoringApi.Summarize: the endpoint's `global_score` is returned as the exact mean, not
  rounded to one decimal (backend/api/scoring.py:81). The profile is computed from the
  unrounded mean, as in the code.
- I/O is not modelled: `localStorage`, the router, timers, `window.scrollTo`, JSON parsing,
  the JSON data files and `load_criteria`. Question and criteria data are parameters.
- Clocks are parameters:
  - `Date.now` and the page's start time;
  - Python's `datetime.now`, both as the session id and as the timestamps.
- React rendering is not modelled: state hooks, loading flags, the `answering` and
  `isTransitioning` guards, colours, icons, progress bars and the JSX layout, apart from
  the values the reports select and the order of the in-place sort.
- The conversation page's resume branch is not modelled: a state restored from storage is
  unparsed JSON. The model starts from the initial state.
  Conversation.ConversationPage.constructor requires "strategie" to be among the dimension
  ids, which the bundled questions satisfy.
- The `default:` arms of switches over typed unions are unreachable with typed inputs and
  are not modelled. This covers `getProfileTier`, `getProfileLevel`, `describeProfile`,
  `describeConversationProfile` and `getProfileBandText`'s fallback sentence.
- ConversationPdfContent.ProfileBandText: the wording of the band, narrative,
  implication, description and action texts is kept as opaque constants or only
  partially stated. The contracts state which text is chosen and where the company name
  goes, not the prose.
- ScoringUtils.DescribeProfile: no contract says the four level texts differ; comparing
  the long literal texts costs the solver more than the proofs here may use.
- ConversationPdfContent.DimensionNarrative: for the same reason its contract does not
  state that the narrative starts with the dimension's description and ends with the
  next-step sentence; only its independence of the target tier is proved.
- ScoringUtils.SelectNarrative: `describeDimensionPalier` looks the id up in a plain object
  literal and falls back to "strategie" only when the lookup is falsy. An id that names a
  built-in object member (`constructor`, `toString`, `__proto__`) finds that member
  instead, so the source returns `undefined` where the model returns the strategie text.
  The questionnaire data holds no such id.
- ConversationResults.ElapsedSeconds: negative elapsed times (a start time in the future)
  are modelled with JavaScript's truncating `%`, but only non-negative times are proved to
  read back.
- ConversationPdfContent.SortHeatmap: the JavaScript engine's sorting algorithm is not
  modelled. The method writes the stable descending-gap order back into the same array,
  which is what `Array.prototype.sort` with that comparator leaves there.
- `Object.entries` ordering of integer-like keys is not modelled. Answer records keep
  insertion order.
- The scoring endpoint's `ZeroDivisionError` on a criteria file without dimensions is
  modelled as an error status 500.
- `get_benchmark_scores` (backend/api/scoring.py:95-115) is a constant table with no logic,
  and it is not modelled.
- The rule descriptions in `PROFILE_RULES` are display text and are not modelled.
- The PDF generation, the pydantic models and the FastAPI wiring are not part of this
  model.
