# Student mental-health self-assessment: scoring, navigation and results

This project models the core of a browser-based self-assessment quiz for
students, and proves properties of that model. The quiz asks 18 fixed
questions. Each question is single-select or multi-select. The answers
are kept in a dictionary keyed by question id, and a cursor says which
question is on screen. The option buttons record answers:

- a single-select click replaces the stored option;
- a multi-select click toggles the option in a list.

"Next" refuses an unanswered question, advances otherwise, and on the
last question computes a raw score and saves it. The results page turns
the saved raw score into a percentage of 198, and the percentage picks:

- one of three messages;
- the angle of the dial's pointer.

The dial behind the pointer is painted in three colour segments.

The Dafny modules follow the program's parts:

- `Wrappers`: an `Option` type.
- `Catalog` (catalog.dfy): the 18 questions with their ids, kinds and options.
- `Answers` (answers.dfy): the answer store. It covers JavaScript truthiness
  ("answered"), the multi-select toggle, and the well-formedness of every
  store the click handlers can build.
- `Scoring` (scoring.dfy): the points table, the raw score as a function,
  and `computeScore` as a method. The method has the source's accumulator
  loops, each proved equal to the function.
- `Session` (session.dfy): a class whose fields are the answers, the cursor
  and the saved-result slot. Its methods are "next", "previous" and the two
  click handlers.
- `Result` (result.dfy): the percentage, the messages, the pointer angle and
  the dial segments.
- `Walkthrough` (walkthrough.dfy): one run of the page driven through the
  session's methods. It answers every question in order, then goes back and
  deselects the coping strategy and the stress source.
- `EndToEnd` (endtoend.dfy): what the results page shows for the scores the
  quiz can save, and the store the walkthrough builds when it aims at the top
  score.

The code departs from the intended design in several places. The model
follows the code in each of them:

- The largest raw score the engine can produce is 196: the 13 table maxima
  sum to 162, plus 18, plus 16. The results page divides by 198, so it never
  shows more than 99 %.
- A store with no answers scores 34, not 0.
- The message thresholds (34 and 67) are not the colour boundaries of the
  dial (40 and 70).
- More points stand for healthier answers. The page, however, reads a high
  percentage as high stress, so the healthiest answers would get the
  high-stress message. The top score is reachable only in a store that can
  no longer be submitted: "next" refuses an empty stress-sources list, so a
  submitted quiz scores at most 193, which is 97 %.

## Model

| member | source | states |
|---|---|---|
| Catalog.IdsDistinct | assessment.js:10-134 | the catalog holds 18 questions with pairwise distinct ids |
| Catalog.IndexOfQuestion | assessment.js:10-134 | looking up the id of question i finds question i |
| Catalog.IndexOf | assessment.js:10-134 | the lookup returns a question with that id, and -1 exactly when no question has it |
| Catalog.OptionsNonEmpty | assessment.js:10-134 | no option of any question is the empty string, so a recorded single-select answer is always truthy |
| Catalog.StressSourcesQuestion | assessment.js:35-47 | stress-sources is question 4: multi-select, with 6 distinct options |
| Catalog.CopingQuestion | assessment.js:90-104 | coping is question 12: multi-select, with 7 options |
| Answers.Answered | assessment.js:171 | the refusal test of goNext, negated: an answer is present and is a non-empty string or a non-empty list; its meaning for multi-select questions is stated by Answers.WellFormedSelections |
| Answers.Toggle | assessment.js:234-238 | the multi-select click as a function: filter the option out when present, append it otherwise; its properties are the Toggle lemmas below |
| Answers.Without | assessment.js:235 | the filter keeps exactly the elements different from the clicked option and never grows the list |
| Answers.ToggleFlipsMembership | assessment.js:234-239 | a multi-select click flips the clicked option's membership and no other option's |
| Answers.WithoutKeepsNoDuplicates | assessment.js:235 | filtering a duplicate-free list leaves it duplicate-free |
| Answers.WithoutAbsent | assessment.js:235 | filtering out an option that is not there leaves the list unchanged |
| Answers.ToggleKeepsNoDuplicates | assessment.js:234-239 | the selection list never acquires a duplicate |
| Answers.ToggleTwice | assessment.js:234-239 | two clicks on one option restore the same set of selections, and the very same list when it started unselected |
| Answers.DistinctCount | assessment.js:234-239 | a duplicate-free selection has as many distinct elements as its length |
| Answers.SelectionBounded | assessment.js:234-239 | a duplicate-free selection of a question's options is no longer than the option list |
| Answers.RecordKeepsWellFormed | assessment.js:235-250 | recording a conforming answer keeps every key a catalog id holding a conforming value |
| Answers.WellFormedSelections | assessment.js:232-239 | in a well-formed store the selections of a multi-select question are a duplicate-free list of its options, and the question is answered exactly when that list is not empty |
| Scoring.Points | assessment.js:279 | `table[option] \|\| 0`: an unlisted option earns 0, and a non-zero result is listed beside the option |
| Scoring.PointsLookup | assessment.js:279 | with distinct option strings, every listed option earns exactly its listed points |
| Scoring.PointsAtMost | assessment.js:279 | no option earns more than its table's maximum |
| Scoring.SingleTerm | assessment.js:277-280 | a missing, empty or list-valued answer contributes 0 |
| Scoring.SingleSumAtMost | assessment.js:276-281 | the scored single-select questions add at most the sum of their table maxima |
| Scoring.StressTerm | assessment.js:283-284 | the stress term lies in [0, 18]: 18 exactly with no source, 0 exactly from 6 sources up |
| Scoring.StressCount | assessment.js:283-284 | `(answers['stress-sources'] \|\| []).length`; its use is stated by Scoring.StressTerm and Scoring.StressTermExact |
| Scoring.CopingWeight | assessment.js:289-295 | the signed weight of one strategy (-4, -6, -4, -2, +4, +3, +3, else 0); its sum is stated by Scoring.AddCopingWeights |
| Scoring.CopingSum | assessment.js:288-296 | the coping sub-score of a list; its order-independence is Scoring.CopingSumOrderFree |
| Scoring.CopingTerm | assessment.js:297 | the coping term lies in [0, 16]: 16 exactly when the sub-score is non-negative, 0 exactly when it is -16 or less |
| Scoring.TopOption | assessment.js:148-162 | the chosen option is in the table and, with distinct keys, earns the table's maximum |
| Scoring.BestAnswersFor | assessment.js:148-162 | the best-answer store holds exactly the table's question ids |
| Scoring.BestAnswersForWellFormed | assessment.js:148-162 | when every table lists options of its catalog question, the best-answer store is well formed |
| Scoring.ScoreWith | assessment.js:273-300 | the engine over a given table: single-select sum plus stress term plus coping term; bounded by Scoring.ScoreWithAtMost |
| Scoring.Score | assessment.js:273-300 | the engine over the source table; its range is Scoring.ScoreBounds and Scoring.ComputeScore computes it |
| Scoring.ComputeScore | assessment.js:273-300 | the accumulator loops compute exactly the engine's score for the given table |
| Scoring.AddSingleChoices | assessment.js:276-281 | the loop over the table's keys computes the single-select sum |
| Scoring.AddCopingWeights | assessment.js:287-296 | the loop over the coping items computes their weight sum |
| Scoring.ScoreWithAtMost | assessment.js:273-300 | any score is at most the table maxima plus 18 plus 16 |
| Scoring.SingleSumSameTerms | assessment.js:276-281 | stores agreeing on every term have the same single-select sum |
| Scoring.SingleSumOneTerm | assessment.js:276-281 | stores differing in one term differ in the sum by that term's change |
| Scoring.SingleSumUpdate | assessment.js:276-281 | with distinct ids, re-answering one question changes the sum by that question's change only |
| Scoring.SingleSumIgnores | assessment.js:276-281 | an id outside the table does not affect the sum |
| Scoring.EmptySingleSum | assessment.js:276-281 | an empty store adds nothing from the single-select questions |
| Scoring.BestAnswersReachMaxSum | assessment.js:148-162 | the top option on every question reaches the sum of the table maxima |
| Scoring.ScoreWithEmpty | assessment.js:273-300 | an empty store scores 34 under any table |
| Scoring.ScoreWithBest | assessment.js:273-300 | the best answers score the table maxima plus 34 |
| Scoring.ScoreWithChange | assessment.js:276-281 | changing one answer changes the score by exactly the difference of the two options' points |
| Scoring.ScoreWithIgnores | assessment.js:273-300 | answers to ids outside the table and outside the two multi-select questions never matter |
| Scoring.ScoringMapIdsDistinct | assessment.js:148-162 | the table has 13 distinct ids, neither multi-select question among them |
| Scoring.ScoringMapTablesWellFormed | assessment.js:148-162 | every option table is non-empty, with distinct and non-empty option strings |
| Scoring.ScoringMapWellFormed | assessment.js:148-162 | the table meets every assumption the generic lemmas make |
| Scoring.ScoringMapMatchesCatalog | assessment.js:148-162 | every table id is a single-select catalog question, and every option string it lists is one of that question's options |
| Scoring.BestAnswersWellFormed | assessment.js:148-162 | the 196-point store consists of catalog options (it is well formed) |
| Scoring.BestAnswersForChoices | assessment.js:148-162 | the best-answer store records one option string, never a list, under each id |
| Scoring.BestAnswersForHolds | assessment.js:148-162 | every question of a table has a best answer |
| Scoring.BestAnswersAreChoices | assessment.js:148-162 | the 196-point store holds one option string under each id |
| Scoring.BestAnswersCoverTable | assessment.js:148-162 | the 196-point store answers every scored question |
| Scoring.EmptyListsScore | assessment.js:283-297 | with empty lists under stress-sources and coping, the score is the single-select sum plus the two baselines 18 and 16 |
| Scoring.EmptyListsKeepWellFormed | assessment.js:232-239 | empty lists under the two multi-select questions, as a select-and-deselect leaves them, keep a store well formed |
| Scoring.MaxRawValue | assessment.js:148-162 | the table maxima sum to 162, and the largest score is 196 |
| Scoring.ScoreBounds | assessment.js:273-300 | every score lies in [0, 196] |
| Scoring.EmptyStoreScore | assessment.js:283-297 | a store with no answers scores 34 |
| Scoring.BestAnswersScore | assessment.js:148-162 | the top options, with no stress source and no coping strategy, score exactly 196 |
| Scoring.ChangeOneAnswer | assessment.js:276-281 | changing one scored answer changes the score by exactly the table difference |
| Scoring.UnscoredIdIgnored | assessment.js:276-281 | answers to unscored ids (age, gender, study, any unknown id) never affect the score |
| Scoring.StressTermExact | assessment.js:283-284 | in a well-formed store at most 6 sources are selected, and the stress term is exactly 18 - 3k |
| Scoring.AllNegativeCoping | assessment.js:288-297 | the four negative coping strategies, selected in any click order, give a coping term of 0 |
| Scoring.CopingSumAppend | assessment.js:288-296 | the coping sub-score of two lists one after the other is the sum of their sub-scores |
| Scoring.CopingSumOrderFree | assessment.js:288-296 | the coping sub-score depends only on the multiset of selected strategies, not on their click order |
| Scoring.NonNegativeCopingSum | assessment.js:288-296 | items of non-negative weight give a non-negative sub-score |
| Scoring.PositiveOnlyCoping | assessment.js:288-297 | only positive coping strategies give 16, the same as none |
| Session.NextStep | assessment.js:169-188 | goNext refuses exactly when the current answer is missing or empty, and submits exactly on an answered last question |
| Session.QuizSession.constructor | assessment.js:136-137 | a session starts with no answers on question 0, and the storage slot keeps whatever an earlier session left in it |
| Session.QuizSession.GoNext | assessment.js:169-188 | a refusal changes nothing; otherwise the cursor advances, or the score of the answers is saved with them once all 18 are answered; the cursor stays in range |
| Session.QuizSession.Submit | assessment.js:181-186 | the saved slot holds the score of the answers together with the answers |
| Session.QuizSession.GoPrev | assessment.js:191-196 | the cursor moves back only from above 0; nothing else changes |
| Session.QuizSession.SelectOption | assessment.js:249-257 | a single-select click replaces the stored answer, and schedules "next" unless on the last question |
| Session.QuizSession.ToggleOption | assessment.js:232-243 | a multi-select click toggles the option, and schedules "next" when not last and something is selected |
| Session.AnsweredBeforeExtends | assessment.js:171-178 | passing an answered question extends the answered prefix |
| Session.WellFormedCopingIsList | assessment.js:286-288 | a store the click handlers build holds a list, never a string, under coping, so the coping `forEach` never throws |
| Session.KeepsAnsweredBefore | assessment.js:235-250 | recording an answer at the cursor leaves the earlier answers alone |
| Session.ToggleConforms | assessment.js:232-239 | a toggle gives a duplicate-free list of the question's options |
| Session.SubmittedScoreBound | assessment.js:169-188 | a submitted store selected at least one stress source, so its score is at most 193 |
| Result.ScoreRaw | result.js:10-11 | a missing record or score gives 0; otherwise the saved score |
| Result.ScorePct | result.js:13 | `min(100, Math.round(raw / 198 * 100))` on exact reals; its exact value, range and monotonicity are the ScorePct lemmas |
| Result.Round | result.js:13 | the rounded value is the nearest integer, halves rounding up |
| Result.ScorePctExact | result.js:12-13 | the percentage equals min(100, (200 raw + 198) div 396) |
| Result.ScorePctRange | result.js:13 | a non-negative raw score gives a percentage in [0, 100] |
| Result.ScorePctMonotone | result.js:13 | the percentage never decreases as the raw score grows |
| Result.ScorePctFull | result.js:12-13 | the percentage is 100 exactly from raw 198 upwards |
| Result.MessageForScore | result.js:122-130 | messageForScore as a choice of one of three messages; its bands are Result.MessageBands |
| Result.MessageBands | result.js:122-130 | pct >= 67 gives high stress, 34-66 moderate, and <= 33 doing well |
| Result.MessageMonotone | result.js:122-130 | a higher percentage never gives a less severe message |
| Result.MessageForRaw | result.js:122-130 | on raw scores: high stress from 132, moderate from 67 to 131, doing well up to 66 |
| Result.PointerAngle | result.js:116 | `-90 + pct / 100 * 180` on exact reals; its range and monotonicity are the PointerAngle lemmas |
| Result.PointerAngleRange | result.js:116 | the pointer angle lies in [-90, 90] for a percentage in [0, 100] |
| Result.PointerAngleIncreasing | result.js:116 | the pointer angle strictly increases with the percentage |
| Result.PointerAngleMarks | result.js:116 | the angle is -90 at 0 %, 0 at 50 % and 90 at 100 % |
| Result.SegmentsTileDial | result.js:77-81 | the segments start at 0, end at 100, are non-empty, and each starts where the previous ends |
| Result.TilesOrdered | result.js:77-81 | in a tiling, each segment ends no later than any later one starts |
| Result.SegmentIndex | result.js:77-81 | in a tiling, a point is found on some segment |
| Result.TilesCover | result.js:77-81 | a tiling covers every point between its ends |
| Result.TilesMeetAtEnds | result.js:77-81 | two segments of a tiling share only the earlier one's end point, and only when they are neighbours |
| Result.DialSegments | result.js:77-81 | every percentage in [0, 100] has a colour, and colours overlap only at 40 and 70 |
| Result.BandsDisagreeWithColours | result.js:77-81 | 34-39 % reads moderate on green only, and 67-69 % reads high stress on yellow only |
| Result.ShowResult | result.js:10-133 | the badge percentage, message and pointer angle the page derives from the saved score |
| Result.ShowResultBounds | result.js:10-133 | for a non-negative score, the badge lies in [0, 100] and the angle in [-90, 90] |
| Result.NoSavedScore | result.js:10-13 | an empty slot shows 0 %, "doing well" and the pointer at -90 |
| Walkthrough.ChoicesAreSingle | assessment.js:249-250 | a well-formed store of option strings holds them only under single-select questions, each one of its question's options |
| Walkthrough.PickConforms | assessment.js:232-250 | the answer the run records conforms to its question |
| Walkthrough.PickShape | assessment.js:232-250 | a single-select question gets a non-empty option string, a multi-select one a list of its first option |
| Walkthrough.BuiltFresh | assessment.js:136 | questions the run has not reached hold no answer |
| Walkthrough.BuiltAt | assessment.js:235-250 | every question the run passed holds the answer recorded for it |
| Walkthrough.BuiltUnfold | assessment.js:250 | one more answered question adds exactly its answer |
| Walkthrough.BuiltWellFormed | assessment.js:232-250 | the store after any number of answered questions is well formed |
| Walkthrough.BuiltAgrees | assessment.js:235-250 | after all 18 questions the store holds every wanted answer |
| Walkthrough.BuiltAnswered | assessment.js:171 | every question the run passed counts as answered for "next" |
| Walkthrough.FinalHoldsAll | assessment.js:232-250 | the final store holds an answer for each of the 18 questions |
| Walkthrough.NoWantedLists | assessment.js:39-46 | wanted single options never sit under stress-sources or coping |
| Walkthrough.FinalAgrees | assessment.js:232-250 | the final store keeps every wanted answer |
| Walkthrough.FinalWellFormed | assessment.js:232-239 | the final store is well formed |
| Walkthrough.BuiltSameTerm | assessment.js:276-281 | a scored question with a wanted answer adds the same points in the run's store |
| Walkthrough.BuiltSingleSum | assessment.js:276-281 | the run's single-select sum equals that of the wanted answers |
| Walkthrough.FinalScore | assessment.js:273-300 | the final store scores the wanted answers' single-select sum plus 34 |
| Walkthrough.SelectFirst | assessment.js:249-250 | a single-select click records the option and changes nothing else |
| Walkthrough.ToggleFirst | assessment.js:232-238 | the first click on an unanswered multi-select question selects that option alone |
| Walkthrough.AnswerAt | assessment.js:232-250 | one click moves the store from the first i answers to the first i + 1 and answers question i |
| Walkthrough.Advance | assessment.js:177-179 | "next" on an answered question before the last moves the cursor on by one and changes nothing else |
| Walkthrough.AnswerAndAdvance | assessment.js:169-179 | answering question i and, before the last question, pressing "next" |
| Walkthrough.BackTo | assessment.js:191-196 | repeated "previous" reaches any earlier question and changes nothing else |
| Walkthrough.Deselect | assessment.js:234-235 | clicking the only selected option of a multi-select question leaves an empty list |
| Walkthrough.ClearAt | assessment.js:234-235 | going back to a multi-select question and deselecting its one option empties it and changes nothing else |
| Walkthrough.ClearLists | assessment.js:232-243 | from the last question, emptying coping and then stress-sources gives the final store, on the stress-sources question |
| Walkthrough.BuildWith | assessment.js:169-196 | from a fresh page the run ends holding exactly the final store, on the stress-sources question, without submitting |
| EndToEnd.SavedScore | result.js:10-11 | the page reads a score exactly when the quiz saved a record |
| EndToEnd.ShowStore | result.js:10-133 | what the page shows after the quiz saved the score of a store; stated by EndToEnd.ShowsScore |
| EndToEnd.ShowsScore | result.js:10-130 | the page shows the percentage of the saved score, its message and its angle |
| EndToEnd.TopScoreReadsAsHighStress | result.js:12-13 | the top score 196 is shown as 99 % with the high-stress message |
| EndToEnd.BestAnswersReadAsHighStress | result.js:123-124 | the healthiest answers would be shown as 99 % with the high-stress message if saved; a submitted quiz reaches at most 97 % |
| EndToEnd.BestAnswersWanted | assessment.js:148-162 | the best answers are single options of single-select questions and cover every scored question |
| EndToEnd.HealthiestBuildableAnswers | assessment.js:148-162 | the store the walkthrough builds answers all 18 questions, holds every best answer, and is well formed |
| EndToEnd.HealthiestBuildableScore | assessment.js:273-300 | that store scores 196, the top score |
| EndToEnd.BuildHealthiest | assessment.js:169-196 | from a fresh page, "next", "previous" and the click handlers build exactly that store, ending on the stress-sources question without submitting |
| EndToEnd.HealthiestBuildableReadsAsHighStress | result.js:123-124 | that store would be shown as 99 % with the high-stress message if saved |
| EndToEnd.EmptyAnswersReadAsDoingWell | result.js:13 | no answers at all score 34, which would be shown as 17 % with "doing well" if saved; the quiz saves only after all 18 answers |
| EndToEnd.NothingSavedReadsAsDoingWell | result.js:10-11 | an empty slot is shown as 0 % with "doing well" |
| EndToEnd.NeverFull | result.js:12-13 | whatever the answers, the page shows at most 99 % and the pointer stays short of 90 degrees |
| EndToEnd.SubmittedReadsAtMost97 | result.js:13 | a submitted session is shown as at most 97 % |
| EndToEnd.HealthierNeverLessSevere | result.js:122-130 | answers worth more points never get a less severe message |
| EndToEnd.LessAcademicStressNeverReadsBetter | assessment.js:149 | answering "Never" instead of "Always" to academic stress adds 20 points and never makes the message less severe |

## Left out

- Question prompt texts and the three message texts: display only. The messages are the three constructors of `Result.Message`.
- DOM rendering: option buttons, CSS classes, progress text, button visibility, `console.log`.
- Background animations on both pages: random and decorative.
- Canvas drawing of the dial: trigonometry, gradients and tick marks. Only the segment table is modelled.
- `setTimeout` delays, including the auto-advance after a click: only the delay is not modelled. The click handlers return whether they would schedule "next", and each call of `GoNext`, however calls are queued, re-checks the gate at the current question.
- Browser storage and navigation: `localStorage`, JSON encoding, `Date.now()` and page redirects. The storage slot is the `saved` field of the session. The results page takes the saved score as an `Option<int>`, where `None` stands for an empty slot or a missing score field. The timestamp, the home button that clears the slot, and corrupt JSON are not modelled.
- Scoring.Points: a lookup of a name inherited by every JavaScript object, such as "constructor", yields a function value in the source. Such strings are never options, so the click handlers cannot store them; the model treats them as unlisted (0 points).
- Scoring.StressCount: a string stored under stress-sources counts its length in characters. JavaScript counts UTF-16 code units; the click handlers only ever store a list there.
- Scoring.ComputeScore: requires that coping does not hold a non-empty string. The source's `forEach` would throw on one, and the click handlers never store one.
- Result.ScorePct: computed on exact reals, so floating-point error in `raw / 198 * 100` is not modelled. Over non-negative integers the exact value never falls within floating-point error of a half, so the rounding agrees.
- The menu, modal and static charts of the landing page are not part of this model.
