/** The quiz and the results page together: the raw score the quiz saves is
    the score the page reads, so facts about the engine's range become facts
    about what the page can show. More points stand for healthier answers on
    the quiz side, while a higher percentage reads as more stress on the page. */
module EndToEnd {
  import opened Wrappers
  import opened Catalog
  import opened Answers
  import opened Scoring
  import opened Session
  import opened Result
  import opened Walkthrough

  /** The score field the page reads from the slot the quiz writes. */
  function SavedScore(saved: Option<Record>): (score: Option<int>)
    ensures saved == None <==> score == None
  {
    match saved
    case None => None
    case Some(r) => Some(r.score)
  }

  /** What the page shows after the quiz saved the score of a store. */
  function ShowStore(a: Store): View
    requires CopingIsList(a)
  {
    ShowResult(SavedScore(Some(Record(Score(a), a))))
  }

  /** The page shows the percentage of the store's score, its message and
      its pointer angle. */
  lemma ShowsScore(a: Store, raw: int, pct: int)
    requires CopingIsList(a) && Score(a) == raw && ScorePct(raw) == pct
    ensures ShowStore(a) == View(pct, MessageForScore(pct), PointerAngle(pct))
  {
  }

  /** The top score, 196 points, is shown as 99 % with the high-stress message. */
  lemma TopScoreReadsAsHighStress(a: Store)
    requires CopingIsList(a) && Score(a) == 196
    ensures ShowStore(a) == View(99, HighStress, PointerAngle(99))
  {
    ScorePctExact(196);
    ShowsScore(a, 196, 99);
  }

  /** The healthiest answers reach the top score, so they would be shown as
      99 % with the high-stress message if saved. A submitted quiz reaches at
      most 97 % (SubmittedReadsAtMost97). */
  lemma BestAnswersReadAsHighStress()
    ensures CopingIsList(BestAnswers)
    ensures ShowStore(BestAnswers) == View(99, HighStress, PointerAngle(99))
  {
    BestAnswersScore();
    TopScoreReadsAsHighStress(BestAnswers);
  }

  /** The store the walkthrough ends with when it aims at the top score. */
  const HealthiestBuildable: Store := Final(BestAnswers)

  /** The best answers as the walkthrough's wanted answers. */
  lemma BestAnswersWanted()
    ensures SingleChoices(BestAnswers) && WellFormed(BestAnswers)
    ensures forall k :: 0 <= k < |ScoringMap| ==> ScoringMap[k].0 in BestAnswers
  {
    BestAnswersWellFormed();
    BestAnswersAreChoices();
    ChoicesAreSingle(BestAnswers);
    BestAnswersCoverTable();
  }

  /** The store the walkthrough reaches when it aims at the top score answers
      every question, holds the best answers and is well formed. */
  lemma HealthiestBuildableAnswers()
    ensures forall i :: 0 <= i < |Questions| ==> Questions[i].id in HealthiestBuildable
    ensures forall id :: id in BestAnswers ==> id in HealthiestBuildable && HealthiestBuildable[id] == BestAnswers[id]
    ensures WellFormed(HealthiestBuildable)
  {
    BestAnswersWanted();
    FinalHoldsAll(BestAnswers);
    FinalAgrees(BestAnswers);
    FinalWellFormed(BestAnswers);
  }

  /** That store scores the top score, 196. */
  lemma HealthiestBuildableScore()
    ensures CopingIsList(HealthiestBuildable) && Score(HealthiestBuildable) == 196
  {
    BestAnswersWanted();
    FinalScore(BestAnswers);
    NoWantedLists(BestAnswers);
    BestAnswersScore();
  }

  /** The walkthrough aimed at the top score: the click handlers do build
      HealthiestBuildable, on a fresh page and without submitting. */
  method BuildHealthiest(slot: Option<Record>) returns (s: QuizSession)
    ensures fresh(s) && s.Valid()
    ensures s.answers == HealthiestBuildable
    ensures s.currentIndex == 4 && s.saved == slot
  {
    BestAnswersWanted();
    s := BuildWith(slot, BestAnswers);
  }

  /** The same top score from the store that Walkthrough.BuildHealthiest
      builds through the click handlers: every question answered, with the
      two lists emptied again afterwards. */
  lemma HealthiestBuildableReadsAsHighStress()
    ensures CopingIsList(HealthiestBuildable)
    ensures ShowStore(HealthiestBuildable) == View(99, HighStress, PointerAngle(99))
  {
    HealthiestBuildableScore();
    TopScoreReadsAsHighStress(HealthiestBuildable);
  }

  /** No answers at all score 34 points, which would be shown as 17 % and
      "doing well" if saved; a quiz is only saved once every question is
      answered. */
  lemma EmptyAnswersReadAsDoingWell()
    ensures ShowStore(map[]) == View(17, DoingWell, PointerAngle(17))
  {
    EmptyStoreScore();
    ScorePctExact(34);
    ShowsScore(map[], 34, 17);
  }

  /** An empty slot is shown as 0 % and "doing well". */
  lemma NothingSavedReadsAsDoingWell()
    ensures ShowResult(SavedScore(None)) == View(0, DoingWell, -90.0)
  {
    NoSavedScore();
  }

  /** Whatever the answers, the page never shows more than 99 %, so the pointer
      never reaches the end of the dial. */
  lemma NeverFull(a: Store)
    requires CopingIsList(a)
    ensures 0 <= ShowStore(a).pct <= 99
    ensures ShowStore(a).angle < 90.0
  {
    ScoreBounds(a);
    ScorePctMonotone(Score(a), 196);
    ScorePctExact(196);
    ScorePctRange(Score(a));
    PointerAngleIncreasing(ShowStore(a).pct, 100);
  }

  /** A session that reached submission answered every question, so the page
      shows at most 97 %. */
  lemma SubmittedReadsAtMost97(a: Store)
    requires WellFormed(a) && AnsweredBefore(a, |Questions|)
    ensures CopingIsList(a) && ShowStore(a).pct <= 97
  {
    SubmittedScoreBound(a);
    ScorePctMonotone(Score(a), 193);
    ScorePctExact(193);
  }

  /** Polarity: answers worth more points (healthier, by the table) never get
      a less severe message. */
  lemma HealthierNeverLessSevere(a: Store, b: Store)
    requires CopingIsList(a) && CopingIsList(b)
    requires Score(a) <= Score(b)
    ensures Severity(ShowStore(a).message) <= Severity(ShowStore(b).message)
  {
    ScorePctMonotone(Score(a), Score(b));
    MessageMonotone(ShowStore(a).pct, ShowStore(b).pct);
  }

  /** Changing "Always" to "Never" on the academic-stress question adds 20
      points; the message can only become more severe. */
  lemma LessAcademicStressNeverReadsBetter(a: Store)
    requires CopingIsList(a)
    requires "academic-stress" in a && a["academic-stress"] == Choice("Always")
    ensures CopingIsList(a["academic-stress" := Choice("Never")])
    ensures Score(a["academic-stress" := Choice("Never")]) == Score(a) + 20
    ensures Severity(ShowStore(a).message) <= Severity(ShowStore(a["academic-stress" := Choice("Never")]).message)
  {
    ChangeOneAnswer(a, 0, "Always", "Never");
    HealthierNeverLessSevere(a, a["academic-stress" := Choice("Never")]);
  }
}
