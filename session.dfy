/** The quiz session: the answers dictionary and the question cursor that the
    navigation buttons and the option click handlers update in place, and the
    saved-result slot written once when the last question is submitted. */
module Session {
  import opened Wrappers
  import opened Catalog
  import opened Answers
  import opened Scoring

  /** The record handed to the results page: the raw score and a copy of the
      answers. (The timestamp stored beside them is not modelled.) */
  datatype Record = Record(score: int, answers: Store)

  /** What one press of "next" did. */
  datatype Step = Refused | Advanced | Submitted

  /** Every question before the cursor holds a truthy, non-empty answer. */
  predicate AnsweredBefore(a: Store, n: nat)
    requires n <= |Questions|
  {
    forall i :: 0 <= i < n ==> Answered(a, Questions[i].id)
  }

  /** The outcome of goNext at cursor i: refused without an answer, a step
      forward before the last question, the submission on it. */
  function NextStep(a: Store, i: nat): (step: Step)
    requires i < |Questions|
    ensures step == Refused <==> !Answered(a, Questions[i].id)
    ensures step == Submitted <==> Answered(a, Questions[i].id) && i == |Questions| - 1
  {
    if !Answered(a, Questions[i].id) then Refused
    else if i < |Questions| - 1 then Advanced
    else Submitted
  }

  class QuizSession {
    var answers: Store
    var currentIndex: nat
    /** The saved-result slot of the browser's storage. */
    var saved: Option<Record>

    ghost predicate Valid()
      reads this
    {
      && currentIndex < |Questions|
      && WellFormed(answers)
      && CopingIsList(answers)
      && AnsweredBefore(answers, currentIndex)
    }

    /** A fresh quiz page: no answers, the first question, and whatever the
        storage slot still holds from an earlier session (only the results
        page's home button empties it). */
    constructor (slot: Option<Record>)
      ensures Valid()
      ensures answers == map[] && currentIndex == 0 && saved == slot
    {
      answers := map[];
      currentIndex := 0;
      saved := slot;
    }

    /** goNext: refuse while the current question has no answer; otherwise move
        to the next question, or on the last one compute the score and save it
        together with the answers. */
    method GoNext() returns (step: Step)
      requires Valid()
      modifies this
      ensures Valid()
      ensures step == NextStep(old(answers), old(currentIndex))
      ensures answers == old(answers)
      ensures currentIndex == if step == Advanced then old(currentIndex) + 1 else old(currentIndex)
      ensures saved == if step == Submitted then Some(Record(Score(answers), answers)) else old(saved)
      ensures step == Submitted ==> AnsweredBefore(answers, |Questions|)
    {
      var question := Questions[currentIndex];
      if !Answered(answers, question.id) {
        return Refused;
      }
      if currentIndex < |Questions| - 1 {
        AnsweredBeforeExtends(answers, currentIndex);
        currentIndex := currentIndex + 1;
        step := Advanced;
      } else {
        AnsweredBeforeExtends(answers, currentIndex);
        Submit();
        step := Submitted;
      }
    }

    /** The last branch of goNext: compute the score and save it together with
        a copy of the answers. */
    method Submit()
      requires Valid()
      modifies this`saved
      ensures Valid()
      ensures saved == Some(Record(Score(answers), answers))
    {
      var score := ComputeScore(answers, ScoringMap);
      saved := Some(Record(score, answers));
    }

    /** goPrev: step back unless on the first question. */
    method GoPrev()
      requires Valid()
      modifies this
      ensures Valid()
      ensures currentIndex == if old(currentIndex) > 0 then old(currentIndex) - 1 else old(currentIndex)
      ensures answers == old(answers) && saved == old(saved)
    {
      if currentIndex > 0 {
        currentIndex := currentIndex - 1;
      }
    }

    /** The click handler of a single-select option button: the clicked option
        replaces the stored answer; an automatic "next" is scheduled unless this
        is the last question. */
    method SelectOption(option: string) returns (autoAdvance: bool)
      requires Valid()
      requires Questions[currentIndex].kind == Single && option in Questions[currentIndex].options
      modifies this`answers
      ensures Valid()
      ensures answers == old(answers)[Questions[currentIndex].id := Choice(option)]
      ensures Answered(answers, Questions[currentIndex].id)
      ensures autoAdvance == (currentIndex < |Questions| - 1)
    {
      var id := Questions[currentIndex].id;
      OptionsNonEmpty();
      assert option != "";
      RecordKeepsWellFormed(answers, currentIndex, Choice(option));
      KeepsAnsweredBefore(answers, currentIndex, Choice(option));
      answers := answers[id := Choice(option)];
      WellFormedCopingIsList(answers);
      autoAdvance := currentIndex < |Questions| - 1;
    }

    /** The click handler of a multi-select option button: the clicked option is
        removed when selected and appended otherwise; an automatic "next" is
        scheduled when this is not the last question and something is selected. */
    method ToggleOption(option: string) returns (autoAdvance: bool)
      requires Valid()
      requires Questions[currentIndex].kind == Multi && option in Questions[currentIndex].options
      modifies this`answers
      ensures Valid()
      ensures answers == old(answers)[Questions[currentIndex].id :=
                Selection(Toggle(Selections(old(answers), Questions[currentIndex].id), option))]
      ensures option in Selections(answers, Questions[currentIndex].id) <==>
                option !in Selections(old(answers), Questions[currentIndex].id)
      ensures autoAdvance == (currentIndex < |Questions| - 1 && |Selections(answers, Questions[currentIndex].id)| > 0)
    {
      var id := Questions[currentIndex].id;
      var current := Selections(answers, id);
      var next: seq<string>;
      if option in current {
        next := Without(current, option);
      } else {
        next := current + [option];
      }
      assert next == Toggle(current, option);
      ToggleConforms(answers, currentIndex, option);
      RecordKeepsWellFormed(answers, currentIndex, Selection(next));
      KeepsAnsweredBefore(answers, currentIndex, Selection(next));
      answers := answers[id := Selection(next)];
      WellFormedCopingIsList(answers);
      ToggleFlipsMembership(current, option);
      autoAdvance := currentIndex < |Questions| - 1 && |next| > 0;
    }
  }

  lemma AnsweredBeforeExtends(a: Store, n: nat)
    requires n < |Questions| && AnsweredBefore(a, n) && Answered(a, Questions[n].id)
    ensures AnsweredBefore(a, n + 1)
  {
  }

  /** A well-formed store holds a list, never a string, under the coping question. */
  lemma WellFormedCopingIsList(a: Store)
    requires WellFormed(a)
    ensures Coping in a ==> a[Coping].Selection?
    ensures CopingIsList(a)
  {
    CopingQuestion();
  }

  /** Changing the answer at the cursor leaves the answers before it alone. */
  lemma KeepsAnsweredBefore(a: Store, n: nat, v: Answer)
    requires n < |Questions| && AnsweredBefore(a, n)
    ensures AnsweredBefore(a[Questions[n].id := v], n)
  {
    IdsDistinct();
  }

  /** Toggling one of a multi-select question's options gives a conforming answer. */
  lemma ToggleConforms(a: Store, n: nat, option: string)
    requires WellFormed(a) && n < |Questions|
    requires Questions[n].kind == Multi && option in Questions[n].options
    ensures Conforms(Questions[n], Selection(Toggle(Selections(a, Questions[n].id), option)))
  {
    var q := Questions[n];
    var current := Selections(a, q.id);
    WellFormedSelections(a, n);
    ToggleKeepsNoDuplicates(current, option);
    ToggleFlipsMembership(current, option);
  }

  /** A submitted session answered every question, so at least one stress source
      is selected and the score cannot exceed 162 + 15 + 16 = 193. */
  lemma SubmittedScoreBound(a: Store)
    requires WellFormed(a) && AnsweredBefore(a, |Questions|)
    ensures CopingIsList(a) && Score(a) <= 193
  {
    WellFormedCopingIsList(a);
    StressSourcesQuestion();
    assert Answered(a, Questions[4].id);
    SingleSumAtMost(a, ScoringMap);
    MaxRawValue();
  }
}
