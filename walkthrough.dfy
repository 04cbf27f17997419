/** One run of the quiz page driven through the session's own methods: answer
    every question in order (a given answer where one is wanted, the first
    option elsewhere), then go back and deselect the one coping strategy and
    the one stress source. Run with the best answers, it shows which store the
    click handlers can really build when they aim at the top score. */
module Walkthrough {
  import opened Wrappers
  import opened Catalog
  import opened Answers
  import opened Scoring
  import opened Session

  /** Wanted answers the single-select click handler can record: each is one
      option of a single-select catalog question. */
  predicate SingleChoices(wanted: Store) {
    forall i :: 0 <= i < |Questions| && Questions[i].id in wanted ==>
      && Questions[i].kind == Single
      && wanted[Questions[i].id].Choice?
      && wanted[Questions[i].id].option in Questions[i].options
  }

  /** A well-formed store of single options only has single choices. */
  lemma ChoicesAreSingle(wanted: Store)
    requires WellFormed(wanted) && forall id :: id in wanted ==> wanted[id].Choice?
    ensures SingleChoices(wanted)
  {
    forall i | 0 <= i < |Questions| && Questions[i].id in wanted
      ensures Questions[i].kind == Single && wanted[Questions[i].id].option in Questions[i].options
    {
      IndexOfQuestion(i);
    }
  }

  /** The answer the run records for question i: the wanted one if there is
      one, otherwise the first option (as a one-element list for a
      multi-select question). */
  function Pick(wanted: Store, i: nat): Answer
    requires i < |Questions|
  {
    var q := Questions[i];
    QuestionsHaveOptions();
    if q.id in wanted then wanted[q.id]
    else if q.kind == Multi then Selection([q.options[0]])
    else Choice(q.options[0])
  }

  /** The store after the first n questions were answered in order. */
  function Built(wanted: Store, n: nat): Store
    requires n <= |Questions|
  {
    if n == 0 then map[] else Built(wanted, n - 1)[Questions[n - 1].id := Pick(wanted, n - 1)]
  }

  /** The store the run ends with. */
  function Final(wanted: Store): Store {
    Built(wanted, |Questions|)[Coping := Selection([])][StressSources := Selection([])]
  }

  /** The recorded answer conforms to its question. */
  lemma PickConforms(wanted: Store, i: nat)
    requires SingleChoices(wanted) && i < |Questions|
    ensures Conforms(Questions[i], Pick(wanted, i))
  {
    QuestionsHaveOptions();
  }

  /** Single-select questions get a non-empty string, multi-select ones a
      list of their first option. */
  lemma PickShape(wanted: Store, i: nat)
    requires SingleChoices(wanted) && i < |Questions|
    ensures Questions[i].kind == Single ==>
              Pick(wanted, i).Choice? && Pick(wanted, i).option in Questions[i].options && Pick(wanted, i).option != ""
    ensures Questions[i].kind == Multi ==> Pick(wanted, i) == Selection([Questions[i].options[0]])
  {
    QuestionsHaveOptions();
    OptionsNonEmpty();
  }

  /** Questions not yet reached hold no answer. */
  lemma {:induction false} BuiltFresh(wanted: Store, n: nat)
    requires n <= |Questions|
    ensures forall j :: n <= j < |Questions| ==> Questions[j].id !in Built(wanted, n)
  {
    if n > 0 {
      BuiltFresh(wanted, n - 1);
      IdsDistinct();
    }
  }

  /** Every question already passed holds the answer recorded for it. */
  lemma {:induction false} BuiltAt(wanted: Store, n: nat, i: nat)
    requires i < n <= |Questions|
    ensures Questions[i].id in Built(wanted, n) && Built(wanted, n)[Questions[i].id] == Pick(wanted, i)
  {
    if i < n - 1 {
      BuiltAt(wanted, n - 1, i);
      IdsDistinct();
    }
  }

  lemma BuiltUnfold(wanted: Store, n: nat)
    requires 0 < n <= |Questions|
    ensures Built(wanted, n) == Built(wanted, n - 1)[Questions[n - 1].id := Pick(wanted, n - 1)]
  {
  }

  lemma {:induction false} BuiltWellFormed(wanted: Store, n: nat)
    requires SingleChoices(wanted) && n <= |Questions|
    ensures WellFormed(Built(wanted, n))
  {
    if n > 0 {
      BuiltWellFormed(wanted, n - 1);
      PickConforms(wanted, n - 1);
      BuiltUnfold(wanted, n);
      RecordKeepsWellFormed(Built(wanted, n - 1), n - 1, Pick(wanted, n - 1));
    }
  }

  /** After every question was answered, the store agrees with the wanted
      answers. */
  lemma BuiltAgrees(wanted: Store)
    requires WellFormed(wanted) && SingleChoices(wanted)
    ensures forall id :: id in wanted ==>
              id in Built(wanted, |Questions|) && Built(wanted, |Questions|)[id] == wanted[id]
  {
    forall id | id in wanted
      ensures id in Built(wanted, |Questions|) && Built(wanted, |Questions|)[id] == wanted[id]
    {
      BuiltAt(wanted, |Questions|, IndexOf(id));
    }
  }

  /** The final store holds an answer for every catalog question. */
  lemma FinalHoldsAll(wanted: Store)
    ensures forall i :: 0 <= i < |Questions| ==> Questions[i].id in Final(wanted)
  {
    forall i | 0 <= i < |Questions|
      ensures Questions[i].id in Built(wanted, |Questions|)
    {
      BuiltAt(wanted, |Questions|, i);
    }
  }

  /** The final store keeps the wanted answers: they never sit under the two
      multi-select questions. */
  lemma FinalAgrees(wanted: Store)
    requires WellFormed(wanted) && SingleChoices(wanted)
    ensures forall id :: id in wanted ==> id in Final(wanted) && Final(wanted)[id] == wanted[id]
  {
    BuiltAgrees(wanted);
    NoWantedLists(wanted);
  }

  /** Wanted single choices never sit under the two multi-select questions. */
  lemma NoWantedLists(wanted: Store)
    requires SingleChoices(wanted)
    ensures StressSources !in wanted && Coping !in wanted
  {
    StressSourcesQuestion();
    CopingQuestion();
  }

  lemma FinalWellFormed(wanted: Store)
    requires SingleChoices(wanted)
    ensures WellFormed(Final(wanted))
  {
    BuiltWellFormed(wanted, |Questions|);
    EmptyListsKeepWellFormed(Built(wanted, |Questions|));
  }

  /** A scored question with a wanted answer adds the same points to the
      finished store as to the wanted answers. */
  lemma BuiltSameTerm(wanted: Store, e: (string, Table))
    requires WellFormed(wanted) && SingleChoices(wanted) && e.0 in wanted
    ensures SingleTerm(Built(wanted, |Questions|), e) == SingleTerm(wanted, e)
  {
    BuiltAgrees(wanted);
  }

  /** Over entries that all have wanted answers, the single-select sum of
      the finished store is that of the wanted answers. */
  lemma {:induction false} BuiltSingleSum(wanted: Store, entries: seq<(string, Table)>)
    requires WellFormed(wanted) && SingleChoices(wanted)
    requires forall k :: 0 <= k < |entries| ==> entries[k].0 in wanted
    ensures SingleSum(Built(wanted, |Questions|), entries) == SingleSum(wanted, entries)
  {
    if entries != [] {
      BuiltSameTerm(wanted, entries[0]);
      BuiltSingleSum(wanted, entries[1..]);
    }
  }

  /** The final store scores the wanted answers' single-select sum plus the
      stress and coping baselines. */
  lemma FinalScore(wanted: Store)
    requires WellFormed(wanted) && SingleChoices(wanted)
    requires forall k :: 0 <= k < |ScoringMap| ==> ScoringMap[k].0 in wanted
    ensures CopingIsList(Final(wanted))
    ensures Score(Final(wanted)) == SingleSum(wanted, ScoringMap) + 34
  {
    EmptyListsScore(Built(wanted, |Questions|));
    BuiltSingleSum(wanted, ScoringMap);
  }

  /** The click on question i: from the store of the first i answers to the
      store of the first i + 1, the cursor staying on question i. */
  method AnswerAt(s: QuizSession, wanted: Store, i: nat)
    requires SingleChoices(wanted) && i < |Questions|
    requires s.Valid() && s.currentIndex == i && s.answers == Built(wanted, i)
    modifies s
    ensures s.Valid() && s.currentIndex == i && s.saved == old(s.saved)
    ensures s.answers == Built(wanted, i + 1)
    ensures Answered(s.answers, Questions[i].id)
  {
    BuiltAnswered(wanted, i + 1, i);
    PickShape(wanted, i);
    BuiltUnfold(wanted, i + 1);
    if Questions[i].kind == Single {
      SelectFirst(s, i, Pick(wanted, i).option);
    } else {
      BuiltFresh(wanted, i);
      QuestionsHaveOptions();
      ToggleFirst(s, i);
    }
  }

  /** A click on one option of a single-select question records it. */
  method SelectFirst(s: QuizSession, i: nat, o: string)
    requires i < |Questions| && Questions[i].kind == Single && o in Questions[i].options
    requires s.Valid() && s.currentIndex == i
    modifies s
    ensures s.Valid() && s.currentIndex == i && s.saved == old(s.saved)
    ensures s.answers == old(s.answers)[Questions[i].id := Choice(o)]
  {
    var auto := s.SelectOption(o);
  }

  /** The first click on a multi-select question not yet answered selects
      its first option alone. */
  method ToggleFirst(s: QuizSession, i: nat)
    requires i < |Questions| && Questions[i].kind == Multi && |Questions[i].options| > 0
    requires s.Valid() && s.currentIndex == i && Questions[i].id !in s.answers
    modifies s
    ensures s.Valid() && s.currentIndex == i && s.saved == old(s.saved)
    ensures s.answers == old(s.answers)[Questions[i].id := Selection([Questions[i].options[0]])]
  {
    var id, o := Questions[i].id, Questions[i].options[0];
    assert Selections(s.answers, id) == [];
    assert Toggle([], o) == [o];
    var auto := s.ToggleOption(o);
  }

  /** Pressing "previous" until the cursor reaches question k. */
  method BackTo(s: QuizSession, k: nat)
    requires s.Valid() && k <= s.currentIndex
    modifies s
    ensures s.Valid() && s.currentIndex == k
    ensures s.answers == old(s.answers) && s.saved == old(s.saved)
  {
    while s.currentIndex > k
      invariant s.Valid() && k <= s.currentIndex
      invariant s.answers == old(s.answers) && s.saved == old(s.saved)
      decreases s.currentIndex
    {
      s.GoPrev();
    }
  }

  /** A click on the only selected option of a multi-select question leaves
      an empty list. */
  method Deselect(s: QuizSession, i: nat, o: string)
    requires i < |Questions| && Questions[i].kind == Multi && o in Questions[i].options
    requires s.Valid() && s.currentIndex == i
    requires Questions[i].id in s.answers && s.answers[Questions[i].id] == Selection([o])
    modifies s
    ensures s.Valid() && s.currentIndex == i && s.saved == old(s.saved)
    ensures s.answers == old(s.answers)[Questions[i].id := Selection([])]
  {
    var id := Questions[i].id;
    assert Selections(s.answers, id) == [o];
    assert Toggle([o], o) == [];
    var auto := s.ToggleOption(o);
  }

  /** Going back to multi-select question i and deselecting its one option. */
  method ClearAt(s: QuizSession, i: nat, o: string)
    requires i < |Questions| && Questions[i].kind == Multi && o in Questions[i].options
    requires s.Valid() && i <= s.currentIndex
    requires Questions[i].id in s.answers && s.answers[Questions[i].id] == Selection([o])
    modifies s
    ensures s.Valid() && s.currentIndex == i && s.saved == old(s.saved)
    ensures s.answers == old(s.answers)[Questions[i].id := Selection([])]
  {
    BackTo(s, i);
    Deselect(s, i, o);
  }

  /** Going back from the last question, deselecting the one option of the
      coping and the stress-sources lists. */
  method ClearLists(s: QuizSession, wanted: Store)
    requires SingleChoices(wanted)
    requires s.Valid() && s.currentIndex == |Questions| - 1 && s.answers == Built(wanted, |Questions|)
    modifies s
    ensures s.Valid() && s.currentIndex == 4 && s.saved == old(s.saved)
    ensures s.answers == Final(wanted)
  {
    CopingQuestion();
    StressSourcesQuestion();
    QuestionsHaveOptions();
    BuiltAt(wanted, |Questions|, 12);
    BuiltAt(wanted, |Questions|, 4);
    PickShape(wanted, 12);
    PickShape(wanted, 4);
    ClearAt(s, 12, Questions[12].options[0]);
    ClearAt(s, 4, Questions[4].options[0]);
  }

  /** Every question already passed counts as answered. */
  lemma BuiltAnswered(wanted: Store, n: nat, i: nat)
    requires SingleChoices(wanted) && i < n <= |Questions|
    ensures Answered(Built(wanted, n), Questions[i].id)
  {
    BuiltAt(wanted, n, i);
    PickShape(wanted, i);
  }

  /** Pressing "next" on an answered question before the last one. */
  method Advance(s: QuizSession, i: nat)
    requires i < |Questions| - 1
    requires s.Valid() && s.currentIndex == i && Answered(s.answers, Questions[i].id)
    modifies s
    ensures s.Valid() && s.currentIndex == i + 1
    ensures s.answers == old(s.answers) && s.saved == old(s.saved)
  {
    var step := s.GoNext();
  }

  /** Answering question i and, before the last question, pressing "next". */
  method AnswerAndAdvance(s: QuizSession, wanted: Store, i: nat)
    requires SingleChoices(wanted) && i < |Questions|
    requires s.Valid() && s.currentIndex == i && s.answers == Built(wanted, i)
    modifies s
    ensures s.Valid() && s.saved == old(s.saved)
    ensures s.answers == Built(wanted, i + 1)
    ensures s.currentIndex == if i < |Questions| - 1 then i + 1 else i
  {
    AnswerAt(s, wanted, i);
    if i < |Questions| - 1 {
      Advance(s, i);
    }
  }

  /** The run itself: from a fresh page it ends on the stress-sources question
      holding exactly Final(wanted), never having submitted. */
  method BuildWith(slot: Option<Record>, wanted: Store) returns (s: QuizSession)
    requires SingleChoices(wanted)
    ensures fresh(s) && s.Valid()
    ensures s.answers == Final(wanted)
    ensures s.currentIndex == 4 && s.saved == slot
  {
    s := new QuizSession(slot);
    var i := 0;
    while i < |Questions|
      invariant 0 <= i <= |Questions|
      invariant s.Valid() && s.saved == slot
      invariant s.answers == Built(wanted, i)
      invariant s.currentIndex == if i < |Questions| then i else |Questions| - 1
    {
      AnswerAndAdvance(s, wanted, i);
      i := i + 1;
    }
    ClearLists(s, wanted);
  }
}
