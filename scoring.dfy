/** The scoring engine: a deterministic integer score computed from an answer
    store. More points stand for healthier answers. */
module Scoring {
  import opened Catalog
  import opened Answers

  type Table = seq<(string, nat)>

  /** Points per option for the 13 scored single-select questions, in the
      order the engine visits them. */
  const ScoringMap: seq<(string, Table)> := [
    ("academic-stress", [("Never", 20), ("Rarely", 15), ("Sometimes", 10), ("Often", 5), ("Always", 0)]),
    ("emotional-state", [("Mostly positive", 18), ("Generally neutral", 12), ("Occasionally low", 6), ("Frequently low", 0)]),
    ("anxiety", [("No", 16), ("Sometimes", 8), ("Yes", 0)]),
    ("sleep-pattern", [("No change – sleeping normally", 14), ("Sleeping less than usual", 4), ("Sleeping more than usual", 8), ("Irregular sleep cycle", 0)]),
    ("eating-habits", [("No change", 12), ("Eating less", 4), ("Eating more", 6), ("Skipping meals", 0)]),
    ("concentration", [("Never", 14), ("Sometimes", 6), ("Often", 0)]),
    ("mental-exhaustion", [("No", 14), ("Sometimes", 6), ("Yes", 0)]),
    ("support", [("Friends", 8), ("Family", 9), ("Teachers", 10), ("Counsellor or mentor", 10), ("No one", 0)]),
    ("sharing", [("Yes", 12), ("Sometimes", 6), ("No", 0)]),
    ("support-services", [("Yes", 8), ("No", 0)]),
    ("consider-using", [("Yes", 10), ("Maybe", 6), ("No", 0)]),
    ("preferred-support", [("One-to-one counselling", 4), ("Peer support groups", 2), ("Online or anonymous support", 2), ("Workshops and awareness sessions", 0)]),
    ("education", [("Strongly agree", 10), ("Agree", 8), ("Neutral", 6), ("Disagree", 2), ("Strongly disagree", 0)])
  ]

  function Max(x: int, y: int): int { if x < y then y else x }
  function Min(x: int, y: int): int { if x < y then x else y }

  /** The largest number of points a table awards. */
  function MaxPoints(t: Table): nat {
    if t == [] then 0 else Max(t[0].1, MaxPoints(t[1..]))
  }

  /** `table[option] || 0`: the points of the option, or 0 for an option the
      table does not list. */
  function Points(t: Table, option: string): (p: nat)
    ensures (forall k :: 0 <= k < |t| ==> t[k].0 != option) ==> p == 0
    ensures p != 0 ==> exists k :: 0 <= k < |t| && t[k] == (option, p)
  {
    if t == [] then 0
    else if t[0].0 == option then t[0].1
    else Points(t[1..], option)
  }

  /** What one scored question adds: its points when the store holds a
      non-empty string for it, 0 otherwise. */
  function SingleTerm(a: Store, e: (string, Table)): (p: nat)
    ensures !Answered(a, e.0) || a[e.0].Selection? ==> p == 0
  {
    if e.0 in a && a[e.0].Choice? && a[e.0].option != "" then Points(e.1, a[e.0].option) else 0
  }

  /** The sum of the table maxima of the given entries. */
  function MaxSum(entries: seq<(string, Table)>): nat {
    if entries == [] then 0 else MaxPoints(entries[0].1) + MaxSum(entries[1..])
  }

  /** The contribution of the scored single-select questions. */
  function SingleSum(a: Store, entries: seq<(string, Table)>): nat {
    if entries == [] then 0 else SingleTerm(a, entries[0]) + SingleSum(a, entries[1..])
  }

  predicate DistinctKeys(t: Table) {
    forall i, j :: 0 <= i < j < |t| ==> t[i].0 != t[j].0
  }

  /** A scoring map the engine can rely on: distinct question ids, none of
      them one of the two multi-select questions, and every table non-empty
      with distinct, non-empty option strings. */
  predicate WellFormedMap(entries: seq<(string, Table)>) {
    && (forall i, j :: 0 <= i < j < |entries| ==> entries[i].0 != entries[j].0)
    && (forall k :: 0 <= k < |entries| ==> entries[k].0 != StressSources && entries[k].0 != Coping)
    && (forall k :: 0 <= k < |entries| ==> entries[k].1 != [] && DistinctKeys(entries[k].1))
    && (forall k, i :: 0 <= k < |entries| && 0 <= i < |entries[k].1| ==> entries[k].1[i].0 != "")
  }

  /** The number of stress sources selected: the `length` of
      `answers['stress-sources'] || []`. */
  function StressCount(a: Store): nat {
    if StressSources in a then
      match a[StressSources]
      case Choice(s) => |s|
      case Selection(l) => |l|
    else 0
  }

  /** `max(0, 18 - 3k)` for k stress sources. */
  function StressTerm(a: Store): (r: nat)
    ensures r <= 18
    ensures r == 18 <==> StressCount(a) == 0
    ensures r == 0 <==> StressCount(a) >= 6
  {
    Max(0, 18 - 3 * StressCount(a))
  }

  /** The signed weight of one coping strategy; unlisted strings weigh 0. */
  function CopingWeight(item: string): int {
    if item == "Social media" then -4
    else if item == "Avoiding the problem" then -6
    else if item == "Sleeping" then -4
    else if item == "Listening to music" then -2
    else if item == "Physical activity or yoga" then 4
    else if item == "Meditation or relaxation" then 3
    else if item == "Talking to someone" then 3
    else 0
  }

  function CopingSum(items: seq<string>): int {
    if items == [] then 0 else CopingWeight(items[0]) + CopingSum(items[1..])
  }

  /** `answers['coping'] || []` is a list: the engine iterates it with
      `forEach`, which a non-empty string does not have. The list it iterates
      is then `Selections(a, Coping)`. */
  predicate CopingIsList(a: Store) {
    Coping in a && a[Coping].Choice? ==> a[Coping].option == ""
  }

  /** The coping sub-score offset by 16 and clamped to [0, 16]. */
  function CopingTerm(a: Store): (r: nat)
    requires CopingIsList(a)
    ensures r <= 16
    ensures r == 16 <==> CopingSum(Selections(a, Coping)) >= 0
    ensures r == 0 <==> CopingSum(Selections(a, Coping)) <= -16
  {
    Max(0, Min(CopingSum(Selections(a, Coping)) + 16, 16))
  }

  /** The engine over a given scoring table: the scored single-select terms,
      the stress-sources term and the coping term. */
  function ScoreWith(a: Store, entries: seq<(string, Table)>): nat
    requires CopingIsList(a)
  {
    SingleSum(a, entries) + StressTerm(a) + CopingTerm(a)
  }

  /** The raw score of an answer store. */
  function Score(a: Store): nat
    requires CopingIsList(a)
  {
    ScoreWith(a, ScoringMap)
  }

  /** The largest score the table and the two formulas allow. */
  const MaxRaw: nat := MaxSum(ScoringMap) + 18 + 16

  /** The top option of a table: the first one awarding its maximum. */
  function TopOption(t: Table): (o: string)
    requires t != []
    ensures exists k :: 0 <= k < |t| && t[k].0 == o
    ensures DistinctKeys(t) ==> Points(t, o) == MaxPoints(t)
  {
    if |t| == 1 || t[0].1 >= MaxPoints(t[1..]) then t[0].0
    else
      var o := TopOption(t[1..]);
      assert DistinctKeys(t) ==> DistinctKeys(t[1..]) && o != t[0].0;
      o
  }

  /** The store answering each question of the entries with its top option. */
  function BestAnswersFor(entries: seq<(string, Table)>): (a: Store)
    requires forall k :: 0 <= k < |entries| ==> entries[k].1 != []
    ensures forall id :: id in a <==> exists k :: 0 <= k < |entries| && entries[k].0 == id
  {
    if entries == [] then map[]
    else BestAnswersFor(entries[1..])[entries[0].0 := Choice(TopOption(entries[0].1))]
  }

  /** Every entry of the table is a single-select question of the catalog,
      and every option it lists is one of that question's options. */
  predicate MatchesCatalog(entries: seq<(string, Table)>) {
    forall k :: 0 <= k < |entries| ==>
      && 0 <= IndexOf(entries[k].0)
      && Questions[IndexOf(entries[k].0)].kind == Single
      && forall i :: 0 <= i < |entries[k].1| ==> entries[k].1[i].0 in Questions[IndexOf(entries[k].0)].options
  }

  /** A table that matches the catalog yields a best-answer store made of
      catalog options (`WellFormed`). */
  lemma {:induction false} BestAnswersForWellFormed(entries: seq<(string, Table)>)
    requires forall k :: 0 <= k < |entries| ==> entries[k].1 != []
    requires MatchesCatalog(entries)
    ensures WellFormed(BestAnswersFor(entries))
  {
    if entries != [] {
      var rest := entries[1..];
      assert MatchesCatalog(rest) by {
        forall k | 0 <= k < |rest| ensures rest[k] == entries[k + 1] { }
      }
      BestAnswersForWellFormed(rest);
      var i := IndexOf(entries[0].0);
      var top := TopOption(entries[0].1);
      assert top in Questions[i].options;
      RecordKeepsWellFormed(BestAnswersFor(rest), i, Choice(top));
    }
  }

  /** computeScore, run with the scoring table it reads (ScoringMap in the
      quiz): its accumulator loops over the scored questions and over the
      selected coping strategies compute the engine's value. */
  method ComputeScore(a: Store, table: seq<(string, Table)>) returns (score: int)
    requires CopingIsList(a)
    ensures score == ScoreWith(a, table)
  {
    score := AddSingleChoices(a, table);

    var stressSources := if StressSources in a then a[StressSources] else Selection([]);
    var k := match stressSources
      case Choice(s) => |s|
      case Selection(l) => |l|;
    score := score + Max(0, 18 - k * 3);

    var copingScore := AddCopingWeights(Selections(a, Coping));
    score := score + Max(0, Min(copingScore + 16, 16));
  }

  /** The `forEach` over the keys of a scoring map, adding each stored
      option's points. */
  method AddSingleChoices(a: Store, entries: seq<(string, Table)>) returns (score: int)
    ensures score == SingleSum(a, entries)
  {
    score := 0;
    for i := 0 to |entries|
      invariant score + SingleSum(a, entries[i..]) == SingleSum(a, entries)
    {
      var key := entries[i].0;
      if key in a && a[key].Choice? && a[key].option != "" {
        score := score + Points(entries[i].1, a[key].option);
      }
      assert entries[i..][1..] == entries[i + 1..];
    }
  }

  /** The `forEach` over the selected coping strategies. */
  method AddCopingWeights(coping: seq<string>) returns (copingScore: int)
    ensures copingScore == CopingSum(coping)
  {
    copingScore := 0;
    for j := 0 to |coping|
      invariant copingScore + CopingSum(coping[j..]) == CopingSum(coping)
    {
      var item := coping[j];
      if item == "Social media" { copingScore := copingScore - 4; }
      if item == "Avoiding the problem" { copingScore := copingScore - 6; }
      if item == "Sleeping" { copingScore := copingScore - 4; }
      if item == "Listening to music" { copingScore := copingScore - 2; }
      if item == "Physical activity or yoga" { copingScore := copingScore + 4; }
      if item == "Meditation or relaxation" { copingScore := copingScore + 3; }
      if item == "Talking to someone" { copingScore := copingScore + 3; }
      assert coping[j..][1..] == coping[j + 1..];
    }
  }

  // ---------------------------------------------------------------------------
  // The engine over any well-formed table

  /** No option earns more than its table's maximum. */
  lemma {:induction false} PointsAtMost(t: Table, option: string)
    ensures Points(t, option) <= MaxPoints(t)
  {
    if t != [] && t[0].0 != option {
      PointsAtMost(t[1..], option);
    }
  }

  /** In a table with distinct option strings, every listed option earns
      exactly the points listed beside it. */
  lemma {:induction false} PointsLookup(t: Table, k: nat)
    requires DistinctKeys(t) && k < |t|
    ensures Points(t, t[k].0) == t[k].1
  {
    if k > 0 {
      assert t[0].0 != t[k].0;
      assert t[1..][k - 1] == t[k];
      PointsLookup(t[1..], k - 1);
    }
  }

  /** The scored single-select questions add at most the sum of their maxima. */
  lemma {:induction false} SingleSumAtMost(a: Store, entries: seq<(string, Table)>)
    ensures SingleSum(a, entries) <= MaxSum(entries)
  {
    if entries != [] {
      var e := entries[0];
      if e.0 in a && a[e.0].Choice? && a[e.0].option != "" {
        PointsAtMost(e.1, a[e.0].option);
      }
      SingleSumAtMost(a, entries[1..]);
    }
  }

  lemma ScoreWithAtMost(a: Store, entries: seq<(string, Table)>)
    requires CopingIsList(a)
    ensures ScoreWith(a, entries) <= MaxSum(entries) + 18 + 16
  {
    SingleSumAtMost(a, entries);
  }

  lemma {:induction false} SingleSumSameTerms(a: Store, b: Store, entries: seq<(string, Table)>)
    requires forall k :: 0 <= k < |entries| ==> SingleTerm(a, entries[k]) == SingleTerm(b, entries[k])
    ensures SingleSum(a, entries) == SingleSum(b, entries)
  {
    if entries != [] {
      SingleSumSameTerms(a, b, entries[1..]);
    }
  }

  lemma {:induction false} SingleSumOneTerm(a: Store, b: Store, entries: seq<(string, Table)>, j: nat)
    requires j < |entries|
    requires forall k :: 0 <= k < |entries| && k != j ==> SingleTerm(a, entries[k]) == SingleTerm(b, entries[k])
    ensures SingleSum(b, entries) == SingleSum(a, entries) - SingleTerm(a, entries[j]) + SingleTerm(b, entries[j])
  {
    var rest := entries[1..];
    if j == 0 {
      SingleSumSameTerms(a, b, rest);
    } else {
      SingleSumOneTerm(a, b, rest, j - 1);
    }
  }

  /** Updating the answer to the j-th question of well-formed entries changes
      their sum by the change of that question's term only. */
  lemma SingleSumUpdate(a: Store, entries: seq<(string, Table)>, j: nat, v: Answer)
    requires WellFormedMap(entries) && j < |entries|
    ensures SingleSum(a[entries[j].0 := v], entries) ==
            SingleSum(a, entries) - SingleTerm(a, entries[j]) + SingleTerm(a[entries[j].0 := v], entries[j])
  {
    var b := a[entries[j].0 := v];
    forall k | 0 <= k < |entries| && k != j
      ensures SingleTerm(a, entries[k]) == SingleTerm(b, entries[k])
    {
      assert entries[k].0 != entries[j].0;
    }
    SingleSumOneTerm(a, b, entries, j);
  }

  lemma SingleSumIgnores(a: Store, entries: seq<(string, Table)>, id: string, v: Answer)
    requires forall k :: 0 <= k < |entries| ==> entries[k].0 != id
    ensures SingleSum(a[id := v], entries) == SingleSum(a, entries)
  {
    var b := a[id := v];
    forall k | 0 <= k < |entries|
      ensures SingleTerm(a, entries[k]) == SingleTerm(b, entries[k])
    {
      assert entries[k].0 != id;
    }
    SingleSumSameTerms(a, b, entries);
  }

  lemma {:induction false} EmptySingleSum(a: Store, entries: seq<(string, Table)>)
    requires a == map[]
    ensures SingleSum(a, entries) == 0
  {
    if entries != [] {
      EmptySingleSum(a, entries[1..]);
    }
  }

  /** With distinct ids and well-formed tables, the top options reach the sum
      of the table maxima. */
  lemma {:induction false} BestAnswersReachMaxSum(entries: seq<(string, Table)>)
    requires WellFormedMap(entries)
    ensures SingleSum(BestAnswersFor(entries), entries) == MaxSum(entries)
  {
    if entries != [] {
      var rest := entries[1..];
      var best := BestAnswersFor(entries);
      assert WellFormedMap(rest);
      BestAnswersReachMaxSum(rest);
      forall k | 0 <= k < |rest|
        ensures SingleTerm(best, rest[k]) == SingleTerm(BestAnswersFor(rest), rest[k])
      {
        assert rest[k].0 != entries[0].0;
      }
      SingleSumSameTerms(best, BestAnswersFor(rest), rest);
    }
  }

  /** An empty store scores the two multi-select baselines, 18 + 16. */
  lemma ScoreWithEmpty(entries: seq<(string, Table)>)
    ensures ScoreWith(map[], entries) == 34
  {
    EmptySingleSum(map[], entries);
  }

  lemma ScoreWithBest(entries: seq<(string, Table)>)
    requires WellFormedMap(entries)
    ensures CopingIsList(BestAnswersFor(entries))
    ensures ScoreWith(BestAnswersFor(entries), entries) == MaxSum(entries) + 34
  {
    BestAnswersReachMaxSum(entries);
  }

  lemma ScoreWithChange(a: Store, entries: seq<(string, Table)>, j: nat, before: string, after: string)
    requires WellFormedMap(entries) && CopingIsList(a) && j < |entries|
    requires entries[j].0 in a && a[entries[j].0] == Choice(before)
    requires before != "" && after != ""
    ensures CopingIsList(a[entries[j].0 := Choice(after)])
    ensures ScoreWith(a[entries[j].0 := Choice(after)], entries) ==
            ScoreWith(a, entries) - Points(entries[j].1, before) + Points(entries[j].1, after)
  {
    var id := entries[j].0;
    var b := a[id := Choice(after)];
    SingleSumUpdate(a, entries, j, Choice(after));
    assert SingleTerm(a, entries[j]) == Points(entries[j].1, before);
    assert SingleTerm(b, entries[j]) == Points(entries[j].1, after);
    assert id != StressSources && id != Coping;
    assert StressCount(b) == StressCount(a);
    assert Selections(b, Coping) == Selections(a, Coping);
  }

  lemma ScoreWithIgnores(a: Store, entries: seq<(string, Table)>, id: string, v: Answer)
    requires CopingIsList(a)
    requires id != StressSources && id != Coping
    requires forall k :: 0 <= k < |entries| ==> entries[k].0 != id
    ensures CopingIsList(a[id := v]) && ScoreWith(a[id := v], entries) == ScoreWith(a, entries)
  {
    SingleSumIgnores(a, entries, id, v);
    assert Selections(a[id := v], Coping) == Selections(a, Coping);
  }

  // ---------------------------------------------------------------------------
  // The engine over the source's table

  lemma ScoringMapIdsDistinct()
    ensures |ScoringMap| == 13
    ensures forall i, j :: 0 <= i < j < |ScoringMap| ==> ScoringMap[i].0 != ScoringMap[j].0
    ensures forall k :: 0 <= k < |ScoringMap| ==> ScoringMap[k].0 != StressSources && ScoringMap[k].0 != Coping
  {
  }

  lemma ScoringMapTablesWellFormed()
    ensures forall k :: 0 <= k < |ScoringMap| ==> ScoringMap[k].1 != [] && DistinctKeys(ScoringMap[k].1)
    ensures forall k, i :: 0 <= k < |ScoringMap| && 0 <= i < |ScoringMap[k].1| ==> ScoringMap[k].1[i].0 != ""
  {
  }

  lemma ScoringMapWellFormed()
    ensures |ScoringMap| == 13
    ensures WellFormedMap(ScoringMap)
  {
    ScoringMapIdsDistinct();
    ScoringMapTablesWellFormed();
  }

  /** The table's ids are the catalog's single-select questions 3, 5 to 11
      and 13 to 17, and its option strings are theirs. */
  lemma ScoringMapMatchesCatalog()
    ensures MatchesCatalog(ScoringMap)
  {
    var at := [3, 5, 6, 7, 8, 9, 10, 11, 13, 14, 15, 16, 17];
    forall k | 0 <= k < |ScoringMap|
      ensures 0 <= IndexOf(ScoringMap[k].0)
      ensures Questions[IndexOf(ScoringMap[k].0)].kind == Single
      ensures forall i :: 0 <= i < |ScoringMap[k].1| ==> ScoringMap[k].1[i].0 in Questions[IndexOf(ScoringMap[k].0)].options
    {
      assert ScoringMap[k].0 == Questions[at[k]].id;
      IndexOfQuestion(at[k]);
    }
  }

  /** The 196-point store consists of catalog options. It holds nothing for
      the two multi-select questions, nor for the three unscored ones. */
  lemma BestAnswersWellFormed()
    ensures WellFormed(BestAnswers)
  {
    ScoringMapWellFormed();
    ScoringMapMatchesCatalog();
    BestAnswersForWellFormed(ScoringMap);
  }

  lemma MaxSumTail()
    ensures MaxSum(ScoringMap[7..]) == 54
  {
    assert MaxSum(ScoringMap[12..]) == 10;
    assert MaxSum(ScoringMap[11..]) == 14;
    assert MaxSum(ScoringMap[10..]) == 24;
    assert MaxSum(ScoringMap[9..]) == 32;
    assert MaxSum(ScoringMap[8..]) == 44;
  }

  lemma MaxSumMiddle()
    ensures MaxSum(ScoringMap[3..]) == 108
  {
    MaxSumTail();
    assert MaxSum(ScoringMap[6..]) == 68;
    assert MaxSum(ScoringMap[5..]) == 82;
    assert MaxSum(ScoringMap[4..]) == 94;
  }

  /** The table maxima sum to 162, so the largest score is 162 + 18 + 16. */
  lemma MaxRawValue()
    ensures MaxSum(ScoringMap) == 162
    ensures MaxRaw == 196
  {
    MaxSumMiddle();
    assert MaxSum(ScoringMap[2..]) == 124;
    assert MaxSum(ScoringMap[1..]) == 142;
  }

  /** Every score lies between 0 and 196. */
  lemma ScoreBounds(a: Store)
    requires CopingIsList(a)
    ensures 0 <= Score(a) <= 196
  {
    ScoreWithAtMost(a, ScoringMap);
    MaxRawValue();
  }

  /** A store without any answer scores 34: no stress sources give 18 and an
      empty coping sub-score gives 16. */
  lemma EmptyStoreScore()
    ensures Score(map[]) == 34
  {
    ScoreWithEmpty(ScoringMap);
  }

  /** The top option of every scored question. */
  const BestAnswers: Store := BestAnswersFor(ScoringMap)

  /** The top option everywhere, with no stress source and no coping strategy,
      reaches the maximum 196. */
  lemma BestAnswersScore()
    ensures CopingIsList(BestAnswers)
    ensures Score(BestAnswers) == 196
  {
    ScoringMapWellFormed();
    ScoreWithBest(ScoringMap);
    MaxRawValue();
  }

  /** Empty lists under the two multi-select questions, as a select-and-deselect
      leaves them, add no stress penalty and no coping points: the score is the
      single-select sum plus both baselines. */
  lemma EmptyListsScore(a: Store)
    ensures CopingIsList(a[Coping := Selection([])][StressSources := Selection([])])
    ensures Score(a[Coping := Selection([])][StressSources := Selection([])]) == SingleSum(a, ScoringMap) + 34
  {
    ScoringMapIdsDistinct();
    var b := a[Coping := Selection([])];
    SingleSumIgnores(a, ScoringMap, Coping, Selection([]));
    SingleSumIgnores(b, ScoringMap, StressSources, Selection([]));
  }

  /** Empty lists under the two multi-select questions keep a store well formed. */
  lemma EmptyListsKeepWellFormed(a: Store)
    requires WellFormed(a)
    ensures WellFormed(a[Coping := Selection([])][StressSources := Selection([])])
  {
    StressSourcesQuestion();
    CopingQuestion();
    RecordKeepsWellFormed(a, 12, Selection([]));
    RecordKeepsWellFormed(a[Coping := Selection([])], 4, Selection([]));
  }

  /** The best-answer store records a single option under every id. */
  lemma {:induction false} BestAnswersForChoices(entries: seq<(string, Table)>)
    requires forall k :: 0 <= k < |entries| ==> entries[k].1 != []
    ensures forall id :: id in BestAnswersFor(entries) ==> BestAnswersFor(entries)[id].Choice?
  {
    if entries != [] {
      BestAnswersForChoices(entries[1..]);
    }
  }

  /** Every question of the entries has a best answer. */
  lemma {:induction false} BestAnswersForHolds(entries: seq<(string, Table)>)
    requires forall k :: 0 <= k < |entries| ==> entries[k].1 != []
    ensures forall k :: 0 <= k < |entries| ==> entries[k].0 in BestAnswersFor(entries)
  {
    if entries != [] {
      var rest := entries[1..];
      BestAnswersForHolds(rest);
      forall k | 1 <= k < |entries|
        ensures entries[k].0 in BestAnswersFor(entries)
      {
        assert entries[k] == rest[k - 1];
      }
    }
  }

  /** The best-answer store records a single option under every id. */
  lemma BestAnswersAreChoices()
    ensures forall id :: id in BestAnswers ==> BestAnswers[id].Choice?
  {
    ScoringMapWellFormed();
    BestAnswersForChoices(ScoringMap);
  }

  /** Every scored question has a best answer. */
  lemma BestAnswersCoverTable()
    ensures forall k :: 0 <= k < |ScoringMap| ==> ScoringMap[k].0 in BestAnswers
  {
    ScoringMapWellFormed();
    BestAnswersForHolds(ScoringMap);
  }

  /** Changing the answer to one scored question changes the score by exactly
      the difference of the two options' points. */
  lemma ChangeOneAnswer(a: Store, j: nat, before: string, after: string)
    requires CopingIsList(a) && j < |ScoringMap|
    requires ScoringMap[j].0 in a && a[ScoringMap[j].0] == Choice(before)
    requires before != "" && after != ""
    ensures CopingIsList(a[ScoringMap[j].0 := Choice(after)])
    ensures Score(a[ScoringMap[j].0 := Choice(after)]) ==
            Score(a) - Points(ScoringMap[j].1, before) + Points(ScoringMap[j].1, after)
  {
    ScoringMapWellFormed();
    ScoreWithChange(a, ScoringMap, j, before, after);
  }

  /** An answer to a question the engine does not score (age, gender, study,
      or any other id outside the table) never affects the score. */
  lemma UnscoredIdIgnored(a: Store, id: string, v: Answer)
    requires CopingIsList(a)
    requires id != StressSources && id != Coping
    requires forall k :: 0 <= k < |ScoringMap| ==> ScoringMap[k].0 != id
    ensures CopingIsList(a[id := v]) && Score(a[id := v]) == Score(a)
  {
    ScoreWithIgnores(a, ScoringMap, id, v);
  }

  // ---------------------------------------------------------------------------
  // The multi-select terms

  /** In a well-formed store the stress sources are distinct options of their
      question, so there are at most 6 and the floor at 0 never clips. */
  lemma StressTermExact(a: Store)
    requires WellFormed(a)
    ensures StressCount(a) == |Selections(a, StressSources)| <= 6
    ensures StressTerm(a) == 18 - 3 * |Selections(a, StressSources)|
  {
    if StressSources in a {
      StressSourcesQuestion();
      SelectionBounded(a[StressSources].options, Questions[4].options);
    }
  }

  lemma {:induction false} CopingSumAppend(u: seq<string>, v: seq<string>)
    ensures CopingSum(u + v) == CopingSum(u) + CopingSum(v)
  {
    if u == [] {
      assert u + v == v;
    } else {
      assert (u + v)[1..] == u[1..] + v;
      CopingSumAppend(u[1..], v);
    }
  }

  /** The coping sub-score depends only on which strategies were selected and
      how often, not on the order of the clicks. */
  lemma {:induction false} CopingSumOrderFree(u: seq<string>, v: seq<string>)
    requires multiset(u) == multiset(v)
    ensures CopingSum(u) == CopingSum(v)
    decreases |u|
  {
    if u == [] {
      assert |v| == |multiset(v)| == 0;
    } else {
      var x := u[0];
      assert x in multiset(v);
      var k :| 0 <= k < |v| && v[k] == x;
      var rest := v[..k] + v[k + 1..];
      assert v == v[..k] + [x] + v[k + 1..];
      assert u == [x] + u[1..];
      assert multiset(v) == multiset(v[..k]) + multiset{x} + multiset(v[k + 1..]);
      assert multiset(u) == multiset{x} + multiset(u[1..]);
      assert multiset(rest) == multiset(v[..k]) + multiset(v[k + 1..]);
      assert multiset(u[1..]) == multiset(u) - multiset{x};
      assert multiset(rest) == multiset(v) - multiset{x};
      CopingSumOrderFree(u[1..], rest);
      CopingSumAppend(v[..k] + [x], v[k + 1..]);
      CopingSumAppend(v[..k], [x]);
      CopingSumAppend(v[..k], v[k + 1..]);
    }
  }

  /** Selecting all four maladaptive strategies, in whatever click order,
      drives the coping term to 0. */
  lemma AllNegativeCoping(a: Store)
    requires CopingIsList(a)
    requires multiset(Selections(a, Coping)) ==
             multiset{"Listening to music", "Sleeping", "Social media", "Avoiding the problem"}
    ensures CopingTerm(a) == 0
  {
    var clicked := ["Listening to music", "Sleeping", "Social media", "Avoiding the problem"];
    assert multiset(clicked) == multiset{"Listening to music", "Sleeping", "Social media", "Avoiding the problem"};
    CopingSumOrderFree(Selections(a, Coping), clicked);
    assert CopingSum(clicked) == -16;
  }

  lemma {:induction false} NonNegativeCopingSum(items: seq<string>)
    requires forall y :: y in items ==> CopingWeight(y) >= 0
    ensures CopingSum(items) >= 0
  {
    if items != [] {
      NonNegativeCopingSum(items[1..]);
    }
  }

  /** Any selection of adaptive strategies only gives 16, as does no selection. */
  lemma PositiveOnlyCoping(a: Store)
    requires CopingIsList(a)
    requires forall y :: y in Selections(a, Coping) ==> CopingWeight(y) > 0
    ensures CopingTerm(a) == 16
  {
    NonNegativeCopingSum(Selections(a, Coping));
  }

}
