/** The fixed question catalog of the self-assessment quiz: 18 questions in the
    order they are asked, each single-select or multi-select. The prompt text of a
    question is display-only and is not part of this model. */
module Catalog {

  datatype Kind = Single | Multi

  datatype Question = Question(id: string, kind: Kind, options: seq<string>)

  // Ids of the questions that the scoring engine treats specially.
  const StressSources := "stress-sources"
  const Coping := "coping"

  const Questions: seq<Question> := [
    Question("age", Single, ["Under 16", "16–18", "18–21", "21–25", "Above 25"]),
    Question("gender", Single, ["Male", "Female", "Prefer not to say", "Other"]),
    Question("study", Single, ["School", "Undergraduate", "Postgraduate", "Engineering", "Medical", "PhD (Engineering)"]),
    Question("academic-stress", Single, ["Never", "Rarely", "Sometimes", "Often", "Always"]),
    Question(StressSources, Multi, [
      "Exams or grades",
      "Career or future uncertainty",
      "Family expectations",
      "Relationships or friendships",
      "Social media pressure",
      "Health-related issues"]),
    Question("emotional-state", Single, ["Mostly positive", "Generally neutral", "Occasionally low", "Frequently low"]),
    Question("anxiety", Single, ["Yes", "No", "Sometimes"]),
    Question("sleep-pattern", Single, ["No change – sleeping normally", "Sleeping less than usual", "Sleeping more than usual", "Irregular sleep cycle"]),
    Question("eating-habits", Single, ["No change", "Eating less", "Eating more", "Skipping meals"]),
    Question("concentration", Single, ["Never", "Sometimes", "Often"]),
    Question("mental-exhaustion", Single, ["Yes", "No", "Sometimes"]),
    Question("support", Single, ["Friends", "Family", "Teachers", "Counsellor or mentor", "No one"]),
    Question(Coping, Multi, [
      "Listening to music",
      "Sleeping",
      "Physical activity or yoga",
      "Social media",
      "Meditation or relaxation",
      "Avoiding the problem",
      "Talking to someone"]),
    Question("sharing", Single, ["Yes", "No", "Sometimes"]),
    Question("support-services", Single, ["Yes", "No"]),
    Question("consider-using", Single, ["Yes", "No", "Maybe"]),
    Question("preferred-support", Single, ["One-to-one counselling", "Peer support groups", "Online or anonymous support", "Workshops and awareness sessions"]),
    Question("education", Single, ["Strongly agree", "Agree", "Neutral", "Disagree", "Strongly disagree"])
  ]

  /** The index of the first question with the given id, or -1 if there is none. */
  function IndexFrom(qs: seq<Question>, id: string, from: nat): (r: int)
    requires from <= |qs|
    ensures r == -1 || from <= r < |qs|
    ensures 0 <= r ==> qs[r].id == id
    ensures r == -1 ==> forall k :: from <= k < |qs| ==> qs[k].id != id
    decreases |qs| - from
  {
    if from == |qs| then -1
    else if qs[from].id == id then from
    else IndexFrom(qs, id, from + 1)
  }

  function IndexOf(id: string): (r: int)
    ensures -1 <= r < |Questions|
    ensures 0 <= r ==> Questions[r].id == id
    ensures r == -1 <==> forall k :: 0 <= k < |Questions| ==> Questions[k].id != id
  {
    IndexFrom(Questions, id, 0)
  }

  predicate NoDuplicates<T(==)>(s: seq<T>) {
    forall i, j :: 0 <= i < j < |s| ==> s[i] != s[j]
  }

  /** Question ids are pairwise distinct. */
  lemma IdsDistinct()
    ensures |Questions| == 18
    ensures forall i, j :: 0 <= i < j < |Questions| ==> Questions[i].id != Questions[j].id
  {
  }

  /** Every question of the catalog is found at its own position by its id. */
  lemma IndexOfQuestion(i: nat)
    requires i < |Questions|
    ensures IndexOf(Questions[i].id) == i
  {
    IdsDistinct();
  }

  /** No option of any question is the empty string. */
  lemma OptionsNonEmpty()
    ensures forall i :: 0 <= i < |Questions| ==> "" !in Questions[i].options
  {
  }

  /** Every question offers at least one option. */
  lemma QuestionsHaveOptions()
    ensures forall i :: 0 <= i < |Questions| ==> |Questions[i].options| > 0
  {
  }

  lemma StressSourcesQuestion()
    ensures IndexOf(StressSources) == 4
    ensures Questions[4].kind == Multi && |Questions[4].options| == 6
    ensures NoDuplicates(Questions[4].options)
  {
    IndexOfQuestion(4);
  }

  lemma CopingQuestion()
    ensures IndexOf(Coping) == 12
    ensures Questions[12].kind == Multi && |Questions[12].options| == 7
  {
    IndexOfQuestion(12);
  }
}
