/** The answer store of a quiz session: a dictionary from question id to the
    answer given, where a single-select question holds one option string and a
    multi-select question holds the list of options selected so far. */
module Answers {
  import opened Catalog

  datatype Answer = Choice(option: string) | Selection(options: seq<string>)

  type Store = map<string, Answer>

  /** The question counts as answered: the stored value is present and truthy
      (a non-empty string) and, when it is a list, that list is not empty. */
  predicate Answered(a: Store, id: string) {
    id in a &&
    match a[id]
    case Choice(s) => s != ""
    case Selection(l) => |l| > 0
  }

  /** The current selections of a multi-select question, `answers[id] || []`
      for a store in which the question holds a list or nothing. */
  function Selections(a: Store, id: string): (l: seq<string>)
    ensures |l| > 0 <==> Answered(a, id) && a[id].Selection?
  {
    if id in a && a[id].Selection? then a[id].options else []
  }

  /** `l.filter(item => item !== x)`: the list without any occurrence of x. */
  function Without(l: seq<string>, x: string): (r: seq<string>)
    ensures |r| <= |l|
    ensures forall y :: y in r <==> y in l && y != x
  {
    if l == [] then []
    else if l[|l| - 1] == x then Without(l[..|l| - 1], x)
    else Without(l[..|l| - 1], x) + [l[|l| - 1]]
  }

  /** The multi-select click: remove the option when it is selected, otherwise
      append it at the end. */
  function Toggle(l: seq<string>, x: string): seq<string> {
    if x in l then Without(l, x) else l + [x]
  }

  lemma {:induction false} WithoutKeepsNoDuplicates(l: seq<string>, x: string)
    requires NoDuplicates(l)
    ensures NoDuplicates(Without(l, x))
  {
    if l != [] {
      var init := l[..|l| - 1];
      assert NoDuplicates(init) by {
        forall i, j | 0 <= i < j < |init| ensures init[i] != init[j] {
          assert init[i] == l[i] && init[j] == l[j];
        }
      }
      WithoutKeepsNoDuplicates(init, x);
      var last := l[|l| - 1];
      if last != x {
        assert last !in init by {
          forall i | 0 <= i < |init| ensures init[i] != last {
            assert init[i] == l[i];
          }
        }
        var w := Without(init, x);
        assert last !in w;
        forall i, j | 0 <= i < j < |w + [last]| ensures (w + [last])[i] != (w + [last])[j] {
          if j == |w| {
            assert (w + [last])[i] == w[i];
          } else {
            assert (w + [last])[i] == w[i] && (w + [last])[j] == w[j];
          }
        }
      }
    }
  }

  /** Removing an element that does not occur leaves the list as it was. */
  lemma {:induction false} WithoutAbsent(l: seq<string>, x: string)
    requires x !in l
    ensures Without(l, x) == l
  {
    if l != [] {
      var init := l[..|l| - 1];
      assert x !in init;
      WithoutAbsent(init, x);
      assert init + [l[|l| - 1]] == l;
    }
  }

  /** A toggle flips the membership of the clicked option and of nothing else. */
  lemma ToggleFlipsMembership(l: seq<string>, x: string)
    ensures x in Toggle(l, x) <==> x !in l
    ensures forall y :: y != x ==> (y in Toggle(l, x) <==> y in l)
  {
  }

  /** A toggle never introduces a duplicate selection. */
  lemma ToggleKeepsNoDuplicates(l: seq<string>, x: string)
    requires NoDuplicates(l)
    ensures NoDuplicates(Toggle(l, x))
  {
    if x in l {
      WithoutKeepsNoDuplicates(l, x);
    } else {
      var r := l + [x];
      forall i, j | 0 <= i < j < |r| ensures r[i] != r[j] {
        assert r[i] == l[i];
      }
    }
  }

  /** Clicking the same option twice restores the same set of selections; when
      the option was not selected before, it restores the very same list. */
  lemma ToggleTwice(l: seq<string>, x: string)
    ensures forall y :: y in Toggle(Toggle(l, x), x) <==> y in l
    ensures x !in l ==> Toggle(Toggle(l, x), x) == l
  {
    if x !in l {
      var once := l + [x];
      assert once[..|once| - 1] == l;
      WithoutAbsent(l, x);
      assert Without(once, x) == l;
    } else {
      assert x !in Without(l, x);
    }
  }

  /** The number of distinct elements of a list without duplicates is its length. */
  lemma {:induction false} DistinctCount(l: seq<string>)
    requires NoDuplicates(l)
    ensures |set y | y in l| == |l|
  {
    if l != [] {
      var init := l[..|l| - 1];
      var last := l[|l| - 1];
      assert NoDuplicates(init) by {
        forall i, j | 0 <= i < j < |init| ensures init[i] != init[j] {
          assert init[i] == l[i] && init[j] == l[j];
        }
      }
      DistinctCount(init);
      assert last !in init by {
        forall i | 0 <= i < |init| ensures init[i] != last {
          assert init[i] == l[i];
        }
      }
      assert l == init + [last];
      assert (set y | y in l) == (set y | y in init) + {last};
    }
  }

  /** A list without duplicates drawn from the options of a question holds at
      most as many elements as there are options. */
  lemma SelectionBounded(l: seq<string>, options: seq<string>)
    requires NoDuplicates(l) && NoDuplicates(options)
    requires forall y :: y in l ==> y in options
    ensures |l| <= |options|
  {
    DistinctCount(l);
    DistinctCount(options);
    var sl := set y | y in l;
    var so := set y | y in options;
    assert sl <= so;
    assert |sl| <= |so| by {
      SubsetCard(sl, so);
    }
  }

  lemma SubsetCard(a: set<string>, b: set<string>)
    requires a <= b
    ensures |a| <= |b|
  {
    assert b == a + (b - a);
  }

  /** What a well-formed store holds for one catalog question. */
  predicate Conforms(q: Question, v: Answer) {
    match q.kind
    case Single => v.Choice? && v.option in q.options
    case Multi => v.Selection? && NoDuplicates(v.options) &&
                  forall y :: y in v.options ==> y in q.options
  }

  /** Every store built by the click handlers: each key is a catalog id, a
      single-select question holds one of its options and a multi-select
      question a duplicate-free list of its options. */
  predicate WellFormed(a: Store) {
    forall id :: id in a ==> 0 <= IndexOf(id) && Conforms(Questions[IndexOf(id)], a[id])
  }

  /** In a well-formed store, a multi-select question holds a duplicate-free
      list of its own options, and it counts as answered exactly when that
      list is not empty. */
  lemma WellFormedSelections(a: Store, i: nat)
    requires WellFormed(a) && i < |Questions| && Questions[i].kind == Multi
    ensures NoDuplicates(Selections(a, Questions[i].id))
    ensures forall y :: y in Selections(a, Questions[i].id) ==> y in Questions[i].options
    ensures Answered(a, Questions[i].id) <==> |Selections(a, Questions[i].id)| > 0
  {
    IndexOfQuestion(i);
  }

  /** Recording a conforming answer for a catalog question keeps a store well formed. */
  lemma RecordKeepsWellFormed(a: Store, i: nat, v: Answer)
    requires WellFormed(a) && i < |Questions|
    requires Conforms(Questions[i], v)
    ensures WellFormed(a[Questions[i].id := v])
  {
    IndexOfQuestion(i);
  }
}
