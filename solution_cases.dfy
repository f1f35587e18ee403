/**
  The historical-case lookup of the solution engineer's tools
  (mABC/agents/tools/solution_engineer_tools.py): a case matches when, for every
  criterion, the case has the key and the criterion's value occurs in the case's value,
  both lower-cased. The cases are given as a list; reading them from the JSON file is
  not modelled.

  Python's `str.lower()` applies the full Unicode case mapping, which is not written
  out here: it enters as the parameter `lower`, so every property below holds for
  whatever lower-casing the interpreter performs.
*/
module SolutionCases {
  import opened PyStr

  /** A historical case: field name to text. */
  type Case = map<string, string>

  /** One `(key, value)` item of the search criteria, in the dict's order. */
  datatype Criterion = Criterion(key: string, value: string)

  /** One criterion holds for a case. */
  predicate Satisfies(lower: string -> string, c: Case, criterion: Criterion) {
    criterion.key in c && Contains(lower(c[criterion.key]), lower(criterion.value))
  }

  /** The criteria all hold: the meaning of `_matches_criteria`. */
  predicate Matches(lower: string -> string, c: Case, criteria: seq<Criterion>) {
    forall k :: 0 <= k < |criteria| ==> Satisfies(lower, c, criteria[k])
  }

  /** The cases that match, in their original order. */
  function Selected(lower: string -> string, cases: seq<Case>, criteria: seq<Criterion>): (r: seq<Case>)
    ensures |r| <= |cases|
    ensures forall k :: 0 <= k < |r| ==> r[k] in cases && Matches(lower, r[k], criteria)
  {
    if cases == [] then []
    else
      var rest := Selected(lower, cases[..|cases| - 1], criteria);
      if Matches(lower, cases[|cases| - 1], criteria) then rest + [cases[|cases| - 1]] else rest
  }

  /** `_matches_criteria`: the loop stops at the first criterion that fails. */
  method MatchesCriteria(lower: string -> string, c: Case, criteria: seq<Criterion>) returns (matched: bool)
    ensures matched <==> Matches(lower, c, criteria)
  {
    for i := 0 to |criteria|
      invariant forall k :: 0 <= k < i ==> Satisfies(lower, c, criteria[k])
    {
      var criterion := criteria[i];
      if criterion.key in c && Contains(lower(c[criterion.key]), lower(criterion.value)) {
        continue;
      } else {
        return false;
      }
    }
    return true;
  }

  /** The filter of `query_previous_cases` over the loaded cases. */
  method QueryPreviousCases(lower: string -> string, cases: seq<Case>, criteria: seq<Criterion>) returns (matching: seq<Case>)
    ensures matching == Selected(lower, cases, criteria)
  {
    matching := [];
    for i := 0 to |cases|
      invariant matching == Selected(lower, cases[..i], criteria)
    {
      var matched := MatchesCriteria(lower, cases[i], criteria);
      if matched {
        matching := matching + [cases[i]];
      }
      assert cases[..i + 1][..i] == cases[..i];
    }
    assert cases[..|cases|] == cases;
  }

  /** Empty criteria match every case. */
  lemma {:induction false} EmptyCriteriaMatchAll(lower: string -> string, c: Case)
    ensures Matches(lower, c, [])
  {
  }

  /** A criterion whose key the case lacks makes the match fail. */
  lemma {:induction false} MissingKeyFails(lower: string -> string, c: Case, criteria: seq<Criterion>, k: nat)
    requires k < |criteria| && criteria[k].key !in c
    ensures !Matches(lower, c, criteria)
  {
  }

  /** Containment ignores case on both sides: replacing the criterion's value or the
      case's text by any text with the same lower-cased form does not change the
      verdict. */
  lemma {:induction false} CaseInsensitive(lower: string -> string, c: Case, criterion: Criterion, value: string, text: string)
    requires criterion.key in c
    requires lower(value) == lower(criterion.value) && lower(text) == lower(c[criterion.key])
    ensures Satisfies(lower, c, criterion) <==> Satisfies(lower, c[criterion.key := text], Criterion(criterion.key, value))
  {
  }

  /** The order and repetition of the criteria do not matter. */
  lemma {:induction false} OrderIndependent(lower: string -> string, c: Case, criteria: seq<Criterion>, other: seq<Criterion>)
    requires forall x :: x in criteria <==> x in other
    ensures Matches(lower, c, criteria) <==> Matches(lower, c, other)
  {
    if Matches(lower, c, criteria) {
      forall k | 0 <= k < |other|
        ensures Satisfies(lower, c, other[k])
      {
        assert other[k] in criteria;
      }
    }
    if Matches(lower, c, other) {
      forall k | 0 <= k < |criteria|
        ensures Satisfies(lower, c, criteria[k])
      {
        assert criteria[k] in other;
      }
    }
  }

  /** The filter keeps exactly the matching cases: each matching case appears as often
      as in the input, and no other case appears. */
  lemma {:induction false} SelectedCounts(lower: string -> string, cases: seq<Case>, criteria: seq<Criterion>, c: Case)
    ensures multiset(Selected(lower, cases, criteria))[c] == if Matches(lower, c, criteria) then multiset(cases)[c] else 0
  {
    if cases != [] {
      var init := cases[..|cases| - 1];
      SelectedCounts(lower, init, criteria, c);
      assert cases == init + [cases[|cases| - 1]];
    }
  }
}
