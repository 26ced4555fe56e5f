/** createScopeKey, identical in the wfld and westfieldgrp AuthenticationService:
    the cache key of a scope array is the sorted copy of it joined with one
    space, and "" for a null or empty array. */
module ScopeKey {
  import opened Wrappers
  import opened Strings

  /** createScopeKey(String[] scopes); None is a null array. */
  function CreateScopeKey(scopes: Option<seq<string>>): (key: string)
    ensures scopes == None || scopes == Some([]) ==> key == ""
  {
    if scopes.None? || |scopes.value| == 0 then "" else Join(Sort(scopes.value), " ")
  }

  /** The key is the join of the sorted arrangement of the scopes, whichever
      sorted arrangement one names. */
  lemma KeyIsSortedJoin(scopes: seq<string>, sorted: seq<string>)
    requires |scopes| > 0
    requires Sorted(sorted) && multiset(sorted) == multiset(scopes)
    ensures CreateScopeKey(Some(scopes)) == Join(sorted, " ")
  {
    SortSorted(scopes);
    SortPermutes(scopes);
    SortedUnique(Sort(scopes), sorted);
  }

  /** Order-independence: any two arrangements of the same scopes (with the
      same multiplicities) share one key. */
  lemma PermutationInvariant(a: seq<string>, b: seq<string>)
    requires multiset(a) == multiset(b)
    ensures CreateScopeKey(Some(a)) == CreateScopeKey(Some(b))
  {
    assert |a| == |multiset(a)| == |multiset(b)| == |b|;
    if |a| > 0 {
      SortSorted(b);
      SortPermutes(b);
      KeyIsSortedJoin(a, Sort(b));
    }
  }

  /** The key does not de-duplicate: a repeated scope yields a different key
      from the single scope. */
  lemma KeepsDuplicates()
    ensures CreateScopeKey(Some(["a", "a"])) == "a a"
    ensures CreateScopeKey(Some(["a", "a"])) != CreateScopeKey(Some(["a"]))
  {
    assert LexLe("a", "a");
    assert Sort(["a", "a"]) == ["a", "a"];
    assert Join(["a", "a"], " ") == Join(["a"], " ") + " " + "a";
  }

  /** A null array and an empty one share the key "". */
  lemma NullAndEmptyShareKey()
    ensures CreateScopeKey(None) == CreateScopeKey(Some([])) == ""
  {
  }
}
