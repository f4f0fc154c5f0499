/** The two set comparisons of the validators (isolation/authority.go, lifecycle/authority.go). */
module SetEquality {
  import opened Orders

  /** What the loops of `equalStringSet` establish. */
  predicate SameSet(actual: seq<string>, expected: seq<string>) {
    |actual| == |expected| && Distinct(actual) && forall e :: e in expected ==> e in actual
  }

  /** `equalSet` of the isolation package also refuses empty strings. */
  predicate SameNonEmptySet(actual: seq<string>, expected: seq<string>) {
    SameSet(actual, expected) && "" !in actual
  }

  /** Both loops, the first filling `seen` and the second probing it. */
  method EqualSet(actual: seq<string>, expected: seq<string>, refuseEmpty: bool) returns (equal: bool)
    ensures equal <==> SameSet(actual, expected) && (refuseEmpty ==> "" !in actual)
  {
    if |actual| != |expected| {
      return false;
    }
    var seen: set<string> := {};
    for i := 0 to |actual|
      invariant Distinct(actual[..i]) && (refuseEmpty ==> "" !in actual[..i])
      invariant seen == set v | v in actual[..i]
    {
      if (refuseEmpty && actual[i] == "") || actual[i] in seen {
        return false;
      }
      seen := seen + {actual[i]};
      assert actual[..i + 1] == actual[..i] + [actual[i]];
    }
    assert actual[..|actual|] == actual;
    for i := 0 to |expected|
      invariant forall e :: e in expected[..i] ==> e in actual
    {
      if expected[i] !in seen {
        return false;
      }
      assert expected[..i + 1] == expected[..i] + [expected[i]];
    }
    assert expected[..|expected|] == expected;
    return true;
  }

  lemma PermutationKeepsDistinct(a: seq<string>, e: seq<string>)
    requires multiset(a) == multiset(e) && Distinct(e)
    ensures Distinct(a)
  {
    UniqueKeysPermute(a, e, (s: string) => s);
    forall i, j | 0 <= i < j < |a|
      ensures a[i] != a[j]
    {
      assert ((s: string) => s)(a[i]) != ((s: string) => s)(a[j]);
    }
  }

  /** Against a repeat-free list, set equality is permutation. */
  lemma SameSetIsPermutation(actual: seq<string>, expected: seq<string>)
    requires Distinct(expected)
    ensures SameSet(actual, expected) <==> multiset(actual) == multiset(expected)
  {
    if SameSet(actual, expected) {
      DistinctInclusion(actual, expected);
    }
    if multiset(actual) == multiset(expected) {
      PermutationKeepsDistinct(actual, expected);
      assert |actual| == |multiset(actual)| == |multiset(expected)| == |expected|;
      forall e | e in expected
        ensures e in actual
      {
        InMultiset(e, expected);
        InMultiset(e, actual);
      }
    }
  }

  /**
   `equalSet` means "is a permutation of" for every candidate exactly when the expected list has no
   repeats and no empty string, which a caller can check once on its constant table.
   */
  lemma EqualSetExactWhen(expected: seq<string>)
    ensures (forall actual :: SameNonEmptySet(actual, expected) <==> multiset(actual) == multiset(expected))
       <==> Distinct(expected) && "" !in expected
  {
    if Distinct(expected) && "" !in expected {
      forall actual
        ensures SameNonEmptySet(actual, expected) <==> multiset(actual) == multiset(expected)
      {
        SameSetIsPermutation(actual, expected);
        if multiset(actual) == multiset(expected) {
          InMultiset("", actual);
          InMultiset("", expected);
        }
      }
    } else {
      assert multiset(expected) == multiset(expected) && !SameNonEmptySet(expected, expected);
    }
  }

  /** With a repeated entry the comparison accepts a list that is no permutation. */
  lemma EqualSetAcceptsNonPermutation()
    ensures SameNonEmptySet(["a", "b"], ["a", "a"]) && multiset(["a", "b"]) != multiset(["a", "a"])
  {
    assert multiset(["a", "b"])["b"] == 1 && multiset(["a", "a"])["b"] == 0;
    assert ["a", "b"][0] == "a";
  }

  function Identity(): string -> string {
    (s: string) => s
  }

  lemma StringsSeparate(a: seq<string>)
    ensures Separates(a, ByKey(Identity()))
  {
    forall x, y | x in a && y in a && x != y
      ensures ByKey(Identity())(x, y) || ByKey(Identity())(y, x)
    {
      LessTotal(x, y);
    }
  }

  /** `sort.Strings`: ties are equal strings, so the result depends on the elements alone. */
  ghost function SortStrings(s: seq<string>): (r: seq<string>)
    ensures IsSorting(r, s, ByKey(Identity()))
  {
    ByKeyStrictWeak(Identity());
    SortSlice(s, ByKey(Identity()))
  }

  lemma StringSortingUnique(r: seq<string>, s: seq<string>)
    requires IsSorting(r, s, ByKey(Identity()))
    ensures r == SortStrings(s)
  {
    StringsSeparate(r);
    SortingUnique(r, SortStrings(s), ByKey(Identity()));
  }

  lemma SortStringsEqual(a: seq<string>, b: seq<string>)
    ensures SortStrings(a) == SortStrings(b) <==> multiset(a) == multiset(b)
  {
    if multiset(a) == multiset(b) {
      StringSortingUnique(SortStrings(a), b);
    }
  }
}
