/**
 Byte-wise string order and the contract of Go's `sort.Slice`.

 `sort.Slice` promises a permutation with no inversion and nothing about ties, so
 `SortSlice` below chooses some such permutation; every fact about its result must
 come from the inversion-free property and from key uniqueness.
 */
module Orders {

  /** Go's `<` on strings. */
  predicate Less(a: string, b: string) {
    b != "" && (a == "" || a[0] < b[0] || (a[0] == b[0] && Less(a[1..], b[1..])))
  }

  lemma {:induction false} LessIrreflexive(a: string)
    ensures !Less(a, a)
  {
    if a != "" {
      LessIrreflexive(a[1..]);
    }
  }

  lemma {:induction false} LessTransitive(a: string, b: string, c: string)
    requires Less(a, b) && Less(b, c)
    ensures Less(a, c)
  {
    if a != "" && a[0] == b[0] == c[0] {
      LessTransitive(a[1..], b[1..], c[1..]);
    }
  }

  lemma {:induction false} LessTotal(a: string, b: string)
    ensures a == b || Less(a, b) || Less(b, a)
  {
    if a != "" && b != "" && a[0] == b[0] {
      LessTotal(a[1..], b[1..]);
      if a[1..] == b[1..] {
        assert a == [a[0]] + a[1..] == [b[0]] + b[1..] == b;
      }
    }
  }

  /** What `sort.Slice` needs of its comparison to mean anything. */
  ghost predicate StrictWeakOrder<T(!new)>(lt: (T, T) -> bool) {
    && (forall x :: !lt(x, x))
    && (forall x, y, z :: lt(x, y) && lt(y, z) ==> lt(x, z))
    && (forall x, y, z :: lt(x, z) ==> lt(x, y) || lt(y, z))
  }

  /** The order that compares one string key of each element. */
  function ByKey<T>(key: T -> string): (lt: (T, T) -> bool) {
    (x, y) => Less(key(x), key(y))
  }

  /** The order that compares `major` and breaks ties by `minor`. */
  function ByKeys<T>(major: T -> string, minor: T -> string): (lt: (T, T) -> bool) {
    (x, y) => if major(x) == major(y) then Less(minor(x), minor(y)) else Less(major(x), major(y))
  }

  lemma LessStrictWeak(a: string, b: string, c: string)
    ensures !Less(a, a)
    ensures Less(a, b) && Less(b, c) ==> Less(a, c)
    ensures Less(a, c) ==> Less(a, b) || Less(b, c)
  {
    LessIrreflexive(a);
    if Less(a, b) && Less(b, c) {
      LessTransitive(a, b, c);
    }
    LessTotal(a, b);
    LessTotal(b, c);
    if Less(a, c) && Less(b, a) {
      LessTransitive(b, a, c);
    }
  }

  lemma ByKeyStrictWeak<T(!new)>(key: T -> string)
    ensures StrictWeakOrder(ByKey(key))
  {
    forall x, y, z
      ensures !ByKey(key)(x, x)
      ensures ByKey(key)(x, y) && ByKey(key)(y, z) ==> ByKey(key)(x, z)
      ensures ByKey(key)(x, z) ==> ByKey(key)(x, y) || ByKey(key)(y, z)
    {
      LessStrictWeak(key(x), key(y), key(z));
    }
  }

  lemma ByKeysStrictWeak<T(!new)>(major: T -> string, minor: T -> string)
    ensures StrictWeakOrder(ByKeys(major, minor))
  {
    var lt := ByKeys(major, minor);
    forall x, y, z
      ensures !lt(x, x)
      ensures lt(x, y) && lt(y, z) ==> lt(x, z)
      ensures lt(x, z) ==> lt(x, y) || lt(y, z)
    {
      LessStrictWeak(major(x), major(y), major(z));
      LessStrictWeak(minor(x), minor(y), minor(z));
      LessStrictWeak(major(x), major(y), major(x));
      LessStrictWeak(major(y), major(z), major(y));
      LessStrictWeak(minor(x), minor(y), minor(x));
      LessTotal(major(x), major(y));
      LessTotal(major(y), major(z));
    }
  }

  ghost predicate Sorted<T(!new)>(s: seq<T>, lt: (T, T) -> bool) {
    forall i, j :: 0 <= i < j < |s| ==> !lt(s[j], s[i])
  }

  /** `r` is one of the results `sort.Slice` may leave when given `s`. */
  ghost predicate IsSorting<T(!new)>(r: seq<T>, s: seq<T>, lt: (T, T) -> bool) {
    multiset(r) == multiset(s) && Sorted(r, lt)
  }

  /** Distinct elements of `s` never tie. */
  ghost predicate Separates<T(!new)>(s: seq<T>, lt: (T, T) -> bool) {
    forall x, y :: x in s && y in s && x != y ==> lt(x, y) || lt(y, x)
  }

  predicate Distinct<T(==)>(s: seq<T>) {
    forall i, j :: 0 <= i < j < |s| ==> s[i] != s[j]
  }

  /** No two positions of `s` carry the same key. */
  ghost predicate UniqueKeys<T, K>(s: seq<T>, key: T -> K) {
    forall i, j :: 0 <= i < j < |s| ==> key(s[i]) != key(s[j])
  }

  lemma TailMultiset<T>(s: seq<T>)
    requires s != []
    ensures multiset(s) == multiset(s[1..]) + multiset{s[0]}
    ensures multiset(s[1..]) == multiset(s) - multiset{s[0]}
  {
    assert s == [s[0]] + s[1..];
  }

  lemma InsertAtMultiset<T>(r: seq<T>, k: nat, x: T)
    requires k <= |r|
    ensures multiset(r[..k] + [x] + r[k..]) == multiset(r) + multiset{x}
  {
    assert r == r[..k] + r[k..];
  }

  lemma InsertAtKeepsSorted<T(!new)>(r: seq<T>, k: nat, x: T, lt: (T, T) -> bool)
    requires StrictWeakOrder(lt) && k <= |r| && Sorted(r, lt)
    requires forall j :: 0 <= j < k ==> !lt(x, r[j])
    requires k < |r| ==> lt(x, r[k])
    ensures Sorted(r[..k] + [x] + r[k..], lt)
  {
    forall j | k <= j < |r|
      ensures !lt(r[j], x)
    {
      var a, b := r[j], r[k];
      assert lt(a, x) && lt(x, b) ==> lt(a, b);
    }
  }

  /** Behind every element that does not have to follow `x`. */
  function InsertionPoint<T>(s: seq<T>, x: T, lt: (T, T) -> bool): (k: nat)
    ensures k <= |s| && (forall j :: 0 <= j < k ==> !lt(x, s[j])) && (k < |s| ==> lt(x, s[k]))
  {
    if s == [] || lt(x, s[0]) then 0 else 1 + InsertionPoint(s[1..], x, lt)
  }

  lemma {:induction false} SortingExists<T(!new)>(s: seq<T>, lt: (T, T) -> bool) returns (r: seq<T>)
    requires StrictWeakOrder(lt)
    ensures IsSorting(r, s, lt)
  {
    if s == [] {
      r := [];
    } else {
      var rest := SortingExists(s[1..], lt);
      var k := InsertionPoint(rest, s[0], lt);
      InsertAtKeepsSorted(rest, k, s[0], lt);
      InsertAtMultiset(rest, k, s[0]);
      TailMultiset(s);
      r := rest[..k] + [s[0]] + rest[k..];
    }
  }

  lemma SortingPossible<T(!new)>(s: seq<T>, lt: (T, T) -> bool)
    requires StrictWeakOrder(lt)
    ensures exists r :: IsSorting(r, s, lt)
  {
    var r := SortingExists(s, lt);
  }

  /** `sort.Slice(s, lt)`: some inversion-free permutation of `s`. */
  ghost function SortSlice<T(!new)>(s: seq<T>, lt: (T, T) -> bool): (r: seq<T>)
    requires StrictWeakOrder(lt)
    ensures IsSorting(r, s, lt)
  {
    SortingPossible(s, lt);
    var r :| IsSorting(r, s, lt);
    r
  }

  /** Insertion behind every element that does not have to follow `x`. */
  method Insert<T(!new)>(r: seq<T>, x: T, lt: (T, T) -> bool) returns (r': seq<T>)
    requires StrictWeakOrder(lt) && Sorted(r, lt)
    ensures Sorted(r', lt) && multiset(r') == multiset(r) + multiset{x}
  {
    var k := 0;
    while k < |r| && !lt(x, r[k])
      invariant 0 <= k <= |r|
      invariant forall j :: 0 <= j < k ==> !lt(x, r[j])
    {
      k := k + 1;
    }
    InsertAtKeepsSorted(r, k, x, lt);
    InsertAtMultiset(r, k, x);
    r' := r[..k] + [x] + r[k..];
  }

  /** An executable sort meeting the contract of `sort.Slice`. */
  method Sort<T(!new)>(s: seq<T>, lt: (T, T) -> bool) returns (r: seq<T>)
    requires StrictWeakOrder(lt)
    ensures IsSorting(r, s, lt)
  {
    r := [];
    for i := 0 to |s|
      invariant multiset(r) == multiset(s[..i]) && Sorted(r, lt)
    {
      r := Insert(r, s[i], lt);
      assert s[..i + 1] == s[..i] + [s[i]];
    }
    assert s[..|s|] == s;
  }

  lemma InMultiset<T>(x: T, s: seq<T>)
    ensures x in s <==> x in multiset(s)
  {
  }

  lemma CountTwice<T>(s: seq<T>, i: nat, j: nat)
    requires i < j < |s| && s[i] == s[j]
    ensures multiset(s)[s[i]] >= 2
  {
    assert s == s[..j] + [s[j]] + s[j + 1..];
    assert s[..j][i] in multiset(s[..j]);
  }

  lemma CountOnce<T>(s: seq<T>, i: nat)
    requires i < |s| && s[i] !in s[..i] && s[i] !in s[i + 1..]
    ensures multiset(s)[s[i]] == 1
  {
    assert s == s[..i] + [s[i]] + s[i + 1..];
  }

  function RemoveAt<T>(s: seq<T>, i: nat): seq<T>
    requires i < |s|
  {
    s[..i] + s[i + 1..]
  }

  lemma RemoveAtKeeps<T>(s: seq<T>, i: nat)
    requires i < |s|
    ensures multiset(RemoveAt(s, i)) == multiset(s) - multiset{s[i]}
    ensures forall x :: x in s && x != s[i] ==> x in RemoveAt(s, i)
  {
    var r := RemoveAt(s, i);
    assert s == s[..i] + [s[i]] + s[i + 1..];
    forall x | x in s && x != s[i]
      ensures x in r
    {
      var k :| 0 <= k < |s| && s[k] == x;
      assert x == if k < i then r[k] else r[k - 1];
    }
  }

  lemma DistinctTail<T>(e: seq<T>, x: T)
    requires e != [] && Distinct(e) && x in e[1..]
    ensures x in e && x != e[0]
  {
    var m :| 0 <= m < |e[1..]| && e[1..][m] == x;
    assert e[m + 1] == x;
  }

  lemma RemoveAtKeepsDistinct<T>(s: seq<T>, i: nat)
    requires i < |s| && Distinct(s)
    ensures Distinct(RemoveAt(s, i))
  {
  }

  lemma TailIncluded<T>(a: seq<T>, e: seq<T>, i: nat)
    requires e != [] && Distinct(e) && i < |a| && a[i] == e[0] && forall x :: x in e ==> x in a
    ensures forall x :: x in e[1..] ==> x in RemoveAt(a, i)
  {
    RemoveAtKeeps(a, i);
    forall x | x in e[1..]
      ensures x in RemoveAt(a, i)
    {
      DistinctTail(e, x);
    }
  }

  /** Two repeat-free lists of one length, one included in the other, are permutations. */
  lemma {:induction false} DistinctInclusion<T>(a: seq<T>, e: seq<T>)
    requires Distinct(a) && Distinct(e) && |a| == |e| && forall x :: x in e ==> x in a
    ensures multiset(a) == multiset(e)
  {
    if e != [] {
      assert e[0] in e && e[0] in a;
      var i :| 0 <= i < |a| && a[i] == e[0];
      RemoveAtKeeps(a, i);
      RemoveAtKeepsDistinct(a, i);
      TailIncluded(a, e, i);
      DistinctInclusion(RemoveAt(a, i), e[1..]);
      TailMultiset(e);
      assert multiset{a[i]} <= multiset(a);
    }
  }

  lemma UniqueKeysPermute<T, K>(r: seq<T>, s: seq<T>, key: T -> K)
    requires multiset(r) == multiset(s) && UniqueKeys(s, key)
    ensures UniqueKeys(r, key)
  {
    forall i, j | 0 <= i < j < |r|
      ensures key(r[i]) != key(r[j])
    {
      InMultiset(r[i], r);
      InMultiset(r[j], r);
      InMultiset(r[i], s);
      InMultiset(r[j], s);
      var a :| 0 <= a < |s| && s[a] == r[i];
      var b :| 0 <= b < |s| && s[b] == r[j];
      if r[i] == r[j] {
        CountTwice(r, i, j);
        CountOnce(s, a);
      }
    }
  }

  lemma FirstsAgree<T(!new)>(r: seq<T>, t: seq<T>, lt: (T, T) -> bool)
    requires r != [] && multiset(r) == multiset(t) && Sorted(r, lt) && Sorted(t, lt) && Separates(r, lt)
    ensures |t| == |r| && r[0] == t[0]
  {
    assert |t| == |multiset(t)| == |multiset(r)| == |r|;
    InMultiset(r[0], r);
    InMultiset(r[0], t);
    InMultiset(t[0], t);
    InMultiset(t[0], r);
    var i :| 0 <= i < |t| && t[i] == r[0];
    var j :| 0 <= j < |r| && r[j] == t[0];
  }

  /** With no ties, all inversion-free permutations of the same elements coincide. */
  lemma {:induction false} SortingUnique<T(!new)>(r: seq<T>, t: seq<T>, lt: (T, T) -> bool)
    requires multiset(r) == multiset(t)
    requires Sorted(r, lt) && Sorted(t, lt) && Separates(r, lt)
    ensures r == t
  {
    if r == [] {
      assert |t| == |multiset(t)| == 0;
    } else {
      FirstsAgree(r, t, lt);
      TailMultiset(r);
      TailMultiset(t);
      assert Separates(r[1..], lt) by {
        assert forall x :: x in r[1..] ==> x in r;
      }
      SortingUnique(r[1..], t[1..], lt);
      assert r == [r[0]] + r[1..] && t == [t[0]] + t[1..];
    }
  }

  /** Sorting is insensitive to the order of its input whenever the order separates the elements. */
  lemma SortSliceOrderFree<T(!new)>(s: seq<T>, t: seq<T>, lt: (T, T) -> bool)
    requires StrictWeakOrder(lt) && multiset(s) == multiset(t) && Separates(s, lt)
    ensures SortSlice(s, lt) == SortSlice(t, lt)
  {
    var r := SortSlice(s, lt);
    forall x | x in r
      ensures x in s
    {
      InMultiset(x, r);
      InMultiset(x, s);
    }
    SortingUnique(r, SortSlice(t, lt), lt);
  }

  lemma UniqueKeysSeparate<T(!new)>(s: seq<T>, key: T -> string)
    requires UniqueKeys(s, key)
    ensures Separates(s, ByKey(key))
  {
    forall x, y | x in s && y in s && x != y
      ensures ByKey(key)(x, y) || ByKey(key)(y, x)
    {
      var i :| 0 <= i < |s| && s[i] == x;
      var j :| 0 <= j < |s| && s[j] == y;
      LessTotal(key(x), key(y));
    }
  }

  // ----- Mapping

  function Map<T, U>(f: T -> U, s: seq<T>): (r: seq<U>)
    ensures |r| == |s| && forall i :: 0 <= i < |s| ==> r[i] == f(s[i])
  {
    seq(|s|, i requires 0 <= i < |s| => f(s[i]))
  }

  lemma MapRemoveAt<T, U>(f: T -> U, s: seq<T>, i: nat)
    requires i < |s|
    ensures multiset(Map(f, s)) == multiset(Map(f, RemoveAt(s, i))) + multiset{f(s[i])}
  {
    var mapped := Map(f, s);
    assert Map(f, RemoveAt(s, i)) == RemoveAt(mapped, i);
    assert mapped == mapped[..i] + [mapped[i]] + mapped[i + 1..];
  }

  /** Mapping commutes with reordering. */
  lemma {:induction false} MapPermute<T, U>(f: T -> U, s: seq<T>, t: seq<T>)
    requires multiset(s) == multiset(t)
    ensures multiset(Map(f, s)) == multiset(Map(f, t))
  {
    assert |s| == |multiset(s)| == |multiset(t)| == |t|;
    if s != [] {
      InMultiset(s[0], s);
      InMultiset(s[0], t);
      var i :| 0 <= i < |t| && t[i] == s[0];
      RemoveAtKeeps(s, 0);
      RemoveAtKeeps(t, i);
      MapPermute(f, RemoveAt(s, 0), RemoveAt(t, i));
      MapRemoveAt(f, s, 0);
      MapRemoveAt(f, t, i);
    }
  }
}
