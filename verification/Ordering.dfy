/** Python's ordering primitives: code-point order on strings and the stable sort behind
    `sorted(...)` and `list.sort(...)`. The tools rely on both for deterministic output. */
module Ordering {

  /** Code-point order on strings, as Python compares `str` values. */
  predicate LexLe(a: string, b: string)
  {
    |a| == 0 || (|b| > 0 && (a[0] < b[0] || (a[0] == b[0] && LexLe(a[1..], b[1..]))))
  }

  lemma LexTotal(a: string, b: string)
    ensures LexLe(a, b) || LexLe(b, a)
  {
    if |a| > 0 && |b| > 0 && a[0] == b[0] {
      LexTotal(a[1..], b[1..]);
    }
  }

  lemma LexAntisymmetric(a: string, b: string)
    requires LexLe(a, b) && LexLe(b, a)
    ensures a == b
  {
    if |a| == 0 {
    } else {
      LexAntisymmetric(a[1..], b[1..]);
      assert a == [a[0]] + a[1..] && b == [b[0]] + b[1..];
    }
  }

  lemma LexTransitive(a: string, b: string, c: string)
    requires LexLe(a, b) && LexLe(b, c)
    ensures LexLe(a, c)
  {
    if |a| > 0 && a[0] == b[0] == c[0] {
      LexTransitive(a[1..], b[1..], c[1..]);
    }
  }

  /** Strictly before, in code-point order. */
  predicate LexLt(a: string, b: string)
  {
    LexLe(a, b) && a != b
  }

  ghost predicate TotalPreorder<T(!new)>(le: (T, T) -> bool)
  {
    && (forall x, y :: le(x, y) || le(y, x))
    && (forall x, y, z :: le(x, y) && le(y, z) ==> le(x, z))
  }

  lemma LexIsTotalPreorder()
    ensures TotalPreorder(LexLe)
  {
    forall x, y ensures LexLe(x, y) || LexLe(y, x) { LexTotal(x, y); }
    forall x, y, z | LexLe(x, y) && LexLe(y, z) ensures LexLe(x, z) { LexTransitive(x, y, z); }
  }

  ghost predicate Sorted<T>(le: (T, T) -> bool, s: seq<T>)
  {
    forall i, j :: 0 <= i < j < |s| ==> le(s[i], s[j])
  }

  /** No element occurs twice. */
  ghost predicate Distinct(s: seq<string>)
  {
    forall i, j :: 0 <= i < j < |s| ==> s[i] != s[j]
  }

  ghost predicate StrictlyIncreasing(s: seq<string>)
  {
    forall i, j :: 0 <= i < j < |s| ==> LexLt(s[i], s[j])
  }

  // ---------------------------------------------------------------- stable sort

  /** Put x after every element that may precede it. */
  function Insert<T>(le: (T, T) -> bool, s: seq<T>, x: T): (r: seq<T>)
  {
    if |s| == 0 || le(s[|s| - 1], x) then s + [x]
    else Insert(le, s[..|s| - 1], x) + [s[|s| - 1]]
  }

  /** The stable sort: elements that compare equal keep their order. */
  function StableSort<T>(le: (T, T) -> bool, s: seq<T>): (r: seq<T>)
  {
    if |s| == 0 then [] else Insert(le, StableSort(le, s[..|s| - 1]), s[|s| - 1])
  }

  lemma InsertPermutes<T>(le: (T, T) -> bool, s: seq<T>, x: T)
    ensures multiset(Insert(le, s, x)) == multiset(s) + multiset{x}
    ensures |Insert(le, s, x)| == |s| + 1
  {
    if |s| == 0 || le(s[|s| - 1], x) {
    } else {
      InsertPermutes(le, s[..|s| - 1], x);
      assert s == s[..|s| - 1] + [s[|s| - 1]];
    }
  }

  lemma InsertSorted<T(!new)>(le: (T, T) -> bool, s: seq<T>, x: T)
    requires TotalPreorder(le) && Sorted(le, s)
    ensures Sorted(le, Insert(le, s, x))
  {
    if |s| == 0 || le(s[|s| - 1], x) {
    } else {
      var t := s[..|s| - 1];
      var last := s[|s| - 1];
      InsertSorted(le, t, x);
      InsertPermutes(le, t, x);
      var r := Insert(le, t, x);
      forall i | 0 <= i < |r| ensures le(r[i], last) {
        assert r[i] in multiset(r);
        assert r[i] in multiset(t) || r[i] == x;
        if r[i] in multiset(t) {
          assert r[i] in t;
          var k :| 0 <= k < |t| && t[k] == r[i];
          assert le(s[k], s[|s| - 1]);
        }
      }
    }
  }

  lemma StableSortPermutes<T>(le: (T, T) -> bool, s: seq<T>)
    ensures multiset(StableSort(le, s)) == multiset(s)
    ensures |StableSort(le, s)| == |s|
  {
    if |s| == 0 {
    } else {
      StableSortPermutes(le, s[..|s| - 1]);
      InsertPermutes(le, StableSort(le, s[..|s| - 1]), s[|s| - 1]);
      assert s == s[..|s| - 1] + [s[|s| - 1]];
    }
  }

  lemma StableSortSorted<T(!new)>(le: (T, T) -> bool, s: seq<T>)
    requires TotalPreorder(le)
    ensures Sorted(le, StableSort(le, s))
  {
    if |s| == 0 {
    } else {
      StableSortSorted(le, s[..|s| - 1]);
      InsertSorted(le, StableSort(le, s[..|s| - 1]), s[|s| - 1]);
    }
  }

  /** The elements of s that compare equal to p, in order. */
  function Class<T>(le: (T, T) -> bool, s: seq<T>, p: T): (r: seq<T>)
  {
    if |s| == 0 then []
    else
      var rest := Class(le, s[..|s| - 1], p);
      var last := s[|s| - 1];
      if le(last, p) && le(p, last) then rest + [last] else rest
  }

  lemma InsertKeepsClasses<T(!new)>(le: (T, T) -> bool, s: seq<T>, x: T, p: T)
    requires TotalPreorder(le)
    ensures Class(le, Insert(le, s, x), p) ==
            Class(le, s, p) + (if le(x, p) && le(p, x) then [x] else [])
  {
    if |s| == 0 || le(s[|s| - 1], x) {
      assert (s + [x])[..|s|] == s;
    } else {
      var t := s[..|s| - 1];
      InsertKeepsClasses(le, t, x, p);
      assert (Insert(le, t, x) + [s[|s| - 1]])[..|Insert(le, t, x)|] == Insert(le, t, x);
    }
  }

  /** Stability: sorting never reorders elements that compare equal. */
  lemma StableSortKeepsClasses<T(!new)>(le: (T, T) -> bool, s: seq<T>, p: T)
    requires TotalPreorder(le)
    ensures Class(le, StableSort(le, s), p) == Class(le, s, p)
  {
    if |s| == 0 {
    } else {
      StableSortKeepsClasses(le, s[..|s| - 1], p);
      InsertKeepsClasses(le, StableSort(le, s[..|s| - 1]), s[|s| - 1], p);
    }
  }

  lemma ClassMember<T>(le: (T, T) -> bool, s: seq<T>, p: T)
    ensures forall x :: x in Class(le, s, p) <==> x in s && le(x, p) && le(p, x)
  {
    if |s| == 0 {
    } else {
      ClassMember(le, s[..|s| - 1], p);
      assert s == s[..|s| - 1] + [s[|s| - 1]];
    }
  }

  lemma SuffixCancels<T>(a: seq<T>, b: seq<T>, c: seq<T>)
    requires a + c == b + c
    ensures a == b
  {
    assert |a| == |b|;
    assert a == (a + c)[..|a|] && b == (b + c)[..|b|];
  }

  /** A sorted arrangement that keeps every class of equal elements in order is the only one. */
  lemma {:induction false} StableArrangementUnique<T(!new)>(le: (T, T) -> bool, a: seq<T>, b: seq<T>)
    requires TotalPreorder(le) && Sorted(le, a) && Sorted(le, b)
    requires forall p :: Class(le, a, p) == Class(le, b, p)
    ensures a == b
    decreases |a|
  {
    if |a| > 0 {
      ClassMember(le, a, a[|a| - 1]);
      ClassMember(le, b, a[|a| - 1]);
      assert a[|a| - 1] in Class(le, b, a[|a| - 1]);
    }
    if |b| > 0 {
      ClassMember(le, a, b[|b| - 1]);
      ClassMember(le, b, b[|b| - 1]);
      assert b[|b| - 1] in Class(le, a, b[|b| - 1]);
    }
    if |a| > 0 {
      var x, y := a[|a| - 1], b[|b| - 1];
      assert le(y, x) && le(x, y);
      assert Class(le, a, x)[|Class(le, a, x)| - 1] == x;
      assert Class(le, b, x)[|Class(le, b, x)| - 1] == y;
      assert x == y;
      var a', b' := a[..|a| - 1], b[..|b| - 1];
      forall p ensures Class(le, a', p) == Class(le, b', p) {
        calc {
          Class(le, a', p) + (if le(x, p) && le(p, x) then [x] else []);
          Class(le, a, p);
          Class(le, b, p);
          Class(le, b', p) + (if le(x, p) && le(p, x) then [x] else []);
        }
        SuffixCancels(Class(le, a', p), Class(le, b', p), if le(x, p) && le(p, x) then [x] else []);
      }
      StableArrangementUnique(le, a', b');
      assert a == a' + [x] && b == b' + [y];
    }
  }

  lemma {:induction false} ClassWithoutTies<T(!new)>(le: (T, T) -> bool, s: seq<T>, p: T)
    requires TotalPreorder(le) && forall x, y :: le(x, y) && le(y, x) ==> x == y
    ensures Class(le, s, p) == seq(multiset(s)[p], i => p)
  {
    if |s| > 0 {
      var t, x := s[..|s| - 1], s[|s| - 1];
      ClassWithoutTies(le, t, p);
      assert s == t + [x];
    }
  }

  /** Without ties there is only one sorted arrangement. */
  lemma SortedArrangementUnique<T(!new)>(le: (T, T) -> bool, a: seq<T>, b: seq<T>)
    requires TotalPreorder(le) && forall x, y :: le(x, y) && le(y, x) ==> x == y
    requires Sorted(le, a) && Sorted(le, b) && multiset(a) == multiset(b)
    ensures a == b
  {
    forall p ensures Class(le, a, p) == Class(le, b, p) {
      ClassWithoutTies(le, a, p);
      ClassWithoutTies(le, b, p);
    }
    StableArrangementUnique(le, a, b);
  }

  /** Sorting a sorted list changes nothing. */
  lemma SortOfSorted<T(!new)>(le: (T, T) -> bool, s: seq<T>)
    requires TotalPreorder(le) && Sorted(le, s)
    ensures StableSort(le, s) == s
  {
    if |s| > 0 {
      SortOfSorted(le, s[..|s| - 1]);
      assert s == s[..|s| - 1] + [s[|s| - 1]];
      assert |s| > 1 ==> le(s[|s| - 2], s[|s| - 1]);
    }
  }

  /** s is sorted by `le`, with ties in the order `lt`. */
  ghost predicate TieSorted<T>(le: (T, T) -> bool, lt: (T, T) -> bool, s: seq<T>)
  {
    forall i, j :: 0 <= i < j < |s| ==> le(s[i], s[j]) && (le(s[j], s[i]) ==> lt(s[i], s[j]))
  }

  lemma InsertTieSorted<T(!new)>(le: (T, T) -> bool, lt: (T, T) -> bool, s: seq<T>, x: T)
    requires TotalPreorder(le) && TieSorted(le, lt, s) && forall y :: y in s ==> lt(y, x)
    ensures TieSorted(le, lt, Insert(le, s, x))
  {
    if |s| == 0 || le(s[|s| - 1], x) {
    } else {
      var t, last := s[..|s| - 1], s[|s| - 1];
      assert t <= s;
      InsertTieSorted(le, lt, t, x);
      var r := Insert(le, t, x);
      forall i | 0 <= i < |r| ensures le(r[i], last) && (le(last, r[i]) ==> lt(r[i], last)) {
        InsertMember(le, t, x, i);
      }
    }
  }

  lemma InsertMember<T>(le: (T, T) -> bool, s: seq<T>, x: T, i: nat)
    requires i < |Insert(le, s, x)|
    ensures var y := Insert(le, s, x)[i]; y == x || exists k :: 0 <= k < |s| && s[k] == y
  {
    InsertPermutes(le, s, x);
    assert Insert(le, s, x)[i] in multiset(Insert(le, s, x));
  }

  lemma SortMember<T>(le: (T, T) -> bool, s: seq<T>, y: T)
    ensures y in StableSort(le, s) <==> y in s
  {
    StableSortPermutes(le, s);
    assert y in StableSort(le, s) <==> y in multiset(StableSort(le, s));
    assert y in s <==> y in multiset(s);
  }

  /** Sorting a list that is ordered by `lt` breaks ties by `lt`. */
  lemma {:induction false} StableSortBreaksTies<T(!new)>(le: (T, T) -> bool, lt: (T, T) -> bool, s: seq<T>)
    requires TotalPreorder(le) && StrictlySorted(lt, s)
    ensures TieSorted(le, lt, StableSort(le, s))
  {
    if |s| > 0 {
      var t, x := s[..|s| - 1], s[|s| - 1];
      StableSortBreaksTies(le, lt, t);
      forall y | y in StableSort(le, t) ensures lt(y, x) {
        SortMember(le, t, y);
        var k :| 0 <= k < |t| && t[k] == y;
        assert lt(s[k], x);
      }
      InsertTieSorted(le, lt, StableSort(le, t), x);
    }
  }

  /** Removing the last element of a stable sort and continuing keeps the same prefix:
      the step that lets a bounded list agree with sorting everything. */
  lemma InsertPrefix<T(!new)>(le: (T, T) -> bool, s: seq<T>, k: nat, x: T)
    requires TotalPreorder(le) && Sorted(le, s) && k <= |s|
    ensures k <= |Insert(le, s, x)| && |Insert(le, s[..k], x)| == k + 1
    ensures Insert(le, s[..k], x)[..k] == Insert(le, s, x)[..k]
  {
    InsertPermutes(le, s, x);
    InsertPermutes(le, s[..k], x);
    if k == |s| {
      assert s[..k] == s;
    } else if le(s[|s| - 1], x) {
      if k > 0 { assert le(s[k - 1], s[|s| - 1]); }
      assert Insert(le, s, x)[..k] == s[..k];
    } else {
      var t := s[..|s| - 1];
      InsertPrefix(le, t, k, x);
      assert t[..k] == s[..k];
      InsertPermutes(le, t, x);
    }
  }

  // ---------------------------------------------------------------- sorted(set)

  /** r is what `sorted(s)` returns for a set of strings. */
  ghost predicate SortedListOf(r: seq<string>, s: set<string>)
  {
    StrictlyIncreasing(r) && forall x :: x in r <==> x in s
  }

  ghost predicate Asymmetric<T(!new)>(lt: (T, T) -> bool)
  {
    forall x, y :: !(lt(x, y) && lt(y, x))
  }

  ghost predicate StrictlySorted<T>(lt: (T, T) -> bool, s: seq<T>)
  {
    forall i, j :: 0 <= i < j < |s| ==> lt(s[i], s[j])
  }

  lemma StrictInit<T(!new)>(lt: (T, T) -> bool, a: seq<T>, z: T)
    requires Asymmetric(lt) && StrictlySorted(lt, a) && |a| > 0
    ensures z in a[..|a| - 1] <==> z in a && z != a[|a| - 1]
    ensures z in a && z != a[|a| - 1] ==> lt(z, a[|a| - 1])
  {
    var x := a[|a| - 1];
    assert a == a[..|a| - 1] + [x];
    assert z in a[..|a| - 1] ==> lt(z, x);
  }

  /** Two strictly sorted lists with the same elements are the same list. */
  lemma {:induction false} StrictlySortedUnique<T(!new)>(lt: (T, T) -> bool, a: seq<T>, b: seq<T>)
    requires Asymmetric(lt) && StrictlySorted(lt, a) && StrictlySorted(lt, b)
    requires forall z :: z in a <==> z in b
    ensures a == b
    decreases |a|
  {
    assert |a| > 0 ==> a[0] in b;
    assert |b| > 0 ==> b[0] in a;
    if |a| > 0 {
      var x, y := a[|a| - 1], b[|b| - 1];
      assert x in b && y in a;
      StrictInit(lt, a, y);
      StrictInit(lt, b, x);
      assert x == y;
      var a', b' := a[..|a| - 1], b[..|b| - 1];
      forall z ensures z in a' <==> z in b' {
        StrictInit(lt, a, z);
        StrictInit(lt, b, z);
      }
      StrictlySortedUnique(lt, a', b');
      assert a == a' + [x] && b == b' + [y];
    }
  }

  lemma LexLtAsymmetric()
    ensures Asymmetric(LexLt)
  {
    forall x, y ensures !(LexLt(x, y) && LexLt(y, x)) {
      if LexLt(x, y) && LexLt(y, x) {
        LexAntisymmetric(x, y);
      }
    }
  }

  lemma SortedListUnique(a: seq<string>, b: seq<string>, s: set<string>)
    requires SortedListOf(a, s) && SortedListOf(b, s)
    ensures a == b
  {
    LexLtAsymmetric();
    StrictlySortedUnique(LexLt, a, b);
  }

  lemma {:induction false} SortedListExists(s: set<string>) returns (r: seq<string>)
    ensures SortedListOf(r, s)
    decreases |s|
  {
    r := [];
    if s != {} {
      var x :| x in s;
      var rest := SortedListExists(s - {x});
      var items := rest + [x];
      r := StableSort(LexLe, items);
      SortedDistinct(items);
      forall y ensures y in r <==> y in s {
        SortMember(LexLe, items, y);
      }
    }
  }

  /** The value of `sorted(s)` for a set of strings. */
  ghost function SortedList(s: set<string>): (r: seq<string>)
    ensures SortedListOf(r, s)
  {
    assert exists r :: SortedListOf(r, s) by {
      var r := SortedListExists(s);
    }
    var r :| SortedListOf(r, s);
    r
  }

  lemma SortedDistinct(items: seq<string>)
    requires Distinct(items)
    ensures StrictlyIncreasing(StableSort(LexLe, items))
  {
    LexIsTotalPreorder();
    StableSortSorted(LexLe, items);
    StableSortPermutes(LexLe, items);
    DistinctByMultiset(items, StableSort(LexLe, items));
  }

  /** `sorted(s)` on a set of strings. */
  method SortSet(s: set<string>) returns (r: seq<string>)
    ensures SortedListOf(r, s) && r == SortedList(s)
  {
    var rest, items := s, [];
    while rest != {}
      invariant rest <= s
      invariant (forall x :: x in items <==> x in s && x !in rest) && Distinct(items)
      decreases rest
    {
      var x :| x in rest;
      rest, items := rest - {x}, items + [x];
    }
    r := SortStrings(items);
    SortedListUnique(r, SortedList(s), s);
  }

  /** `sorted(items)` on pairwise distinct strings. */
  method SortStrings(items: seq<string>) returns (r: seq<string>)
    requires Distinct(items)
    ensures SortedListOf(r, set x | x in items)
  {
    r := StableSort(LexLe, items);
    SortedDistinct(items);
    forall x ensures x in r <==> x in items {
      SortMember(LexLe, items, x);
    }
  }

  lemma {:induction false} DistinctCountsOnce<T>(a: seq<T>, x: T)
    requires forall i, j :: 0 <= i < j < |a| ==> a[i] != a[j]
    ensures multiset(a)[x] <= 1
  {
    if |a| == 0 {
    } else {
      var a' := a[..|a| - 1];
      DistinctCountsOnce(a', x);
      assert a == a' + [a[|a| - 1]];
      if x == a[|a| - 1] {
        assert x !in a';
      }
    }
  }

  lemma DistinctByMultiset<T>(a: seq<T>, b: seq<T>)
    requires multiset(a) == multiset(b)
    requires forall i, j :: 0 <= i < j < |a| ==> a[i] != a[j]
    ensures forall i, j :: 0 <= i < j < |b| ==> b[i] != b[j]
  {
    forall i, j | 0 <= i < j < |b| ensures b[i] != b[j] {
      var x := b[i];
      DistinctCountsOnce(a, x);
      assert b == b[..i] + [x] + b[i + 1..j] + [b[j]] + b[j + 1..];
    }
  }
}
