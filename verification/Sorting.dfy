// Python's sorted(..., key=...) on keys that compare as numbers, and the fact that makes its
// result independent of the order of its input.
module Sorting {

  ghost predicate Ascending<T>(key: T -> real, s: seq<T>) {
    forall i, j | 0 <= i < j < |s| :: key(s[i]) <= key(s[j])
  }

  ghost predicate StrictlyAscending<T>(key: T -> real, s: seq<T>) {
    forall i, j | 0 <= i < j < |s| :: key(s[i]) < key(s[j])
  }

  ghost predicate DistinctKeys<T>(key: T -> real, s: seq<T>) {
    forall i, j | 0 <= i < j < |s| :: key(s[i]) != key(s[j])
  }

  /** Insert after every element whose key is not larger: the stable position. */
  function Insert<T>(key: T -> real, s: seq<T>, e: T): seq<T> {
    if s == [] || key(s[|s| - 1]) <= key(e) then s + [e]
    else Insert(key, s[..|s| - 1], e) + [s[|s| - 1]]
  }

  function SortBy<T>(key: T -> real, s: seq<T>): seq<T> {
    if s == [] then [] else Insert(key, SortBy(key, s[..|s| - 1]), s[|s| - 1])
  }

  lemma MultisetOfAppend<T>(s: seq<T>, e: T)
    ensures multiset(s + [e]) == multiset(s) + multiset{e}
  {
  }

  lemma {:induction false} InsertContents<T>(key: T -> real, s: seq<T>, e: T)
    ensures multiset(Insert(key, s, e)) == multiset(s) + multiset{e}
  {
    if s != [] && key(s[|s| - 1]) > key(e) {
      var front, last := s[..|s| - 1], s[|s| - 1];
      assert s == front + [last];
      InsertContents(key, front, e);
      MultisetOfAppend(front, last);
      MultisetOfAppend(Insert(key, front, e), last);
    } else {
      MultisetOfAppend(s, e);
    }
  }

  lemma {:induction false} InsertSorted<T>(key: T -> real, s: seq<T>, e: T)
    requires Ascending(key, s)
    ensures Ascending(key, Insert(key, s, e))
  {
    if s != [] && key(s[|s| - 1]) > key(e) {
      var front, last := s[..|s| - 1], s[|s| - 1];
      InsertSorted(key, front, e);
      InsertContents(key, front, e);
      var r := Insert(key, front, e);
      forall i | 0 <= i < |r|
        ensures key(r[i]) <= key(last)
      {
        assert r[i] in multiset(front) + multiset{e};
        assert r[i] in front || r[i] == e;
      }
    }
  }

  lemma {:induction false} SortByCorrect<T>(key: T -> real, s: seq<T>)
    ensures Ascending(key, SortBy(key, s))
    ensures multiset(SortBy(key, s)) == multiset(s)
  {
    if s != [] {
      SortByCorrect(key, s[..|s| - 1]);
      InsertSorted(key, SortBy(key, s[..|s| - 1]), s[|s| - 1]);
      InsertContents(key, SortBy(key, s[..|s| - 1]), s[|s| - 1]);
      assert s == s[..|s| - 1] + [s[|s| - 1]];
    }
  }

  lemma SameLength<T>(a: seq<T>, b: seq<T>)
    requires multiset(a) == multiset(b)
    ensures |a| == |b|
  {
    assert |multiset(a)| == |a| && |multiset(b)| == |b|;
  }

  lemma SameKeySameElement<T>(key: T -> real, s: seq<T>, x: T, y: T)
    requires DistinctKeys(key, s) && x in s && y in s && key(x) == key(y)
    ensures x == y
  {
  }

  lemma MultisetDistinct<T>(key: T -> real, a: seq<T>, b: seq<T>)
    requires multiset(a) == multiset(b) && DistinctKeys(key, a) && Ascending(key, b)
    ensures StrictlyAscending(key, b)
  {
    forall i, j | 0 <= i < j < |b|
      ensures key(b[i]) < key(b[j])
    {
      assert b[i] in multiset(a) && b[j] in multiset(a);
      TwoPlaces(b, i, j);
      OnePlace(key, a, b[i]);
      if key(b[i]) == key(b[j]) {
        SameKeySameElement(key, a, b[i], b[j]);
      }
    }
  }

  lemma TwoPlaces<T>(s: seq<T>, i: nat, j: nat)
    requires i < j < |s|
    ensures s[i] == s[j] ==> multiset(s)[s[i]] >= 2
  {
    assert s == s[..i] + [s[i]] + s[i + 1..j] + [s[j]] + s[j + 1..];
  }

  lemma {:induction false} OnePlace<T>(key: T -> real, s: seq<T>, e: T)
    requires DistinctKeys(key, s)
    ensures multiset(s)[e] <= 1
  {
    if s != [] {
      var front, last := s[..|s| - 1], s[|s| - 1];
      assert s == front + [last];
      OnePlace(key, front, e);
      if last == e {
        assert e !in front;
      }
    }
  }

  lemma LargestIsLast<T>(key: T -> real, s: seq<T>, e: T)
    requires StrictlyAscending(key, s) && e in s
    ensures key(e) <= key(s[|s| - 1])
    ensures key(e) == key(s[|s| - 1]) ==> e == s[|s| - 1]
  {
  }

  lemma DropLast<T>(s: seq<T>)
    requires s != []
    ensures multiset(s[..|s| - 1]) == multiset(s) - multiset{s[|s| - 1]}
  {
    assert s == s[..|s| - 1] + [s[|s| - 1]];
  }

  lemma SameLast<T>(key: T -> real, a: seq<T>, b: seq<T>)
    requires StrictlyAscending(key, a) && StrictlyAscending(key, b)
    requires multiset(a) == multiset(b) && |a| == |b| > 0
    ensures a[|a| - 1] == b[|b| - 1]
  {
    assert a[|a| - 1] in multiset(b) && b[|b| - 1] in multiset(a);
    LargestIsLast(key, a, b[|b| - 1]);
    LargestIsLast(key, b, a[|a| - 1]);
  }

  lemma PrefixAscends<T>(key: T -> real, s: seq<T>)
    requires StrictlyAscending(key, s) && s != []
    ensures StrictlyAscending(key, s[..|s| - 1])
  {
    var front := s[..|s| - 1];
    forall i, j | 0 <= i < j < |front|
      ensures key(front[i]) < key(front[j])
    {
      assert front[i] == s[i] && front[j] == s[j];
    }
  }

  /** Two strictly ascending arrangements of the same elements are the same sequence. */
  lemma {:induction false} ArrangementUnique<T>(key: T -> real, a: seq<T>, b: seq<T>)
    requires StrictlyAscending(key, a) && StrictlyAscending(key, b)
    requires multiset(a) == multiset(b)
    ensures a == b
    decreases |a|
  {
    SameLength(a, b);
    if a != [] {
      SameLast(key, a, b);
      DropLast(a);
      DropLast(b);
      PrefixAscends(key, a);
      PrefixAscends(key, b);
      var a', b' := a[..|a| - 1], b[..|b| - 1];
      ArrangementUnique(key, a', b');
      assert a == a' + [a[|a| - 1]] && b == b' + [b[|b| - 1]];
    }
  }

  /** Sorting forgets the input order when the keys are distinct. */
  lemma SortByOrderFree<T>(key: T -> real, a: seq<T>, b: seq<T>)
    requires multiset(a) == multiset(b) && DistinctKeys(key, a)
    ensures SortBy(key, a) == SortBy(key, b)
  {
    SortByCorrect(key, a);
    SortByCorrect(key, b);
    MultisetDistinct(key, a, SortBy(key, a));
    MultisetDistinct(key, a, SortBy(key, b));
    ArrangementUnique(key, SortBy(key, a), SortBy(key, b));
  }
}
