// Small vocabulary shared by every module: optional values, results, and
// order-preserving selection from a sequence.
module Base {
  datatype Option<+T> = None | Some(value: T)

  datatype Result<+T, +E> = Ok(value: T) | Err(error: E)

  /** The elements of `s` satisfying `keep`, in their original order (SQL's WHERE). */
  function Where<T>(s: seq<T>, keep: T -> bool): (r: seq<T>)
    ensures |r| <= |s|
  {
    if s == [] then []
    else
      var front := Where(s[..|s| - 1], keep);
      if keep(s[|s| - 1]) then front + [s[|s| - 1]] else front
  }

  lemma {:induction false} WhereConcat<T>(a: seq<T>, b: seq<T>, keep: T -> bool)
    ensures Where(a + b, keep) == Where(a, keep) + Where(b, keep)
  {
    if b == [] {
      assert a + b == a;
    } else {
      var s := a + b;
      assert s[..|s| - 1] == a + b[..|b| - 1];
      WhereConcat(a, b[..|b| - 1], keep);
    }
  }

  lemma {:induction false} WhereMember<T>(s: seq<T>, keep: T -> bool, e: T)
    ensures e in Where(s, keep) <==> e in s && keep(e)
  {
    if s != [] {
      WhereMember(s[..|s| - 1], keep, e);
      assert s == s[..|s| - 1] + [s[|s| - 1]];
    }
  }

  lemma {:induction false} WhereAll<T>(s: seq<T>, keep: T -> bool)
    requires forall e :: e in s ==> keep(e)
    ensures Where(s, keep) == s
  {
    if s != [] {
      WhereAll(s[..|s| - 1], keep);
    }
  }

  lemma {:induction false} WhereNone<T>(s: seq<T>, keep: T -> bool)
    requires forall e :: e in s ==> !keep(e)
    ensures Where(s, keep) == []
  {
    if s != [] {
      WhereNone(s[..|s| - 1], keep);
    }
  }

  lemma {:induction false} WhereCounts<T>(s: seq<T>, keep: T -> bool, e: T)
    ensures multiset(Where(s, keep))[e] == if keep(e) then multiset(s)[e] else 0
  {
    if s != [] {
      var front, last := s[..|s| - 1], s[|s| - 1];
      assert s == front + [last];
      WhereCounts(front, keep, e);
    }
  }

  lemma WherePermutes<T(!new)>(a: seq<T>, b: seq<T>, keep: T -> bool)
    requires multiset(a) == multiset(b)
    ensures multiset(Where(a, keep)) == multiset(Where(b, keep))
  {
    forall e
      ensures multiset(Where(a, keep))[e] == multiset(Where(b, keep))[e]
    {
      WhereCounts(a, keep, e);
      WhereCounts(b, keep, e);
    }
  }

  /** Selections by two predicates that agree on `s` are the same. */
  lemma {:induction false} WhereAgree<T>(s: seq<T>, keep: T -> bool, keep': T -> bool)
    requires forall e :: e in s ==> keep(e) == keep'(e)
    ensures Where(s, keep) == Where(s, keep')
  {
    if s != [] {
      WhereAgree(s[..|s| - 1], keep, keep');
    }
  }

  /** There are at most n naturals below n. */
  lemma {:induction false} FirstNaturals(ts: set<nat>, n: nat)
    requires forall t | t in ts :: t < n
    ensures |ts| <= n
    decreases n
  {
    if n == 0 {
      assert ts == {};
    } else {
      FirstNaturals(ts - {n - 1}, n - 1);
    }
  }
}
