// Which failures a task may retry (transient in orchestration/ingestion.py): a walk along the chain of
// causes that may run into a cycle.
module Transience {
  import opened Base

  /** How the classifier sees an exception's type: never retried, safe to retry, or neither. */
  datatype Kind = Fatal | Passing | Neutral

  /** Exceptions refer to their cause by position. */
  datatype Raised = Raised(kind: Kind, cause: Option<nat>)

  predicate Linked(raised: seq<Raised>) {
    forall i | 0 <= i < |raised| && raised[i].cause.Some? :: raised[i].cause.value < |raised|
  }

  /** The n-th cause of exception e; the 0-th is e itself. */
  function Cause(raised: seq<Raised>, e: nat, n: nat): (c: Option<nat>)
    requires Linked(raised) && e < |raised|
    ensures c.Some? ==> c.value < |raised|
  {
    if n == 0 then Some(e)
    else if Cause(raised, e, n - 1).None? then None
    else raised[Cause(raised, e, n - 1).value].cause
  }

  ghost predicate OnChain(raised: seq<Raised>, e: nat, kind: Kind)
    requires Linked(raised) && e < |raised|
  {
    exists n: nat :: Cause(raised, e, n).Some? && raised[Cause(raised, e, n).value].kind == kind
  }

  /** The chain so far, without repetition. */
  ghost predicate Walked(raised: seq<Raised>, e: nat, causes: seq<nat>)
    requires Linked(raised) && e < |raised|
  {
    && (forall n | 0 <= n < |causes| :: Cause(raised, e, n) == Some(causes[n]))
    && (forall i, j | 0 <= i < j < |causes| :: causes[i] != causes[j])
  }

  /** Once the walk meets an exception it has seen, or no cause, it has seen the whole chain. */
  lemma {:induction false} ChainEnds(raised: seq<Raised>, e: nat, causes: seq<nat>, n: nat)
    requires Linked(raised) && e < |raised| && Walked(raised, e, causes)
    requires Cause(raised, e, |causes|).None? || Cause(raised, e, |causes|).value in causes
    ensures Cause(raised, e, n).Some? ==> Cause(raised, e, n).value in causes
  {
    if n > |causes| {
      ChainEnds(raised, e, causes, n - 1);
      if Cause(raised, e, n - 1).Some? {
        var i :| 0 <= i < |causes| && causes[i] == Cause(raised, e, n - 1).value;
        assert Cause(raised, e, i + 1) == raised[causes[i]].cause == Cause(raised, e, n);
        if i + 1 < |causes| {
          assert causes[i + 1] in causes;
        }
      }
    }
  }

  lemma NoRoomLeft(s: seq<nat>, n: nat)
    requires forall i | 0 <= i < |s| :: s[i] < n
    requires forall i, j | 0 <= i < j < |s| :: s[i] != s[j]
    ensures |s| <= n
  {
    Distinct(s);
    FirstNaturals(set i | 0 <= i < |s| :: s[i], n);
  }

  lemma {:induction false} Distinct(s: seq<nat>)
    requires forall i, j | 0 <= i < j < |s| :: s[i] != s[j]
    ensures |set i | 0 <= i < |s| :: s[i]| == |s|
  {
    if s != [] {
      var front, last := s[..|s| - 1], s[|s| - 1];
      Distinct(front);
      assert (set i | 0 <= i < |s| :: s[i]) == (set i | 0 <= i < |front| :: front[i]) + {last};
    }
  }

  /** transient: it ends on every chain, cyclic or not, and looks at exactly the causes on it. */
  method Transient(raised: seq<Raised>, e: nat) returns (r: bool)
    requires Linked(raised) && e < |raised|
    ensures r <==> !OnChain(raised, e, Fatal) && OnChain(raised, e, Passing)
  {
    var causes: seq<nat> := [];
    var current := Some(e);
    while current.Some? && current.value !in causes
      invariant Walked(raised, e, causes) && current == Cause(raised, e, |causes|)
      invariant forall i | 0 <= i < |causes| :: causes[i] < |raised|
      decreases |raised| + 1 - |causes|
    {
      causes := causes + [current.value];
      NoRoomLeft(causes, |raised|);
      current := raised[current.value].cause;
    }
    forall n: nat
      ensures Cause(raised, e, n).Some? ==> Cause(raised, e, n).value in causes
    {
      ChainEnds(raised, e, causes, n);
    }
    r := (forall i | 0 <= i < |causes| :: raised[causes[i]].kind != Fatal)
         && (exists i :: 0 <= i < |causes| && raised[causes[i]].kind == Passing);
    if i :| 0 <= i < |causes| && raised[causes[i]].kind == Passing {
      assert Cause(raised, e, i) == Some(causes[i]);
    }
    if i :| 0 <= i < |causes| && raised[causes[i]].kind == Fatal {
      assert Cause(raised, e, i) == Some(causes[i]);
    }
  }
}
