// Conservation of counts: what each manifest says it added, what the tables hold, and the totals of the
// ingestion health mart.
module Health {
  import opened Base
  import opened Batches
  import opened Planner
  import opened Facts
  import opened Protocol
  import opened Replay
  import opened Safety
  import opened Refinement
  import opened Guarantees

  function FirstRunIn(group: set<RunId>): Content -> bool {
    (c: Content) => c.firstRun in group
  }

  function StateRunIn(group: set<RunId>): Transition -> bool {
    (t: Transition) => t.run in group
  }

  // ---------- rows per run ----------

  lemma NoRowsOf(x: Externals, log: seq<Batch>, p: Product, run: RunId)
    requires LogOk(x, log)
    requires forall i | 0 <= i < |log| && log[i].request.product == p :: log[i].run != run
    ensures Where(Serial(log, p).contents, FirstRunIn({run})) == []
    ensures Where(Serial(log, p).transitions, StateRunIn({run})) == []
  {
    var serial := Serial(log, p);
    forall c | c in serial.contents
      ensures !FirstRunIn({run})(c)
    {
      var i := ContentOrigin(x, log, p, c);
    }
    forall t | t in serial.transitions
      ensures !StateRunIn({run})(t)
    {
      TransitionOrigin(x, log, p, t);
    }
    WhereNone(serial.contents, FirstRunIn({run}));
    WhereNone(serial.transitions, StateRunIn({run}));
  }

  lemma PlanRows(run: RunId, rows: seq<Row>, snap: Snapshot, other: RunId)
    ensures Where(NewContents(run, rows, snap), FirstRunIn({other})) ==
            if other == run then NewContents(run, rows, snap) else []
    ensures Where(NewTransitions(run, rows, snap), StateRunIn({other})) ==
            if other == run then NewTransitions(run, rows, snap) else []
  {
    PlanOwner(run, rows, snap);
    if other == run {
      WhereAll(NewContents(run, rows, snap), FirstRunIn({other}));
      WhereAll(NewTransitions(run, rows, snap), StateRunIn({other}));
    } else {
      WhereNone(NewContents(run, rows, snap), FirstRunIn({other}));
      WhereNone(NewTransitions(run, rows, snap), StateRunIn({other}));
    }
  }

  lemma ApplyRows(tables: Tables, sequence: nat, batch: Batch, run: RunId)
    ensures var after, snap := Apply(tables, sequence, batch), FullSnapshot(tables, sequence);
            && Where(after.contents, FirstRunIn({run})) ==
               Where(tables.contents, FirstRunIn({run}))
               + (if run == batch.run then NewContents(run, batch.rows, snap) else [])
            && Where(after.transitions, StateRunIn({run})) ==
               Where(tables.transitions, StateRunIn({run}))
               + (if run == batch.run then NewTransitions(run, batch.rows, snap) else [])
  {
    var snap := FullSnapshot(tables, sequence);
    PlanRows(batch.run, batch.rows, snap, run);
    WhereConcat(tables.contents, NewContents(batch.run, batch.rows, snap), FirstRunIn({run}));
    WhereConcat(tables.transitions, NewTransitions(batch.run, batch.rows, snap), StateRunIn({run}));
  }

  function RowsOf(tables: Tables, run: RunId): (int, int) {
    (|Where(tables.contents, FirstRunIn({run}))|, |Where(tables.transitions, StateRunIn({run}))|)
  }

  /** A later batch adds no row of an earlier run. */
  lemma LaterBatch(tables: Tables, sequence: nat, batch: Batch, run: RunId)
    requires run != batch.run
    ensures RowsOf(Apply(tables, sequence, batch), run) == RowsOf(tables, run)
  {
    ApplyRows(tables, sequence, batch, run);
  }

  lemma OwnApply(tables: Tables, sequence: nat, batch: Batch)
    requires Where(tables.contents, FirstRunIn({batch.run})) == []
    requires Where(tables.transitions, StateRunIn({batch.run})) == []
    ensures var after := Apply(tables, sequence, batch);
            RowsOf(after, batch.run) ==
            (|after.contents| - |tables.contents|, |after.transitions| - |tables.transitions|)
  {
    ApplyRows(tables, sequence, batch, batch.run);
  }

  lemma LastRunIsNew(x: Externals, log: seq<Batch>, n: nat)
    requires LogOk(x, log) && n < |log|
    ensures forall i | 0 <= i < |log[..n]| :: log[..n][i].run != log[n].run
  {
    forall i | 0 <= i < |log[..n]|
      ensures log[..n][i].run != log[n].run
    {
      assert log[..n][i] == log[i];
    }
  }

  lemma OwnTables(front: seq<Batch>, batch: Batch)
    requires Where(Serial(front, batch.request.product).contents, FirstRunIn({batch.run})) == []
    requires Where(Serial(front, batch.request.product).transitions, StateRunIn({batch.run})) == []
    ensures RowsOf(Apply(Serial(front, batch.request.product), |front|, batch), batch.run) == Growth(front, batch)
  {
    OwnApply(Serial(front, batch.request.product), |front|, batch);
  }

  lemma OwnBatch(x: Externals, log: seq<Batch>)
    requires LogOk(x, log) && log != []
    ensures var n := |log| - 1; RowsOf(Serial(log, log[n].request.product), log[n].run) == Added(log, n)
  {
    var n := |log| - 1;
    LogOkFront(x, log, n);
    LastRunIsNew(x, log, n);
    NoRowsOf(x, log[..n], log[n].request.product, log[n].run);
    OwnTables(log[..n], log[n]);
  }

  /** The rows of a run are exactly what its batch added. */
  lemma {:induction false} SerialRunCount(x: Externals, log: seq<Batch>, i: nat)
    requires LogOk(x, log) && i < |log|
    ensures RowsOf(Serial(log, log[i].request.product), log[i].run) == Added(log, i)
    decreases |log|
  {
    var n := |log| - 1;
    LogOkFront(x, log, n);
    if i < n {
      SerialRunCount(x, log[..n], i);
      assert log[..n][..i] == log[..i];
      LaterBatch(Serial(log[..n], log[i].request.product), n, log[n], log[i].run);
    } else {
      OwnBatch(x, log);
    }
  }

  lemma {:induction false} StampedCount(cs: seq<Content>, runs: map<RunId, Run>, group: set<RunId>)
    ensures |Where(StampedContents(cs, runs), FirstRunIn(group))| == |Where(cs, FirstRunIn(group))|
  {
    if cs != [] {
      assert StampedContents(cs, runs)[..|cs| - 1] == StampedContents(cs[..|cs| - 1], runs);
      StampedCount(cs[..|cs| - 1], runs, group);
    }
  }

  lemma {:induction false} StampedStateCount(ts: seq<Transition>, runs: map<RunId, Run>, group: set<RunId>)
    ensures |Where(StampedTransitions(ts, runs), StateRunIn(group))| == |Where(ts, StateRunIn(group))|
  {
    if ts != [] {
      assert StampedTransitions(ts, runs)[..|ts| - 1] == StampedTransitions(ts[..|ts| - 1], runs);
      StampedStateCount(ts[..|ts| - 1], runs, group);
    }
  }

  // ---------- the mart ----------

  /** The new contents the SUCCEEDED manifests of a group count in all. */
  ghost function SuccessfulNewContents(runs: map<RunId, Run>, group: set<RunId>): nat {
    if group == {} then 0
    else
      var run :| run in group;
      (if Eligible(runs, run) && runs[run].newContents.Some? then runs[run].newContents.value else 0)
      + SuccessfulNewContents(runs, group - {run})
  }

  /** The new transitions they count in all. */
  ghost function SuccessfulNewTransitions(runs: map<RunId, Run>, group: set<RunId>): nat {
    if group == {} then 0
    else
      var run :| run in group;
      (if Eligible(runs, run) && runs[run].newTransitions.Some? then runs[run].newTransitions.value else 0)
      + SuccessfulNewTransitions(runs, group - {run})
  }

  /** One group of the mart: source is constant, the other grouping columns are the request. */
  function Group(runs: map<RunId, Run>, request: Request): set<RunId> {
    set run | run in runs && runs[run].request == request
  }

  /** The groups of the mart for one product. */
  function RequestsOf(runs: map<RunId, Run>, p: Product): set<Request> {
    set run | run in OfProduct(runs, p) :: runs[run].request
  }

  /** The manifests of several groups together. */
  function Grouped(runs: map<RunId, Run>, requests: set<Request>): set<RunId> {
    set run | run in runs && runs[run].request in requests
  }

  ghost function SumOfNewContents(runs: map<RunId, Run>, requests: set<Request>): nat {
    if requests == {} then 0
    else
      var q :| q in requests;
      SuccessfulNewContents(runs, Group(runs, q)) + SumOfNewContents(runs, requests - {q})
  }

  ghost function SumOfNewTransitions(runs: map<RunId, Run>, requests: set<Request>): nat {
    if requests == {} then 0
    else
      var q :| q in requests;
      SuccessfulNewTransitions(runs, Group(runs, q)) + SumOfNewTransitions(runs, requests - {q})
  }

  function OfProduct(runs: map<RunId, Run>, p: Product): set<RunId> {
    set run | run in runs && runs[run].request.product == p
  }

  lemma StagedRows(x: Externals, s: State, p: Product, run: RunId)
    requires Inv(x, s)
    ensures (|Where(StagedContents(s.runs, s.Of(p)), FirstRunIn({run}))|,
             |Where(StagedTransitions(s.runs, s.Of(p)), StateRunIn({run}))|)
            == RowsOf(Serial(Final(s), p), run)
  {
    var serial := Serial(Final(s), p);
    StagedIsSerial(x, s, p);
    StampedCount(serial.contents, s.runs, {run});
    StampedStateCount(serial.transitions, s.runs, {run});
  }

  lemma EligibleAt(x: Externals, s: State, run: RunId) returns (i: nat)
    requires Inv(x, s) && Eligible(s.runs, run)
    ensures i < |Final(s)| && Final(s)[i].run == run && Final(s)[i].request == s.runs[run].request
    ensures s.runs[run].newContents.Some? && s.runs[run].newTransitions.Some?
    ensures (s.runs[run].newContents.value, s.runs[run].newTransitions.value) == Added(Final(s), i)
  {
    assert RunOk(s.log, run, s.runs[run]);
    i := s.runs[run].commitSequence.value - 1;
    assert s.log[i].run == run && EntryOk(s.runs, s.log, i) && CountsOk(s.runs, s.log, i);
    assert Final(s)[..i] == s.log[..i];
  }

  lemma IneligibleAbsent(x: Externals, s: State, run: RunId)
    requires Inv(x, s) && !Eligible(s.runs, run)
    ensures forall i | 0 <= i < |Final(s)| :: Final(s)[i].run != run
  {
    forall i | 0 <= i < |Final(s)|
      ensures Final(s)[i].run != run
    {
      FinalSucceeded(x, s, i);
    }
  }

  /** A SUCCEEDED manifest counts the eligible rows it owns; any other manifest owns no eligible row. */
  lemma RunCounts(x: Externals, s: State, p: Product, run: RunId)
    requires Inv(x, s) && run in s.runs && s.runs[run].request.product == p
    ensures Eligible(s.runs, run) ==> s.runs[run].newContents.Some? && s.runs[run].newTransitions.Some?
    ensures |Where(StagedContents(s.runs, s.Of(p)), FirstRunIn({run}))| ==
            if Eligible(s.runs, run) then s.runs[run].newContents.value else 0
    ensures |Where(StagedTransitions(s.runs, s.Of(p)), StateRunIn({run}))| ==
            if Eligible(s.runs, run) then s.runs[run].newTransitions.value else 0
  {
    StagedRows(x, s, p, run);
    SerialFinal(x, s, p);
    if Eligible(s.runs, run) {
      var i := EligibleAt(x, s, run);
      SerialRunCount(x, Final(s), i);
    } else {
      IneligibleAbsent(x, s, run);
      NoRowsOf(x, Final(s), p, run);
    }
  }

  /** Rows split by the disjoint groups of manifests that own them. */
  lemma {:induction false} SplitContents(cs: seq<Content>, a: set<RunId>, b: set<RunId>)
    requires a !! b
    ensures |Where(cs, FirstRunIn(a + b))| == |Where(cs, FirstRunIn(a))| + |Where(cs, FirstRunIn(b))|
  {
    if cs != [] {
      SplitContents(cs[..|cs| - 1], a, b);
    }
  }

  lemma {:induction false} SplitTransitions(ts: seq<Transition>, a: set<RunId>, b: set<RunId>)
    requires a !! b
    ensures |Where(ts, StateRunIn(a + b))| == |Where(ts, StateRunIn(a))| + |Where(ts, StateRunIn(b))|
  {
    if ts != [] {
      SplitTransitions(ts[..|ts| - 1], a, b);
    }
  }

  lemma {:induction false} ContentSums(x: Externals, s: State, p: Product, group: set<RunId>)
    requires Inv(x, s) && group <= OfProduct(s.runs, p)
    ensures SuccessfulNewContents(s.runs, group) == |Where(StagedContents(s.runs, s.Of(p)), FirstRunIn(group))|
  {
    if group == {} {
      WhereNone(StagedContents(s.runs, s.Of(p)), FirstRunIn({}));
    } else {
      var run :| run in group && SuccessfulNewContents(s.runs, group) ==
        (if Eligible(s.runs, run) && s.runs[run].newContents.Some? then s.runs[run].newContents.value else 0)
        + SuccessfulNewContents(s.runs, group - {run});
      RunCounts(x, s, p, run);
      assert group == {run} + (group - {run});
      SplitContents(StagedContents(s.runs, s.Of(p)), {run}, group - {run});
      ContentSums(x, s, p, group - {run});
    }
  }

  lemma {:induction false} TransitionSums(x: Externals, s: State, p: Product, group: set<RunId>)
    requires Inv(x, s) && group <= OfProduct(s.runs, p)
    ensures SuccessfulNewTransitions(s.runs, group) == |Where(StagedTransitions(s.runs, s.Of(p)), StateRunIn(group))|
  {
    if group == {} {
      WhereNone(StagedTransitions(s.runs, s.Of(p)), StateRunIn({}));
    } else {
      var run :| run in group && SuccessfulNewTransitions(s.runs, group) ==
        (if Eligible(s.runs, run) && s.runs[run].newTransitions.Some? then s.runs[run].newTransitions.value else 0)
        + SuccessfulNewTransitions(s.runs, group - {run});
      RunCounts(x, s, p, run);
      assert group == {run} + (group - {run});
      SplitTransitions(StagedTransitions(s.runs, s.Of(p)), {run}, group - {run});
      TransitionSums(x, s, p, group - {run});
    }
  }

  lemma KnownRun(x: Externals, s: State, p: Product, i: nat)
    requires Inv(x, s) && i < |Final(s)| && Final(s)[i].request.product == p
    ensures Final(s)[i].run in OfProduct(s.runs, p)
  {
    assert Final(s)[i] == s.log[i] && EntryOk(s.runs, s.log, i);
  }

  lemma ContentRunKnown(x: Externals, s: State, p: Product, i: nat)
    requires Inv(x, s) && i < |Serial(Final(s), p).contents|
    ensures Serial(Final(s), p).contents[i].firstRun in OfProduct(s.runs, p)
  {
    SerialFinal(x, s, p);
    var j := ContentOrigin(x, Final(s), p, Serial(Final(s), p).contents[i]);
    KnownRun(x, s, p, j);
  }

  lemma TransitionRunKnown(x: Externals, s: State, p: Product, i: nat)
    requires Inv(x, s) && i < |Serial(Final(s), p).transitions|
    ensures Serial(Final(s), p).transitions[i].run in OfProduct(s.runs, p)
  {
    var t := Serial(Final(s), p).transitions[i];
    FinalLogOk(x, s);
    TransitionOrigin(x, Final(s), p, t);
    KnownRun(x, s, p, t.sequence - 1);
  }

  lemma StagedRunsKnown(x: Externals, s: State, p: Product)
    requires Inv(x, s)
    ensures forall c | c in StagedContents(s.runs, s.Of(p)) :: c.firstRun in OfProduct(s.runs, p)
    ensures forall t | t in StagedTransitions(s.runs, s.Of(p)) :: t.run in OfProduct(s.runs, p)
  {
    var serial := Serial(Final(s), p);
    StagedIsSerial(x, s, p);
    forall i | 0 <= i < |serial.contents|
      ensures StampedContents(serial.contents, s.runs)[i].firstRun in OfProduct(s.runs, p)
    {
      ContentRunKnown(x, s, p, i);
    }
    forall i | 0 <= i < |serial.transitions|
      ensures StampedTransitions(serial.transitions, s.runs)[i].run in OfProduct(s.runs, p)
    {
      TransitionRunKnown(x, s, p, i);
    }
  }

  /** In every run and for every group of the health mart, the successful sums are the numbers of eligible
      contents and transitions the group's runs own. */
  lemma HealthGroupCounts(x: Externals, events: seq<Event>, request: Request)
    requires x.Valid()
    ensures var s := Play(x, Empty(), events);
            var group := Group(s.runs, request);
            && SuccessfulNewContents(s.runs, group) ==
                 |Where(StagedContents(s.runs, s.Of(request.product)), FirstRunIn(group))|
            && SuccessfulNewTransitions(s.runs, group) ==
                 |Where(StagedTransitions(s.runs, s.Of(request.product)), StateRunIn(group))|
  {
    InvariantHolds(x, events);
    var s := Play(x, Empty(), events);
    ContentSums(x, s, request.product, Group(s.runs, request));
    TransitionSums(x, s, request.product, Group(s.runs, request));
  }

  /** Distinct groups share no manifest. */
  lemma GroupApart(runs: map<RunId, Run>, requests: set<Request>, q: Request)
    requires q in requests
    ensures Grouped(runs, requests) == Group(runs, q) + Grouped(runs, requests - {q})
    ensures Group(runs, q) !! Grouped(runs, requests - {q})
  {
  }

  lemma {:induction false} GroupedContents(x: Externals, s: State, p: Product, requests: set<Request>)
    requires Inv(x, s) && forall q | q in requests :: q.product == p
    ensures SumOfNewContents(s.runs, requests) ==
            |Where(StagedContents(s.runs, s.Of(p)), FirstRunIn(Grouped(s.runs, requests)))|
  {
    if requests == {} {
      WhereNone(StagedContents(s.runs, s.Of(p)), FirstRunIn(Grouped(s.runs, requests)));
    } else {
      var q :| q in requests && SumOfNewContents(s.runs, requests) ==
        SuccessfulNewContents(s.runs, Group(s.runs, q)) + SumOfNewContents(s.runs, requests - {q});
      GroupedContents(x, s, p, requests - {q});
      ContentSums(x, s, p, Group(s.runs, q));
      GroupApart(s.runs, requests, q);
      SplitContents(StagedContents(s.runs, s.Of(p)), Group(s.runs, q), Grouped(s.runs, requests - {q}));
    }
  }

  lemma {:induction false} GroupedTransitions(x: Externals, s: State, p: Product, requests: set<Request>)
    requires Inv(x, s) && forall q | q in requests :: q.product == p
    ensures SumOfNewTransitions(s.runs, requests) ==
            |Where(StagedTransitions(s.runs, s.Of(p)), StateRunIn(Grouped(s.runs, requests)))|
  {
    if requests == {} {
      WhereNone(StagedTransitions(s.runs, s.Of(p)), StateRunIn(Grouped(s.runs, requests)));
    } else {
      var q :| q in requests && SumOfNewTransitions(s.runs, requests) ==
        SuccessfulNewTransitions(s.runs, Group(s.runs, q)) + SumOfNewTransitions(s.runs, requests - {q});
      GroupedTransitions(x, s, p, requests - {q});
      TransitionSums(x, s, p, Group(s.runs, q));
      GroupApart(s.runs, requests, q);
      SplitTransitions(StagedTransitions(s.runs, s.Of(p)), Group(s.runs, q), Grouped(s.runs, requests - {q}));
    }
  }

  /** The sums of all groups of a product add up to all of its eligible rows: nothing is lost or counted twice. */
  lemma HealthTotals(x: Externals, events: seq<Event>, p: Product)
    requires x.Valid()
    ensures var s := Play(x, Empty(), events);
            && SumOfNewContents(s.runs, RequestsOf(s.runs, p)) == |StagedContents(s.runs, s.Of(p))|
            && SumOfNewTransitions(s.runs, RequestsOf(s.runs, p)) == |StagedTransitions(s.runs, s.Of(p))|
  {
    InvariantHolds(x, events);
    var s := Play(x, Empty(), events);
    GroupedContents(x, s, p, RequestsOf(s.runs, p));
    GroupedTransitions(x, s, p, RequestsOf(s.runs, p));
    assert Grouped(s.runs, RequestsOf(s.runs, p)) == OfProduct(s.runs, p);
    StagedRunsKnown(x, s, p);
    WhereAll(StagedContents(s.runs, s.Of(p)), FirstRunIn(OfProduct(s.runs, p)));
    WhereAll(StagedTransitions(s.runs, s.Of(p)), StateRunIn(OfProduct(s.runs, p)));
  }

  /** No content ID and no transition ID is ever stored twice. */
  lemma IdsStayUnique(x: Externals, events: seq<Event>, p: Product)
    requires x.Valid()
    ensures var s := Play(x, Empty(), events); UniqueIds(s.Of(p).contents) && UniqueStates(s.Of(p).transitions)
  {
    InvariantHolds(x, events);
    var s := Play(x, Empty(), events);
    var serial := Serial(s.log, p);
    assert TablesOk(s.Of(p), s.runs, s.log, p);
    SerialContentsUnique(x, s.log, p);
    SerialTransitionsUnique(x, s.log, p);
    StampedUnique(serial.contents, s.runs);
    forall i, j | 0 <= i < j < |s.Of(p).transitions|
      ensures s.Of(p).transitions[i].Id() != s.Of(p).transitions[j].Id()
    {
      assert serial.transitions[i].Id() != serial.transitions[j].Id();
    }
  }
}
