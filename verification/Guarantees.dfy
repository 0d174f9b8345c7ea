// Further guarantees over whole runs: the finalization gate, exact snapshots, one effect per run ID,
// the order of knowledge, the revision trace, and conservation of counts.
module Guarantees {
  import opened Base
  import opened Batches
  import opened Planner
  import opened Facts
  import opened Protocol
  import opened Replay
  import opened Safety
  import opened Progress
  import opened Refinement

  // ---------- the gate and the sequence ----------

  function CommittedRuns(s: State): set<RunId> {
    set run | run in s.runs && (s.runs[run].status == Committed || s.runs[run].status == Succeeded)
  }

  lemma {:induction false} LogRuns(x: Externals, log: seq<Batch>)
    requires LogOk(x, log)
    ensures |set i | 0 <= i < |log| :: log[i].run| == |log|
  {
    var runs := set i | 0 <= i < |log| :: log[i].run;
    if log != [] {
      var n := |log| - 1;
      LogOkFront(x, log, n);
      LogRuns(x, log[..n]);
      var rest := set i | 0 <= i < |log[..n]| :: log[..n][i].run;
      assert runs == rest + {log[n].run};
    }
  }

  lemma LoggedIsCommitted(x: Externals, s: State, i: nat)
    requires Inv(x, s) && i < |s.log|
    ensures s.log[i].run in CommittedRuns(s) && s.runs[s.log[i].run].commitSequence == Some(i + 1)
  {
    assert EntryOk(s.runs, s.log, i) && RunOk(s.log, s.log[i].run, s.runs[s.log[i].run]);
  }

  lemma CommittedIsLogged(x: Externals, s: State, run: RunId) returns (i: nat)
    requires Inv(x, s) && run in CommittedRuns(s)
    ensures i < |s.log| && s.log[i].run == run && s.runs[run].commitSequence == Some(i + 1)
  {
    assert RunOk(s.log, run, s.runs[run]);
    i := s.runs[run].commitSequence.value - 1;
  }

  lemma CommittedCount(x: Externals, s: State)
    requires Inv(x, s)
    ensures |CommittedRuns(s)| == s.sequence
  {
    var runs := set i | 0 <= i < |s.log| :: s.log[i].run;
    LogRuns(x, s.log);
    forall run | run in CommittedRuns(s)
      ensures run in runs
    {
      var i := CommittedIsLogged(x, s, run);
    }
    forall i | 0 <= i < |s.log|
      ensures s.log[i].run in CommittedRuns(s)
    {
      LoggedIsCommitted(x, s, i);
    }
    assert CommittedRuns(s) == runs;
  }

  ghost predicate SequenceBijective(s: State) {
    && |CommittedRuns(s)| == s.sequence
    && (forall run | run in CommittedRuns(s) ::
          s.runs[run].commitSequence.Some? && 1 <= s.runs[run].commitSequence.value <= s.sequence)
    && (forall n | 1 <= n <= s.sequence ::
          exists run :: run in CommittedRuns(s) && s.runs[run].commitSequence == Some(n))
    && (forall a, b | a in CommittedRuns(s) && b in CommittedRuns(s)
                      && s.runs[a].commitSequence == s.runs[b].commitSequence :: a == b)
  }

  lemma SameSequenceSameRun(x: Externals, s: State, a: RunId, b: RunId)
    requires Inv(x, s) && a in CommittedRuns(s) && b in CommittedRuns(s)
    requires s.runs[a].commitSequence == s.runs[b].commitSequence
    ensures a == b
  {
    var i := CommittedIsLogged(x, s, a);
    var j := CommittedIsLogged(x, s, b);
  }

  lemma SequenceOf(x: Externals, s: State)
    requires Inv(x, s)
    ensures SequenceBijective(s)
  {
    CommittedCount(x, s);
    forall run | run in CommittedRuns(s)
      ensures s.runs[run].commitSequence.Some? && 1 <= s.runs[run].commitSequence.value <= s.sequence
    {
      var i := CommittedIsLogged(x, s, run);
    }
    forall n | 1 <= n <= s.sequence
      ensures exists run :: run in CommittedRuns(s) && s.runs[run].commitSequence == Some(n)
    {
      LoggedIsCommitted(x, s, n - 1);
    }
    forall a, b | a in CommittedRuns(s) && b in CommittedRuns(s) && s.runs[a].commitSequence == s.runs[b].commitSequence
      ensures a == b
    {
      SameSequenceSameRun(x, s, a, b);
    }
  }

  /** commit_sequence is a bijection from the COMMITTED and SUCCEEDED runs onto 1..sequence. */
  lemma SequenceIsBijection(x: Externals, events: seq<Event>)
    requires x.Valid()
    ensures SequenceBijective(Play(x, Empty(), events))
  {
    InvariantHolds(x, events);
    SequenceOf(x, Play(x, Empty(), events));
  }

  lemma LogInjective(x: Externals, log: seq<Batch>, i: nat, j: nat)
    requires LogOk(x, log) && i < |log| && j < |log| && log[i].run == log[j].run
    ensures i == j
  {
  }

  lemma UnfinalizedIsNewest(x: Externals, s: State, run: RunId)
    requires Inv(x, s) && run in s.runs && s.runs[run].status == Committed
    ensures s.active == Some(run) && s.runs[run].commitSequence == Some(s.sequence)
  {
    var i := CommittedIsLogged(x, s, run);
    LogInjective(x, s.log, i, |s.log| - 1);
  }

  /** The gate is held exactly while one run is COMMITTED; that run has the highest sequence, and
      everything below it has SUCCEEDED. */
  lemma GateHoldsNewest(x: Externals, events: seq<Event>)
    requires x.Valid()
    ensures var s := Play(x, Empty(), events);
            && (forall run :: s.active == Some(run) <==> run in s.runs && s.runs[run].status == Committed)
            && (forall run | run in s.runs && s.runs[run].status == Committed ::
                  s.runs[run].commitSequence == Some(s.sequence))
            && (forall a, b | a in CommittedRuns(s) && b in CommittedRuns(s)
                              && s.runs[a].commitSequence.Some? && s.runs[b].commitSequence.Some?
                              && s.runs[a].commitSequence.value < s.runs[b].commitSequence.value ::
                                   s.runs[a].status == Succeeded)
  {
    InvariantHolds(x, events);
    var s := Play(x, Empty(), events);
    forall run | run in s.runs && s.runs[run].status == Committed
      ensures s.active == Some(run) && s.runs[run].commitSequence == Some(s.sequence)
    {
      UnfinalizedIsNewest(x, s, run);
    }
    forall b | b in CommittedRuns(s)
      ensures s.runs[b].commitSequence.Some? && s.runs[b].commitSequence.value <= s.sequence
    {
      var i := CommittedIsLogged(x, s, b);
    }
  }

  // ---------- snapshots and staleness ----------

  /** When a commit succeeds, the one-day snapshot behind its plan agreed with the whole tables on every
      key and content of the batch, so the plan is what a writer seeing everything would have made. */
  lemma CommittedPlanIsExact(x: Externals, events: seq<Event>, run: RunId)
    requires x.Valid()
    ensures var s := Play(x, Empty(), events);
            run in s.jobs && s.jobs[run].Pending? && ExecuteJob(s, run).log != s.log ==>
              var sub := s.jobs[run].submission;
              && sub.plan == PlanOf(run, sub.rows, FullSnapshot(s.Of(sub.request.product), s.sequence))
              && ExecuteJob(s, run).log == s.log + [Batch(run, sub.request, sub.rows)]
              && ExecuteJob(s, run).Of(sub.request.product) ==
                 Tables(s.Of(sub.request.product).contents + sub.plan.contents,
                        s.Of(sub.request.product).transitions + sub.plan.transitions)
  {
    InvariantHolds(x, events);
    var s := Play(x, Empty(), events);
    if run in s.jobs && s.jobs[run].Pending? && CommitBatch(s, run, s.jobs[run].submission).Some? {
      var sub := s.jobs[run].submission;
      assert JobOk(x, s, run, s.jobs[run]);
      SnapshotIsExact(x, s, sub.request, sub.rows);
      PlanAgrees(run, sub.rows, SnapshotOf(s.Of(sub.request.product), s.sequence, sub.request.day),
                 FullSnapshot(s.Of(sub.request.product), s.sequence));
      MergeInsertsAll(x, s, run, sub);
    }
  }

  /** A plan built on a sequence that has passed never commits, whatever happens next; so of all plans
      built on one sequence at most one commits. */
  lemma StaleNeverCommits(x: Externals, events: seq<Event>, more: seq<Event>, run: RunId, sub: Submission)
    requires x.Valid() && sub.plan.expected < Play(x, Empty(), events).sequence
    ensures CommitBatch(Play(x, Empty(), events + more), run, sub) == None
  {
    InvariantHolds(x, events);
    InvariantHolds(x, events + more);
    PlayConcat(x, Empty(), events, more);
    PlayExtends(x, Play(x, Empty(), events), more);
  }

  // ---------- one effect per run ID ----------

  ghost predicate OwnsNothing(s: State, run: RunId) {
    && (forall i | 0 <= i < |s.log| :: s.log[i].run != run)
    && (forall p: Product, c: Content | c in s.Of(p).contents :: c.firstRun != run)
    && (forall p: Product, t: Transition | t in s.Of(p).transitions :: t.run != run)
  }

  lemma UncommittedOwnsNothing(x: Externals, s: State, run: RunId)
    requires Inv(x, s) && (run in s.runs ==> !IsCommitted(s.runs[run]))
    ensures OwnsNothing(s, run)
  {
    assert run in s.runs ==> RunOk(s.log, run, s.runs[run]);
    NotLogged(s.runs, s.log, run);
    forall p: Product
      ensures forall c: Content | c in s.Of(p).contents :: c.firstRun != run
      ensures forall t: Transition | t in s.Of(p).transitions :: t.run != run
    {
      var serial := Serial(s.log, p);
      assert TablesOk(s.Of(p), s.runs, s.log, p);
      forall c: Content | c in s.Of(p).contents
        ensures c.firstRun != run
      {
        var i :| 0 <= i < |serial.contents| && s.Of(p).contents[i] == c;
        var j := ContentOrigin(x, s.log, p, serial.contents[i]);
      }
      forall t: Transition | t in s.Of(p).transitions
        ensures t.run != run
      {
        var i :| 0 <= i < |serial.transitions| && s.Of(p).transitions[i] == t;
        TransitionOrigin(x, s.log, p, serial.transitions[i]);
      }
    }
  }

  /** FAILED is exclusive and terminal: such a run owns no row, and no late job, second client or
      repeated call can ever make it commit. */
  lemma FailedIsFinal(x: Externals, events: seq<Event>, more: seq<Event>, run: RunId)
    requires x.Valid()
    requires run in Play(x, Empty(), events).runs && Play(x, Empty(), events).runs[run].status == Failed
    ensures var s, s' := Play(x, Empty(), events), Play(x, Empty(), events + more);
            run in s'.runs && s'.runs[run] == s.runs[run] && s'.runs[run].rowsAccepted == Some(0)
            && OwnsNothing(s', run)
  {
    InvariantHolds(x, events);
    InvariantHolds(x, events + more);
    PlayConcat(x, Empty(), events, more);
    PlayExtends(x, Play(x, Empty(), events), more);
    var s, s' := Play(x, Empty(), events), Play(x, Empty(), events + more);
    assert RunGrows(s.runs[run], s'.runs[run]) && RunOk(s'.log, run, s'.runs[run]);
    UncommittedOwnsNothing(x, s', run);
  }

  lemma OneEntry(x: Externals, s: State, run: RunId)
    requires Inv(x, s) && run in CommittedRuns(s)
    ensures exists i ::
              && 0 <= i < |s.log| && s.log[i].run == run
              && forall j | 0 <= j < |s.log| && j != i :: s.log[j].run != run
  {
    var i := CommittedIsLogged(x, s, run);
    forall j | 0 <= j < |s.log| && j != i
      ensures s.log[j].run != run
    {
      LoggedIsCommitted(x, s, j);
    }
  }

  /** A run that has committed is never recorded as FAILED, keeps its place in the commit order, and its
      batch takes effect exactly once, however many clients reuse its ID. */
  lemma CommittedOnce(x: Externals, events: seq<Event>, more: seq<Event>, run: RunId)
    requires x.Valid() && run in CommittedRuns(Play(x, Empty(), events))
    ensures var s, s' := Play(x, Empty(), events), Play(x, Empty(), events + more);
            && run in CommittedRuns(s') && s'.runs[run].commitSequence == s.runs[run].commitSequence
            && s.log <= s'.log
            && exists i ::
                 && 0 <= i < |s'.log| && s'.log[i].run == run
                 && forall j | 0 <= j < |s'.log| && j != i :: s'.log[j].run != run
  {
    InvariantHolds(x, events + more);
    PlayConcat(x, Empty(), events, more);
    PlayExtends(x, Play(x, Empty(), events), more);
    var s, s' := Play(x, Empty(), events), Play(x, Empty(), events + more);
    assert RunGrows(s.runs[run], s'.runs[run]);
    OneEntry(x, s', run);
  }

  /** A SUCCEEDED manifest never changes again, so replaying its run reports the original outcome. */
  lemma SucceededIsFinal(x: Externals, events: seq<Event>, more: seq<Event>, run: RunId)
    requires x.Valid()
    requires run in Play(x, Empty(), events).runs && Play(x, Empty(), events).runs[run].status == Succeeded
    ensures var s, s' := Play(x, Empty(), events), Play(x, Empty(), events + more);
            run in s'.runs && s'.runs[run] == s.runs[run]
  {
    PlayConcat(x, Empty(), events, more);
    PlayExtends(x, Play(x, Empty(), events), more);
    var s, s' := Play(x, Empty(), events), Play(x, Empty(), events + more);
    assert RunGrows(s.runs[run], s'.runs[run]);
  }

  // ---------- stored rows are immutable but for NULL clocks ----------

  ghost predicate ClockSet(before: Option<nat>, after: Option<nat>) {
    before.Some? ==> after == before
  }

  /** Nothing stored is ever removed or rewritten; only a NULL clock may be set, once. */
  lemma RowsAreImmutable(x: Externals, events: seq<Event>, more: seq<Event>, p: Product)
    requires x.Valid()
    ensures var t, t' := Play(x, Empty(), events).Of(p), Play(x, Empty(), events + more).Of(p);
            && |t.contents| <= |t'.contents| && |t.transitions| <= |t'.transitions|
            && (forall i | 0 <= i < |t.contents| ::
                  t'.contents[i] == t.contents[i].(firstSeen := t'.contents[i].firstSeen)
                  && ClockSet(t.contents[i].firstSeen, t'.contents[i].firstSeen))
            && (forall i | 0 <= i < |t.transitions| ::
                  t'.transitions[i] == t.transitions[i].(known := t'.transitions[i].known)
                  && ClockSet(t.transitions[i].known, t'.transitions[i].known))
  {
    InvariantHolds(x, events);
    InvariantHolds(x, events + more);
    PlayConcat(x, Empty(), events, more);
    PlayExtends(x, Play(x, Empty(), events), more);
    TablesGrow(x, Play(x, Empty(), events), Play(x, Empty(), events + more), p);
  }

  lemma KnowledgeSetOnce(x: Externals, s: State, s': State, run: RunId)
    requires Inv(x, s) && Extends(s, s')
    ensures ClockSet(KnowledgeOf(s.runs, run), KnowledgeOf(s'.runs, run))
  {
    if run in s.runs {
      assert RunGrows(s.runs[run], s'.runs[run]) && RunOk(s.log, run, s.runs[run]);
    }
  }

  lemma TablesGrow(x: Externals, s: State, s': State, p: Product)
    requires Inv(x, s) && Inv(x, s') && Extends(s, s')
    ensures var t, t' := s.Of(p), s'.Of(p);
            && |t.contents| <= |t'.contents| && |t.transitions| <= |t'.transitions|
            && (forall i | 0 <= i < |t.contents| ::
                  t'.contents[i] == t.contents[i].(firstSeen := t'.contents[i].firstSeen)
                  && ClockSet(t.contents[i].firstSeen, t'.contents[i].firstSeen))
            && (forall i | 0 <= i < |t.transitions| ::
                  t'.transitions[i] == t.transitions[i].(known := t'.transitions[i].known)
                  && ClockSet(t.transitions[i].known, t'.transitions[i].known))
  {
    assert TablesOk(s.Of(p), s.runs, s.log, p) && TablesOk(s'.Of(p), s'.runs, s'.log, p);
    assert s'.log[..|s.log|] == s.log;
    SerialGrows(s'.log, |s.log|, p);
    forall run
      ensures ClockSet(KnowledgeOf(s.runs, run), KnowledgeOf(s'.runs, run))
    {
      KnowledgeSetOnce(x, s, s', run);
    }
  }

  // ---------- the revision trace as stored ----------

  function HashesOf(ts: seq<Transition>): seq<ContentHash> {
    seq(|ts|, i requires 0 <= i < |ts| => ts[i].hash)
  }

  lemma {:induction false} OfKeyStamped(ts: seq<Transition>, runs: map<RunId, Run>, key: Key)
    ensures OfKey(StampedTransitions(ts, runs), key) == StampedTransitions(OfKey(ts, key), runs)
  {
    if ts != [] {
      assert StampedTransitions(ts, runs)[..|ts| - 1] == StampedTransitions(ts[..|ts| - 1], runs);
      OfKeyStamped(ts[..|ts| - 1], runs, key);
    }
  }

  /** Ordinals 1..n without gaps, strictly increasing sequences, no repeated neighbour, and nothing but
      the repeats of `readings` removed. */
  ghost predicate StutterFree(ts: seq<Transition>, readings: seq<ContentHash>) {
    && HashesOf(ts) == Destutter(readings)
    && (forall i | 0 <= i < |ts| :: ts[i].ordinal == i + 1)
    && (forall i, j | 0 <= i < j < |ts| :: ts[i].sequence < ts[j].sequence)
    && (forall i | 0 < i < |ts| :: ts[i].hash != ts[i - 1].hash)
  }

  lemma RecordedStutterFree(log: seq<Batch>, runs: map<RunId, Run>, key: Key)
    ensures StutterFree(StampedTransitions(Recorded(Trace(log, key), key), runs), Readings(log, key))
  {
    TraceIsStutterFree(log, key);
    TraceIsOrdered(log, key);
    assert HashesOf(StampedTransitions(Recorded(Trace(log, key), key), runs)) == Hashes(Trace(log, key));
  }

  lemma StoredTrace(x: Externals, s: State, key: Key)
    requires Inv(x, s)
    ensures StutterFree(OfKey(s.Of(key.product).transitions, key), Readings(s.log, key))
  {
    assert TablesOk(s.Of(key.product), s.runs, s.log, key.product);
    OfKeyStamped(Serial(s.log, key.product).transitions, s.runs, key);
    SerialIsTrace(x, s.log, key);
    RecordedStutterFree(s.log, s.runs, key);
  }

  /** The stored transitions of a key are the stutter-free trace of everything ever accepted for it. */
  lemma StoredTraceIsStutterFree(x: Externals, events: seq<Event>, key: Key)
    requires x.Valid()
    ensures var s := Play(x, Empty(), events);
            StutterFree(OfKey(s.Of(key.product).transitions, key), Readings(s.log, key))
  {
    InvariantHolds(x, events);
    StoredTrace(x, Play(x, Empty(), events), key);
  }

  // ---------- knowledge time ----------

  /** A clock column under its owning run. */
  ghost predicate ClockFollows(s: State, run: RunId, clock: Option<nat>) {
    && run in CommittedRuns(s)
    && clock == s.runs[run].knowledgeAt
    && (clock.None? <==> s.runs[run].status == Committed)
  }

  lemma LoggedClock(x: Externals, s: State, i: nat)
    requires Inv(x, s) && i < |s.log|
    ensures ClockFollows(s, s.log[i].run, KnowledgeOf(s.runs, s.log[i].run))
  {
    LoggedIsCommitted(x, s, i);
    assert RunOk(s.log, s.log[i].run, s.runs[s.log[i].run]);
  }

  lemma ContentClock(x: Externals, s: State, p: Product, i: nat)
    requires Inv(x, s) && i < |s.Of(p).contents|
    ensures ClockFollows(s, s.Of(p).contents[i].firstRun, s.Of(p).contents[i].firstSeen)
  {
    assert TablesOk(s.Of(p), s.runs, s.log, p);
    var j := ContentOrigin(x, s.log, p, Serial(s.log, p).contents[i]);
    LoggedClock(x, s, j);
  }

  lemma TransitionClock(x: Externals, s: State, p: Product, i: nat)
    requires Inv(x, s) && i < |s.Of(p).transitions|
    ensures ClockFollows(s, s.Of(p).transitions[i].run, s.Of(p).transitions[i].known)
  {
    assert TablesOk(s.Of(p), s.runs, s.log, p);
    TransitionOrigin(x, s.log, p, Serial(s.log, p).transitions[i]);
    LoggedClock(x, s, Serial(s.log, p).transitions[i].sequence - 1);
  }

  /** first_seen_at and known_at are NULL exactly while the owning run is COMMITTED; otherwise they are its
      knowledge time. */
  lemma ClocksFollowTheRun(x: Externals, events: seq<Event>, p: Product)
    requires x.Valid()
    ensures var s := Play(x, Empty(), events);
            && (forall i | 0 <= i < |s.Of(p).contents| ::
                  ClockFollows(s, s.Of(p).contents[i].firstRun, s.Of(p).contents[i].firstSeen))
            && (forall i | 0 <= i < |s.Of(p).transitions| ::
                  ClockFollows(s, s.Of(p).transitions[i].run, s.Of(p).transitions[i].known))
  {
    InvariantHolds(x, events);
    var s := Play(x, Empty(), events);
    forall i | 0 <= i < |s.Of(p).contents|
      ensures ClockFollows(s, s.Of(p).contents[i].firstRun, s.Of(p).contents[i].firstSeen)
    {
      ContentClock(x, s, p, i);
    }
    forall i | 0 <= i < |s.Of(p).transitions|
      ensures ClockFollows(s, s.Of(p).transitions[i].run, s.Of(p).transitions[i].known)
    {
      TransitionClock(x, s, p, i);
    }
  }

  lemma KnowledgePair(x: Externals, s: State, a: RunId, b: RunId)
    requires Inv(x, s) && Eligible(s.runs, a) && Eligible(s.runs, b)
    ensures s.runs[a].commitSequence.Some? && s.runs[b].commitSequence.Some?
    ensures s.runs[a].knowledgeAt.Some? && s.runs[b].knowledgeAt.Some?
    ensures s.runs[a].commitSequence.value <= s.runs[b].commitSequence.value ==>
              s.runs[a].knowledgeAt.value <= s.runs[b].knowledgeAt.value
  {
    assert RunOk(s.log, a, s.runs[a]) && RunOk(s.log, b, s.runs[b]);
    var i := CommittedIsLogged(x, s, a);
    var j := CommittedIsLogged(x, s, b);
    assert KnowledgeOf(s.runs, s.log[j].run).Some?;
  }

  /** Knowledge time never runs against acceptance order. */
  lemma KnowledgeFollowsAcceptance(x: Externals, events: seq<Event>, a: RunId, b: RunId)
    requires x.Valid()
    ensures var s := Play(x, Empty(), events);
            Eligible(s.runs, a) && Eligible(s.runs, b) ==>
              && s.runs[a].commitSequence.Some? && s.runs[b].commitSequence.Some?
              && s.runs[a].knowledgeAt.Some? && s.runs[b].knowledgeAt.Some?
              && (s.runs[a].commitSequence.value <= s.runs[b].commitSequence.value ==>
                    s.runs[a].knowledgeAt.value <= s.runs[b].knowledgeAt.value)
  {
    InvariantHolds(x, events);
    var s := Play(x, Empty(), events);
    if Eligible(s.runs, a) && Eligible(s.runs, b) {
      KnowledgePair(x, s, a, b);
    }
  }

  lemma KnownInOrder(x: Externals, s: State, i: nat, j: nat)
    requires Inv(x, s) && i <= j < |Final(s)|
    ensures KnowledgeOf(s.runs, Final(s)[i].run).Some? && KnowledgeOf(s.runs, Final(s)[j].run).Some?
    ensures KnowledgeOf(s.runs, Final(s)[i].run).value <= KnowledgeOf(s.runs, Final(s)[j].run).value
  {
    FinalSucceeded(x, s, i);
    FinalSucceeded(x, s, j);
    assert RunOk(s.log, s.log[i].run, s.runs[s.log[i].run]) && RunOk(s.log, s.log[j].run, s.runs[s.log[j].run]);
  }

  /** A content was stored no later than any batch whose transition refers to it. */
  lemma ContentBeforeState(x: Externals, log: seq<Batch>, p: Product, c: Content, t: Transition) returns (first: nat)
    requires LogOk(x, log) && c in Serial(log, p).contents && t in Serial(log, p).transitions && c.Id() == t.Content()
    ensures first < t.sequence <= |log| && log[first].run == c.firstRun && log[t.sequence - 1].run == t.run
  {
    first := ContentOrigin(x, log, p, c);
    TransitionOrigin(x, log, p, t);
    var row := Row(t.key, t.hash, t.day, t.retrieved);
    assert row in log[t.sequence - 1].rows && row.Id() == c.Id();
  }

  /** What the i-th history row is made of. */
  lemma HistoryParts(x: Externals, s: State, p: Product, i: nat) returns (c: Content, t: Transition)
    requires Inv(x, s) && i < |s.HistoryOf(p)|
    ensures i < |Serial(Final(s), p).transitions| && t == Serial(Final(s), p).transitions[i]
    ensures c in Serial(Final(s), p).contents && c.Id() == t.Content()
    ensures s.HistoryOf(p)[i].content.firstSeen == KnowledgeOf(s.runs, c.firstRun)
    ensures s.HistoryOf(p)[i].state.known == KnowledgeOf(s.runs, t.run)
  {
    var serial := Serial(Final(s), p);
    HistoryIsComplete(x, s, p);
    t := serial.transitions[i];
    var stamped := StampedContents(serial.contents, s.runs);
    assert s.HistoryOf(p)[i].content in stamped;
    var m :| 0 <= m < |stamped| && stamped[m] == s.HistoryOf(p)[i].content;
    c := serial.contents[m];
  }

  /** The clocks of one history row: its batch, and the earlier or same batch that stored its content. */
  lemma RowClocks(x: Externals, s: State, p: Product, i: nat) returns (first: nat, n: nat)
    requires Inv(x, s) && i < |s.HistoryOf(p)|
    ensures i < |Serial(Final(s), p).transitions| && n + 1 == Serial(Final(s), p).transitions[i].sequence
    ensures first <= n < |Final(s)|
    ensures s.HistoryOf(p)[i].content.firstSeen == KnowledgeOf(s.runs, Final(s)[first].run)
    ensures s.HistoryOf(p)[i].state.known == KnowledgeOf(s.runs, Final(s)[n].run)
  {
    var c, t := HistoryParts(x, s, p, i);
    FinalLogOk(x, s);
    first := ContentBeforeState(x, Final(s), p, c, t);
    n := t.sequence - 1;
  }

  lemma FinalLogOk(x: Externals, s: State)
    requires Inv(x, s)
    ensures LogOk(x, Final(s))
  {
    SerialFinal(x, s, Lmp);
  }

  lemma SequencesInOrder(x: Externals, log: seq<Batch>, p: Product, i: nat, j: nat)
    requires LogOk(x, log) && i <= j < |Serial(log, p).transitions|
    ensures Serial(log, p).transitions[i].sequence <= Serial(log, p).transitions[j].sequence
  {
    SerialTransitionsUnique(x, log, p);
  }

  /** In the revision history, clocks agree with commit order, and no occurrence is known before its
      content was first seen. */
  lemma HistoryClocks(x: Externals, s: State, p: Product, i: nat, j: nat)
    requires Inv(x, s) && i <= j < |s.HistoryOf(p)|
    ensures var a, b := s.HistoryOf(p)[i], s.HistoryOf(p)[j];
            && a.content.firstSeen.Some? && a.state.known.Some? && b.state.known.Some?
            && a.content.firstSeen.value <= a.state.known.value <= b.state.known.value
  {
    var first, n := RowClocks(x, s, p, i);
    var second, m := RowClocks(x, s, p, j);
    SerialFinal(x, s, p);
    SequencesInOrder(x, Final(s), p, i, j);
    KnownInOrder(x, s, first, n);
    KnownInOrder(x, s, n, m);
  }

  /** For one key, known_at agrees with ordinal order in every reachable history. */
  lemma OrdinalsFollowKnowledge(x: Externals, events: seq<Event>, p: Product)
    requires x.Valid()
    ensures var h := Play(x, Empty(), events).HistoryOf(p);
            && (forall row | row in h :: row.content.firstSeen.Some? && row.state.known.Some?
                                         && row.content.firstSeen.value <= row.state.known.value)
            && (forall a, b | a in h && b in h && a.state.key == b.state.key && a.state.ordinal < b.state.ordinal ::
                  a.state.known.Some? && b.state.known.Some? && a.state.known.value <= b.state.known.value)
  {
    InvariantHolds(x, events);
    var s := Play(x, Empty(), events);
    var h := s.HistoryOf(p);
    HistoryOrdered(x, s, p);
    forall row | row in h
      ensures row.content.firstSeen.Some? && row.state.known.Some?
              && row.content.firstSeen.value <= row.state.known.value
    {
      var i :| 0 <= i < |h| && h[i] == row;
      HistoryClocks(x, s, p, i, i);
    }
    forall a, b | a in h && b in h && a.state.key == b.state.key && a.state.ordinal < b.state.ordinal
      ensures a.state.known.Some? && b.state.known.Some? && a.state.known.value <= b.state.known.value
    {
      var i :| 0 <= i < |h| && h[i] == a;
      var j :| 0 <= j < |h| && h[j] == b;
      OrdinalPosition(h, i, j);
      HistoryClocks(x, s, p, i, j);
    }
  }

  lemma OrdinalPosition(h: seq<HistoryRow>, i: nat, j: nat)
    requires KeyOrdered(States(h)) && i < |h| && j < |h|
    requires h[i].state.key == h[j].state.key && h[i].state.ordinal < h[j].state.ordinal
    ensures i <= j
  {
    assert States(h)[i] == h[i].state && States(h)[j] == h[j].state;
  }

  // ---------- the history join ----------

  /** Every transition of a SUCCEEDED run finds a content whose own first run has SUCCEEDED too. */
  ghost predicate JoinTotal(s: State, p: Product) {
    forall t: Transition | t in s.Of(p).transitions && Eligible(s.runs, t.run) ::
      exists c: Content :: c in s.Of(p).contents && c.Id() == t.Content() && Eligible(s.runs, c.firstRun)
  }

  lemma EligibleContent(x: Externals, s: State, p: Product, i: nat) returns (c: Content)
    requires Inv(x, s) && i < |s.Of(p).transitions| && Eligible(s.runs, s.Of(p).transitions[i].run)
    ensures c in s.Of(p).contents && c.Id() == s.Of(p).transitions[i].Content() && Eligible(s.runs, c.firstRun)
  {
    var serial := Serial(s.log, p);
    assert TablesOk(s.Of(p), s.runs, s.log, p);
    var t := serial.transitions[i];
    TransitionsHaveContents(x, s.log, p, t);
    var j :| 0 <= j < |serial.contents| && serial.contents[j].Id() == t.Content();
    c := s.Of(p).contents[j];
    var first := ContentBeforeState(x, s.log, p, serial.contents[j], t);
    LoggedClock(x, s, first);
    LoggedClock(x, s, t.sequence - 1);
    EarlierSucceeded(x, s, first, t.sequence - 1);
  }

  lemma EarlierSucceeded(x: Externals, s: State, i: nat, j: nat)
    requires Inv(x, s) && i <= j < |s.log| && Eligible(s.runs, s.log[j].run)
    ensures Eligible(s.runs, s.log[i].run)
  {
    if s.active == Some(s.log[i].run) {
      LogInjective(x, s.log, i, |s.log| - 1);
    }
  }

  /** The inner join of the revision history drops nothing and duplicates nothing, in every reachable state. */
  lemma JoinLosesNothing(x: Externals, events: seq<Event>, p: Product)
    requires x.Valid()
    ensures var s := Play(x, Empty(), events);
            && JoinTotal(s, p)
            && |s.HistoryOf(p)| == |StagedTransitions(s.runs, s.Of(p))|
  {
    InvariantHolds(x, events);
    var s := Play(x, Empty(), events);
    HistoryIsComplete(x, s, p);
    forall t: Transition | t in s.Of(p).transitions && Eligible(s.runs, t.run)
      ensures exists c: Content :: c in s.Of(p).contents && c.Id() == t.Content() && Eligible(s.runs, c.firstRun)
    {
      var i :| 0 <= i < |s.Of(p).transitions| && s.Of(p).transitions[i] == t;
      var c := EligibleContent(x, s, p, i);
    }
  }
}
