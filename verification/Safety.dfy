// The invariant of the warehouse protocol and its preservation by every event. The central clause is
// serializability: the stored rows are exactly those of the serial reference on the accepted batches.
module Safety {
  import opened Base
  import opened Batches
  import opened Planner
  import opened Facts
  import opened Protocol
  import opened Replay

  // ---------- clocks ----------

  function KnowledgeOf(runs: map<RunId, Run>, run: RunId): Option<nat> {
    if run in runs then runs[run].knowledgeAt else None
  }

  function StampedContents(cs: seq<Content>, runs: map<RunId, Run>): (r: seq<Content>)
    ensures |r| == |cs|
  {
    seq(|cs|, i requires 0 <= i < |cs| => cs[i].(firstSeen := KnowledgeOf(runs, cs[i].firstRun)))
  }

  function StampedTransitions(ts: seq<Transition>, runs: map<RunId, Run>): (r: seq<Transition>)
    ensures |r| == |ts|
  {
    seq(|ts|, i requires 0 <= i < |ts| => ts[i].(known := KnowledgeOf(runs, ts[i].run)))
  }

  /** `tables` with every clock set to the knowledge time of the owning run, or NULL. */
  function Stamped(tables: Tables, runs: map<RunId, Run>): Tables {
    Tables(StampedContents(tables.contents, runs), StampedTransitions(tables.transitions, runs))
  }

  lemma StampedIds(cs: seq<Content>, runs: map<RunId, Run>)
    ensures IdsOf(StampedContents(cs, runs)) == IdsOf(cs)
  {
    assert forall i | 0 <= i < |cs| :: StampedContents(cs, runs)[i].Id() == cs[i].Id();
  }

  lemma StampedStates(ts: seq<Transition>, runs: map<RunId, Run>)
    ensures TransitionIds(StampedTransitions(ts, runs)) == TransitionIds(ts)
  {
    assert forall i | 0 <= i < |ts| :: StampedTransitions(ts, runs)[i].Id() == ts[i].Id();
  }

  lemma {:induction false} StampedLatest(ts: seq<Transition>, runs: map<RunId, Run>)
    ensures LatestOf(StampedTransitions(ts, runs)) == LatestOf(ts)
  {
    if ts != [] {
      StampedLatest(ts[..|ts| - 1], runs);
      assert StampedTransitions(ts, runs)[..|ts| - 1] == StampedTransitions(ts[..|ts| - 1], runs);
    }
  }

  // ---------- the invariant ----------

  ghost predicate IsCommitted(r: Run) {
    r.status == Committed || r.status == Succeeded
  }

  /** log[i] is the run with commit_sequence i + 1, and its manifest describes exactly that batch. */
  ghost predicate EntryOk(runs: map<RunId, Run>, log: seq<Batch>, i: nat)
    requires i < |log|
  {
    var b := log[i];
    && b.run in runs
    && runs[b.run].request == b.request
    && runs[b.run].commitSequence == Some(i + 1)
    && runs[b.run].batchHash == Some(Fingerprint(b.rows))
    && runs[b.run].rowsAccepted == Some(|b.rows|)
  }

  /** How many contents and transitions a batch adds when it commits after `front`. */
  function Growth(front: seq<Batch>, batch: Batch): (int, int) {
    var before := Serial(front, batch.request.product);
    var after := Apply(before, |front|, batch);
    (|after.contents| - |before.contents|, |after.transitions| - |before.transitions|)
  }

  /** What the batch at position i added to its product's tables. */
  function Added(log: seq<Batch>, i: nat): (int, int)
    requires i < |log|
  {
    Growth(log[..i], log[i])
  }

  /** new_contents and new_transitions are what the batch really added. */
  ghost predicate CountsOk(runs: map<RunId, Run>, log: seq<Batch>, i: nat)
    requires i < |log|
  {
    && log[i].run in runs
    && runs[log[i].run].newContents.Some? && runs[log[i].run].newTransitions.Some?
    && (runs[log[i].run].newContents.value, runs[log[i].run].newTransitions.value) == Added(log, i)
  }

  ghost predicate EntriesOk(runs: map<RunId, Run>, log: seq<Batch>) {
    forall i | 0 <= i < |log| :: EntryOk(runs, log, i)
  }

  ghost predicate AllCountsOk(runs: map<RunId, Run>, log: seq<Batch>) {
    forall i | 0 <= i < |log| :: CountsOk(runs, log, i)
  }

  ghost predicate RunOk(log: seq<Batch>, run: RunId, r: Run) {
    && ValidRequest(r.request)
    && (r.commitSequence.Some? ==> 1 <= r.commitSequence.value <= |log| && log[r.commitSequence.value - 1].run == run)
    && (IsCommitted(r) <==> r.commitSequence.Some?)
    && (r.commitCompleted <==> r.commitSequence.Some?)
    && (r.knowledgeAt.Some? <==> r.status == Succeeded)
    && (r.status == Failed ==> r.rowsAccepted == Some(0))
  }

  ghost predicate RunsOk(runs: map<RunId, Run>, log: seq<Batch>) {
    forall run | run in runs :: RunOk(log, run, runs[run])
  }

  ghost predicate KnownBy(runs: map<RunId, Run>, clock: nat) {
    forall run | run in runs && runs[run].knowledgeAt.Some? :: runs[run].knowledgeAt.value <= clock
  }

  /** Only the newest batch can be unfinalized, and then it holds the gate. */
  ghost predicate GateOk(active: Option<RunId>, runs: map<RunId, Run>, log: seq<Batch>) {
    && (active.Some? ==> |log| > 0 && log[|log| - 1].run == active.value
                         && active.value in runs && runs[active.value].status == Committed)
    && (forall i | 0 <= i < |log| && active != Some(log[i].run) ::
          log[i].run in runs && runs[log[i].run].status == Succeeded)
  }

  /** Batches become known in the order in which they were committed. */
  ghost predicate KnowledgeOrdered(runs: map<RunId, Run>, log: seq<Batch>) {
    forall i, j | 0 <= i < j < |log| && KnowledgeOf(runs, log[j].run).Some? ::
      KnowledgeOf(runs, log[i].run).Some?
      && KnowledgeOf(runs, log[i].run).value <= KnowledgeOf(runs, log[j].run).value
  }

  /** A pending plan is exact while no other batch has committed since its snapshot. */
  ghost predicate PendingOk(x: Externals, tables: Tables, sequence: nat, active: Option<RunId>, run: RunId,
                            sub: Submission)
  {
    && RowsOk(x, sub.request, sub.rows)
    && sub.plan.expected <= sequence
    && (sub.plan.expected == sequence ==>
          active.None? && sub.plan == PlanOf(run, sub.rows, SnapshotOf(tables, sequence, sub.request.day)))
  }

  /** Every batch before the newest was known by `ended`. */
  ghost predicate EarlierKnownBy(runs: map<RunId, Run>, log: seq<Batch>, ended: nat) {
    forall i | 0 <= i < |log| - 1 ::
      KnowledgeOf(runs, log[i].run).Some? && KnowledgeOf(runs, log[i].run).value <= ended
  }

  ghost predicate JobOk(x: Externals, s: State, run: RunId, job: Job) {
    match job
    case Pending(sub) =>
      && run in s.runs && s.runs[run].request == sub.request
      && PendingOk(x, s.Of(sub.request.product), s.sequence, s.active, run, sub)
    case Landed => run in s.runs && IsCommitted(s.runs[run])
    case Done(at) => (run, at) in s.ended
    case Errored => true
  }

  ghost predicate JobsOk(x: Externals, s: State) {
    forall run | run in s.jobs :: JobOk(x, s, run, s.jobs[run])
  }

  /** The end of a commit job: its run has committed, and everything before the newest batch was known by then. */
  ghost predicate EndOk(active: Option<RunId>, runs: map<RunId, Run>, log: seq<Batch>, clock: nat, run: RunId,
                        at: nat)
  {
    && run in runs && IsCommitted(runs[run]) && at <= clock
    && (active == Some(run) ==> EarlierKnownBy(runs, log, at))
  }

  ghost predicate EndsOk(s: State) {
    forall run, at | (run, at) in s.ended :: EndOk(s.active, s.runs, s.log, s.clock, run, at)
  }

  /** A begin job carries a valid request, and once it succeeded its manifest exists. */
  ghost predicate BeginsOk(begins: map<RunId, BeginJob>, runs: map<RunId, Run>) {
    forall run | run in begins ::
      && (begins[run].BeginPending? ==> ValidRequest(begins[run].request))
      && (begins[run].Begun? ==> run in runs)
  }

  /** A snapshot as old as the current sequence is still exact; older ones are stale. */
  ghost predicate SnapshotOk(tables: Tables, sequence: nat, active: Option<RunId>, request: Request, snap: Snapshot) {
    && snap.sequence <= sequence
    && (snap.sequence == sequence ==> active.None? && snap == SnapshotOf(tables, sequence, request.day))
  }

  ghost predicate TakenOk(s: State) {
    forall t | t in s.taken :: SnapshotOk(s.Of(t.0.product), s.sequence, s.active, t.0, t.1)
  }

  /** The stored rows are those of the serial reference, with the owning runs' clocks. */
  ghost predicate TablesOk(tables: Tables, runs: map<RunId, Run>, log: seq<Batch>, product: Product) {
    tables == Stamped(Serial(log, product), runs)
  }

  ghost predicate Inv(x: Externals, s: State) {
    && |s.log| == s.sequence
    && LogOk(x, s.log)
    && EntriesOk(s.runs, s.log)
    && AllCountsOk(s.runs, s.log)
    && RunsOk(s.runs, s.log)
    && KnownBy(s.runs, s.clock)
    && GateOk(s.active, s.runs, s.log)
    && KnowledgeOrdered(s.runs, s.log)
    && TablesOk(s.lmp, s.runs, s.log, Lmp) && TablesOk(s.load, s.runs, s.log, Load)
    && JobsOk(x, s)
    && EndsOk(s)
    && BeginsOk(s.begins, s.runs)
    && TakenOk(s)
  }

  // ---------- a snapshot read at the current sequence is exact ----------

  /** Every stored row of a key lies on the key's own Pacific day. */
  lemma StoredContentDay(x: Externals, log: seq<Batch>, product: Product, c: Content, day: int)
    requires x.Valid() && LogOk(x, log) && c in Serial(log, product).contents && x.InDay(c.key.start, day)
    ensures c.day == day
  {
    var i := ContentOrigin(x, log, product, c);
    assert RowsOk(x, log[i].request, log[i].rows);
    assert RowOk(x, log[i].request, Row(c.key, c.hash, c.day, c.retrieved));
    DayIsUnique(x, c.key.start, c.day, day);
  }

  lemma StoredTransitionDay(x: Externals, log: seq<Batch>, product: Product, t: Transition, day: int)
    requires x.Valid() && LogOk(x, log) && t in Serial(log, product).transitions && x.InDay(t.key.start, day)
    ensures t.day == day
  {
    TransitionOrigin(x, log, product, t);
    var i := t.sequence - 1;
    assert RowsOk(x, log[i].request, log[i].rows);
    assert RowOk(x, log[i].request, Row(t.key, t.hash, t.day, t.retrieved));
    DayIsUnique(x, t.key.start, t.day, day);
  }

  lemma {:induction false} LatestOnDay(ts: seq<Transition>, day: int, key: Key)
    requires forall t | t in ts && t.key == key :: t.day == day
    ensures var some, all := LatestOf(Where(ts, TransitionOnDay(day))), LatestOf(ts);
            (key in some <==> key in all) && (key in all ==> some[key] == all[key])
  {
    if ts != [] {
      var front, last := ts[..|ts| - 1], ts[|ts| - 1];
      LatestOnDay(front, day, key);
      if last.day == day {
        assert Where(ts, TransitionOnDay(day))[..|Where(front, TransitionOnDay(day))|] ==
                 Where(front, TransitionOnDay(day));
      }
    }
  }

  lemma IdsOnDay(cs: seq<Content>, day: int, id: ContentId)
    requires forall c | c in cs && c.Id() == id :: c.day == day
    ensures id in IdsOf(Where(cs, ContentOnDay(day))) <==> id in IdsOf(cs)
  {
    IdsMember(cs, id);
    IdsMember(Where(cs, ContentOnDay(day)), id);
    forall c
      ensures c in Where(cs, ContentOnDay(day)) <==> c in cs && c.day == day
    {
      WhereMember(cs, ContentOnDay(day), c);
    }
  }

  lemma StampedMember(tables: Tables, runs: map<RunId, Run>)
    ensures forall c | c in Stamped(tables, runs).contents :: c.(firstSeen := None) in Unclocked(tables).contents
    ensures forall t | t in Stamped(tables, runs).transitions :: t.(known := None) in Unclocked(tables).transitions
  {
    forall c | c in Stamped(tables, runs).contents
      ensures c.(firstSeen := None) in Unclocked(tables).contents
    {
      var i :| 0 <= i < |tables.contents| && Stamped(tables, runs).contents[i] == c;
      assert Unclocked(tables).contents[i] == c.(firstSeen := None);
    }
    forall t | t in Stamped(tables, runs).transitions
      ensures t.(known := None) in Unclocked(tables).transitions
    {
      var i :| 0 <= i < |tables.transitions| && Stamped(tables, runs).transitions[i] == t;
      assert Unclocked(tables).transitions[i] == t.(known := None);
    }
  }

  function Unclocked(tables: Tables): Tables {
    Stamped(tables, map[])
  }

  lemma SerialIsUnclocked(x: Externals, log: seq<Batch>, product: Product)
    requires LogOk(x, log)
    ensures Unclocked(Serial(log, product)) == Serial(log, product)
  {
    var tables := Serial(log, product);
    forall i | 0 <= i < |tables.contents|
      ensures tables.contents[i].firstSeen.None?
    {
      var o := ContentOrigin(x, log, product, tables.contents[i]);
    }
    forall i | 0 <= i < |tables.transitions|
      ensures tables.transitions[i].known.None?
    {
      TransitionOrigin(x, log, product, tables.transitions[i]);
    }
    assert Unclocked(tables).contents == tables.contents;
    assert Unclocked(tables).transitions == tables.transitions;
  }

  /** Reading one market day loses nothing a planner of that day's batch could look at: the day's
      snapshot agrees with the whole tables, and with the serial reference, on every row. */
  lemma SnapshotIsExact(x: Externals, s: State, request: Request, rows: seq<Row>)
    requires x.Valid() && Inv(x, s) && RowsOk(x, request, rows)
    ensures var stored, day := s.Of(request.product), SnapshotOf(s.Of(request.product), s.sequence, request.day);
            && AgreeOn(rows, day, FullSnapshot(stored, s.sequence))
            && AgreeOn(rows, day, FullSnapshot(Serial(s.log, request.product), s.sequence))
  {
    var p := request.product;
    var serial, stored := Serial(s.log, p), s.Of(p);
    assert TablesOk(stored, s.runs, s.log, p);
    StampedIds(serial.contents, s.runs);
    StampedLatest(serial.transitions, s.runs);
    SerialIsUnclocked(x, s.log, p);
    StampedMember(serial, s.runs);
    forall row | row in rows
      ensures row.Id() in IdsOf(Where(stored.contents, ContentOnDay(request.day))) <==>
                row.Id() in IdsOf(stored.contents)
      ensures var some := LatestOf(Where(stored.transitions, TransitionOnDay(request.day)));
              var all := LatestOf(stored.transitions);
              (row.key in some <==> row.key in all) && (row.key in all ==> some[row.key] == all[row.key])
    {
      assert RowOk(x, request, row);
      forall c | c in stored.contents && c.Id() == row.Id()
        ensures c.day == request.day
      {
        StoredContentDay(x, s.log, p, c.(firstSeen := None), request.day);
      }
      forall t | t in stored.transitions && t.key == row.key
        ensures t.day == request.day
      {
        StoredTransitionDay(x, s.log, p, t.(known := None), request.day);
      }
      IdsOnDay(stored.contents, request.day, row.Id());
      LatestOnDay(stored.transitions, request.day, row.key);
    }
  }

  // ---------- preservation: events that touch no batch ----------

  lemma StampedAgree(tables: Tables, runs: map<RunId, Run>, runs': map<RunId, Run>)
    requires forall c | c in tables.contents :: KnowledgeOf(runs, c.firstRun) == KnowledgeOf(runs', c.firstRun)
    requires forall t | t in tables.transitions :: KnowledgeOf(runs, t.run) == KnowledgeOf(runs', t.run)
    ensures Stamped(tables, runs) == Stamped(tables, runs')
  {
    assert Stamped(tables, runs).contents == Stamped(tables, runs').contents;
    assert Stamped(tables, runs).transitions == Stamped(tables, runs').transitions;
  }

  /** A run without a commit_sequence is not in the log. */
  lemma NotLogged(runs: map<RunId, Run>, log: seq<Batch>, run: RunId)
    requires EntriesOk(runs, log) && (run in runs ==> runs[run].commitSequence.None?)
    ensures forall i | 0 <= i < |log| :: log[i].run != run
  {
    forall i | 0 <= i < |log|
      ensures log[i].run != run
    {
      assert EntryOk(runs, log, i);
    }
  }

  /** Rewriting the manifest of an unlogged run leaves the log's own manifests alone. */
  lemma LogKeeps(runs: map<RunId, Run>, log: seq<Batch>, run: RunId, r: Run, active: Option<RunId>)
    requires EntriesOk(runs, log) && AllCountsOk(runs, log) && GateOk(active, runs, log) && KnowledgeOrdered(runs, log)
    requires forall i | 0 <= i < |log| :: log[i].run != run
    ensures var runs' := runs[run := r];
            EntriesOk(runs', log) && AllCountsOk(runs', log) && GateOk(active, runs', log)
            && KnowledgeOrdered(runs', log)
  {
    var runs' := runs[run := r];
    forall i | 0 <= i < |log|
      ensures EntryOk(runs', log, i) && CountsOk(runs', log, i)
    {
      assert EntryOk(runs, log, i) && CountsOk(runs, log, i);
    }
  }

  lemma RunsKeep(runs: map<RunId, Run>, log: seq<Batch>, clock: nat, run: RunId, r: Run)
    requires RunsOk(runs, log) && KnownBy(runs, clock) && RunOk(log, run, r)
    requires r.knowledgeAt.Some? ==> r.knowledgeAt.value <= clock
    ensures RunsOk(runs[run := r], log) && KnownBy(runs[run := r], clock)
  {
  }

  lemma TablesKeep(tables: Tables, runs: map<RunId, Run>, log: seq<Batch>, product: Product, run: RunId, r: Run)
    requires TablesOk(tables, runs, log, product) && KnowledgeOf(runs, run).None? && r.knowledgeAt.None?
    ensures TablesOk(tables, runs[run := r], log, product)
  {
    StampedAgree(Serial(log, product), runs, runs[run := r]);
  }

  lemma JobsKeep(x: Externals, s: State, run: RunId, r: Run)
    requires JobsOk(x, s) && (run in s.runs ==> s.runs[run].request == r.request && !IsCommitted(s.runs[run]))
    requires forall i | 0 <= i < |s.log| :: s.log[i].run != run
    ensures JobsOk(x, s.(runs := s.runs[run := r]))
  {
    var s' := s.(runs := s.runs[run := r]);
    forall q | q in s'.jobs
      ensures JobOk(x, s', q, s'.jobs[q])
    {
      assert JobOk(x, s, q, s.jobs[q]);
    }
  }

  lemma EndsKeep(s: State, run: RunId, r: Run)
    requires EndsOk(s) && (run in s.runs ==> !IsCommitted(s.runs[run]))
    requires forall i | 0 <= i < |s.log| :: s.log[i].run != run
    ensures EndsOk(s.(runs := s.runs[run := r]))
  {
    var s' := s.(runs := s.runs[run := r]);
    forall q, at | (q, at) in s'.ended
      ensures EndOk(s'.active, s'.runs, s'.log, s'.clock, q, at)
    {
      assert EndOk(s.active, s.runs, s.log, s.clock, q, at);
    }
  }

  /** Creating or failing a run that has not committed disturbs nothing. */
  lemma RunEditKeeps(x: Externals, s: State, run: RunId, r: Run)
    requires Inv(x, s)
    requires run in s.runs ==> s.runs[run].commitSequence.None? && s.runs[run].request == r.request
    requires r.commitSequence.None? && !IsCommitted(r) && !r.commitCompleted && r.knowledgeAt.None?
             && ValidRequest(r.request)
    requires r.status == Failed ==> r.rowsAccepted == Some(0)
    ensures Inv(x, s.(runs := s.runs[run := r]))
  {
    assert run in s.runs ==> RunOk(s.log, run, s.runs[run]);
    NotLogged(s.runs, s.log, run);
    LogKeeps(s.runs, s.log, run, r, s.active);
    RunsKeep(s.runs, s.log, s.clock, run, r);
    TablesKeep(s.lmp, s.runs, s.log, Lmp, run, r);
    TablesKeep(s.load, s.runs, s.log, Load, run, r);
    JobsKeep(x, s, run, r);
    EndsKeep(s, run, r);
  }

  /** Changing one job keeps the invariant when the new job is in order. */
  lemma JobEditKeeps(x: Externals, s: State, run: RunId, job: Job)
    requires Inv(x, s) && JobOk(x, s, run, job)
    ensures Inv(x, s.(jobs := s.jobs[run := job]))
  {
    var s' := s.(jobs := s.jobs[run := job]);
    forall q | q in s'.jobs
      ensures JobOk(x, s', q, s'.jobs[q])
    {
      assert q != run ==> JobOk(x, s, q, s.jobs[q]);
    }
  }

  /** States that differ only in jobs dropped, time passed, facts built and snapshots read. */
  ghost predicate SameWarehouse(s: State, s': State) {
    && s'.sequence == s.sequence && s'.active == s.active && s'.runs == s.runs
    && s'.lmp == s.lmp && s'.load == s.load && s'.log == s.log
    && s'.begins == s.begins && s'.ended == s.ended && s'.clock >= s.clock
    && s'.jobs.Keys <= s.jobs.Keys && forall run | run in s'.jobs :: s'.jobs[run] == s.jobs[run]
  }

  lemma SameWarehouseKeeps(x: Externals, s: State, s': State)
    requires Inv(x, s) && SameWarehouse(s, s')
    requires forall t | t in s'.taken :: t in s.taken || SnapshotOk(s.Of(t.0.product), s.sequence, s.active, t.0, t.1)
    ensures Inv(x, s')
  {
    forall q | q in s'.jobs
      ensures JobOk(x, s', q, s'.jobs[q])
    {
      assert JobOk(x, s, q, s.jobs[q]);
    }
  }

  /** A submission made from a snapshot some client really read is in order. */
  lemma SubmitKeeps(x: Externals, s: State, run: RunId, request: Request, records: seq<Observation>, snap: Snapshot)
    requires x.Valid() && Inv(x, s)
    ensures Inv(x, Step(x, s, Submit(run, request, records, snap)))
  {
    if && run in s.runs && s.runs[run].request == request && (request, snap) in s.taken
       && BatchOf(x, request, records).Ok? && run !in s.jobs {
      assert RunOk(s.log, run, s.runs[run]);
      BatchIsOk(x, request, records);
      assert SnapshotOk(s.Of((request, snap).0.product), s.sequence, s.active, (request, snap).0, (request, snap).1);
      var rows := BatchOf(x, request, records).value;
      JobEditKeeps(x, s, run, Pending(Submission(request, rows, PlanOf(run, rows, snap))));
    }
  }

  // ---------- preservation: the commit transaction ----------

  ghost predicate Committing(x: Externals, s: State, run: RunId, sub: Submission) {
    x.Valid() && Inv(x, s) && JobOk(x, s, run, Pending(sub)) && CommitBatch(s, run, sub).Some?
  }

  /** A plan that passes the sequence guard is the plan of the serial reference. */
  lemma CommitIsSerial(x: Externals, s: State, run: RunId, sub: Submission)
    requires Committing(x, s, run, sub)
    ensures sub.plan == PlanOf(run, sub.rows, FullSnapshot(Serial(s.log, sub.request.product), s.sequence))
  {
    var p := sub.request.product;
    SnapshotIsExact(x, s, sub.request, sub.rows);
    PlanAgrees(run, sub.rows, SnapshotOf(s.Of(p), s.sequence, sub.request.day),
               FullSnapshot(Serial(s.log, p), s.sequence));
  }

  /** MERGE inserts every row of such a plan. */
  lemma MergeInsertsAll(x: Externals, s: State, run: RunId, sub: Submission)
    requires Committing(x, s, run, sub)
    ensures MergePlan(s.Of(sub.request.product), sub.plan) ==
            Tables(s.Of(sub.request.product).contents + sub.plan.contents,
                   s.Of(sub.request.product).transitions + sub.plan.transitions)
  {
    var p := sub.request.product;
    var serial, stored := Serial(s.log, p), s.Of(p);
    var full := FullSnapshot(serial, s.sequence);
    CommitIsSerial(x, s, run, sub);
    assert TablesOk(stored, s.runs, s.log, p) && RunOk(s.log, run, s.runs[run]);
    StampedIds(serial.contents, s.runs);
    forall c | c in sub.plan.contents
      ensures ContentUnknown(IdsOf(stored.contents))(c)
    {
      NewContentMember(run, sub.rows, full, c);
    }
    WhereAll(sub.plan.contents, ContentUnknown(IdsOf(stored.contents)));
    forall t | t in sub.plan.transitions
      ensures TransitionUnknown(TransitionIds(stored.transitions))(t)
    {
      FreshTransition(x, s, run, sub.rows, full, p, t);
    }
    WhereAll(sub.plan.transitions, TransitionUnknown(TransitionIds(stored.transitions)));
  }

  lemma FreshTransition(x: Externals, s: State, run: RunId, rows: seq<Row>, snap: Snapshot, p: Product, t: Transition)
    requires Inv(x, s) && run in s.runs && s.runs[run].commitSequence.None?
    requires t in NewTransitions(run, rows, snap)
    ensures t.Id() !in TransitionIds(s.Of(p).transitions)
  {
    NewTransitionMember(run, rows, snap, t);
    assert TablesOk(s.Of(p), s.runs, s.log, p);
    var serial := Serial(s.log, p).transitions;
    StampedStates(serial, s.runs);
    NotLogged(s.runs, s.log, run);
    forall i | 0 <= i < |serial|
      ensures serial[i].run != run
    {
      TransitionOrigin(x, s.log, p, serial[i]);
    }
  }

  lemma SerialAppend(log: seq<Batch>, batch: Batch, product: Product)
    ensures Serial(log + [batch], product) ==
            if batch.request.product != product then Serial(log, product) else Apply(Serial(log, product), |log|, batch)
  {
    assert (log + [batch])[..|log|] == log;
  }

  /** New rows of an unfinalized run carry NULL clocks. */
  lemma AppendStamped(tables: Tables, plan: Plan, runs: map<RunId, Run>, run: RunId)
    requires KnowledgeOf(runs, run).None?
    requires forall c | c in plan.contents :: c.firstRun == run && c.firstSeen.None?
    requires forall t | t in plan.transitions :: t.run == run && t.known.None?
    ensures Stamped(Tables(tables.contents + plan.contents, tables.transitions + plan.transitions), runs) ==
            Tables(Stamped(tables, runs).contents + plan.contents, Stamped(tables, runs).transitions + plan.transitions)
  {
    var both := Stamped(Tables(tables.contents + plan.contents, tables.transitions + plan.transitions), runs);
    assert both.contents == Stamped(tables, runs).contents + plan.contents;
    assert both.transitions == Stamped(tables, runs).transitions + plan.transitions;
  }

  lemma PlanOwner(run: RunId, rows: seq<Row>, snap: Snapshot)
    ensures forall c | c in NewContents(run, rows, snap) :: c.firstRun == run && c.firstSeen.None?
    ensures forall t | t in NewTransitions(run, rows, snap) :: t.run == run && t.known.None?
  {
    forall c | c in NewContents(run, rows, snap)
      ensures c.firstRun == run && c.firstSeen.None?
    {
      NewContentMember(run, rows, snap, c);
    }
    forall t | t in NewTransitions(run, rows, snap)
      ensures t.run == run && t.known.None?
    {
      NewTransitionMember(run, rows, snap, t);
    }
  }

  lemma CommitTables(x: Externals, s: State, run: RunId, sub: Submission, product: Product)
    requires Committing(x, s, run, sub)
    ensures var s' := CommitBatch(s, run, sub).value; TablesOk(s'.Of(product), s'.runs, s'.log, product)
  {
    var s' := CommitBatch(s, run, sub).value;
    var serial := Serial(s.log, product);
    assert TablesOk(s.Of(product), s.runs, s.log, product) && RunOk(s.log, run, s.runs[run]);
    SerialAppend(s.log, Batch(run, sub.request, sub.rows), product);
    StampedAgree(serial, s.runs, s'.runs);
    if product == sub.request.product {
      CommitIsSerial(x, s, run, sub);
      MergeInsertsAll(x, s, run, sub);
      PlanOwner(run, sub.rows, FullSnapshot(serial, s.sequence));
      AppendStamped(serial, sub.plan, s'.runs, run);
    }
  }

  /** The manifest written by the commit is in order at the new end of the log. */
  lemma NewEntry(x: Externals, s: State, run: RunId, sub: Submission)
    requires Committing(x, s, run, sub)
    ensures var s' := CommitBatch(s, run, sub).value;
            EntryOk(s'.runs, s'.log, |s.log|) && CountsOk(s'.runs, s'.log, |s.log|)
  {
    var s' := CommitBatch(s, run, sub).value;
    CommitIsSerial(x, s, run, sub);
    assert s'.log[..|s.log|] == s.log;
  }

  lemma AddedKeeps(log: seq<Batch>, batch: Batch, i: nat)
    requires i < |log|
    ensures Added(log + [batch], i) == Added(log, i)
  {
    assert (log + [batch])[..i] == log[..i];
  }

  lemma OldEntries(runs: map<RunId, Run>, log: seq<Batch>, batch: Batch, r: Run)
    requires EntriesOk(runs, log) && AllCountsOk(runs, log)
    requires forall i | 0 <= i < |log| :: log[i].run != batch.run
    requires EntryOk(runs[batch.run := r], log + [batch], |log|) && CountsOk(runs[batch.run := r], log + [batch], |log|)
    ensures EntriesOk(runs[batch.run := r], log + [batch]) && AllCountsOk(runs[batch.run := r], log + [batch])
  {
    var runs', log' := runs[batch.run := r], log + [batch];
    forall i | 0 <= i < |log|
      ensures EntryOk(runs', log', i) && CountsOk(runs', log', i)
    {
      assert EntryOk(runs, log, i) && CountsOk(runs, log, i);
      AddedKeeps(log, batch, i);
    }
  }

  lemma CommitRuns(runs: map<RunId, Run>, log: seq<Batch>, clock: nat, batch: Batch, r: Run)
    requires RunsOk(runs, log) && KnownBy(runs, clock) && batch.run in runs && ValidRequest(r.request)
    requires r.status == Committed && r.commitCompleted && r.commitSequence == Some(|log| + 1) && r.knowledgeAt.None?
    ensures RunsOk(runs[batch.run := r], log + [batch]) && KnownBy(runs[batch.run := r], clock)
  {
    var runs', log' := runs[batch.run := r], log + [batch];
    forall q | q in runs'
      ensures RunOk(log', q, runs'[q])
    {
      assert q in runs && RunOk(log, q, runs[q]);
    }
  }

  lemma CommitGate(runs: map<RunId, Run>, log: seq<Batch>, batch: Batch, r: Run)
    requires GateOk(None, runs, log) && KnowledgeOrdered(runs, log)
    requires forall i | 0 <= i < |log| :: log[i].run != batch.run
    requires r.status == Committed && r.knowledgeAt.None?
    ensures GateOk(Some(batch.run), runs[batch.run := r], log + [batch])
    ensures KnowledgeOrdered(runs[batch.run := r], log + [batch])
  {
  }

  lemma CommitJobs(x: Externals, s: State, run: RunId, sub: Submission)
    requires Committing(x, s, run, sub) && run in s.jobs
    ensures JobsOk(x, ExecuteWith(s, run, sub)) && TakenOk(ExecuteWith(s, run, sub))
  {
    var s' := ExecuteWith(s, run, sub);
    forall q | q in s'.jobs
      ensures JobOk(x, s', q, s'.jobs[q])
    {
      assert JobOk(x, s, q, s.jobs[q]);
    }
    forall t | t in s'.taken
      ensures SnapshotOk(s'.Of(t.0.product), s'.sequence, s'.active, t.0, t.1)
    {
      assert SnapshotOk(s.Of(t.0.product), s.sequence, s.active, t.0, t.1);
    }
  }

  lemma CommitEnds(x: Externals, s: State, run: RunId, sub: Submission)
    requires Committing(x, s, run, sub)
    ensures EndsOk(CommitBatch(s, run, sub).value)
  {
    var s' := CommitBatch(s, run, sub).value;
    forall q, at | (q, at) in s'.ended
      ensures EndOk(s'.active, s'.runs, s'.log, s'.clock, q, at)
    {
      assert EndOk(s.active, s.runs, s.log, s.clock, q, at);
    }
  }

  function ExecuteWith(s: State, run: RunId, sub: Submission): State
    requires CommitBatch(s, run, sub).Some?
  {
    CommitBatch(s, run, sub).value.(jobs := s.jobs[run := Landed])
  }

  lemma LogOkAppend(x: Externals, log: seq<Batch>, batch: Batch)
    requires LogOk(x, log) && RowsOk(x, batch.request, batch.rows)
    requires forall i | 0 <= i < |log| :: log[i].run != batch.run
    ensures LogOk(x, log + [batch])
  {
  }

  lemma CommitKeeps(x: Externals, s: State, run: RunId, sub: Submission)
    requires Committing(x, s, run, sub) && run in s.jobs
    ensures Inv(x, ExecuteWith(s, run, sub))
  {
    var batch, r := Batch(run, sub.request, sub.rows), CommittedRun(s.runs[run], sub.plan);
    assert RunOk(s.log, run, s.runs[run]);
    NotLogged(s.runs, s.log, run);
    LogOkAppend(x, s.log, batch);
    NewEntry(x, s, run, sub);
    OldEntries(s.runs, s.log, batch, r);
    CommitRuns(s.runs, s.log, s.clock, batch, r);
    CommitGate(s.runs, s.log, batch, r);
    CommitTables(x, s, run, sub, Lmp);
    CommitTables(x, s, run, sub, Load);
    CommitJobs(x, s, run, sub);
    CommitEnds(x, s, run, sub);
  }

  lemma ExecuteKeeps(x: Externals, s: State, run: RunId)
    requires x.Valid() && Inv(x, s)
    ensures Inv(x, ExecuteJob(s, run))
  {
    if run in s.jobs && s.jobs[run].Pending? {
      assert JobOk(x, s, run, s.jobs[run]);
      if CommitBatch(s, run, s.jobs[run].submission).Some? {
        CommitKeeps(x, s, run, s.jobs[run].submission);
      } else {
        JobEditKeeps(x, s, run, Errored);
      }
    }
  }

  // ---------- preservation: finalization ----------

  lemma RowsOfOtherProduct(x: Externals, s: State, run: RunId, product: Product)
    requires Inv(x, s) && run in s.runs && s.runs[run].request.product != product
    ensures forall c | c in Serial(s.log, product).contents :: c.firstRun != run
    ensures forall t | t in Serial(s.log, product).transitions :: t.run != run
  {
    forall c | c in Serial(s.log, product).contents
      ensures c.firstRun != run
    {
      var i := ContentOrigin(x, s.log, product, c);
      assert EntryOk(s.runs, s.log, i);
    }
    forall t | t in Serial(s.log, product).transitions
      ensures t.run != run
    {
      TransitionOrigin(x, s.log, product, t);
      assert EntryOk(s.runs, s.log, t.sequence - 1);
    }
  }

  /** Setting the NULL clocks of a run is stamping with its knowledge time. */
  lemma StampIsStamped(serial: Tables, runs: map<RunId, Run>, run: RunId, r: Run, at: nat)
    requires KnowledgeOf(runs, run).None? && r.knowledgeAt == Some(at)
    ensures Stamp(Stamped(serial, runs), run, at) == Stamped(serial, runs[run := r])
  {
    assert Stamp(Stamped(serial, runs), run, at).contents == Stamped(serial, runs[run := r]).contents;
    assert Stamp(Stamped(serial, runs), run, at).transitions == Stamped(serial, runs[run := r]).transitions;
  }

  lemma FinalizeTables(x: Externals, s: State, run: RunId, at: nat, product: Product)
    requires Inv(x, s) && run in s.runs && s.runs[run].status == Committed && FinalizeRun(s, run, at).Some?
    ensures var s' := FinalizeRun(s, run, at).value; TablesOk(s'.Of(product), s'.runs, s'.log, product)
  {
    var s' := FinalizeRun(s, run, at).value;
    assert TablesOk(s.Of(product), s.runs, s.log, product) && RunOk(s.log, run, s.runs[run]);
    if s.runs[run].request.product == product {
      StampIsStamped(Serial(s.log, product), s.runs, run, s'.runs[run], at);
    } else {
      RowsOfOtherProduct(x, s, run, product);
      StampedAgree(Serial(s.log, product), s.runs, s'.runs);
    }
  }

  lemma FinalizeLog(runs: map<RunId, Run>, log: seq<Batch>, run: RunId, at: nat, clock: nat)
    requires EntriesOk(runs, log) && AllCountsOk(runs, log) && RunsOk(runs, log) && KnownBy(runs, clock) && at <= clock
    requires GateOk(Some(run), runs, log) && KnowledgeOrdered(runs, log) && EarlierKnownBy(runs, log, at)
    requires forall i, j | 0 <= i < j < |log| :: log[i].run != log[j].run
    ensures var runs' := runs[run := runs[run].(status := Succeeded, knowledgeAt := Some(at))];
            && EntriesOk(runs', log) && AllCountsOk(runs', log) && RunsOk(runs', log) && KnownBy(runs', clock)
            && GateOk(None, runs', log) && KnowledgeOrdered(runs', log)
  {
    var runs' := runs[run := runs[run].(status := Succeeded, knowledgeAt := Some(at))];
    forall i | 0 <= i < |log|
      ensures EntryOk(runs', log, i) && CountsOk(runs', log, i)
    {
      assert EntryOk(runs, log, i) && CountsOk(runs, log, i);
    }
    forall q | q in runs'
      ensures RunOk(log, q, runs'[q])
    {
      assert RunOk(log, q, runs[q]);
    }
  }

  lemma FinalizeJobs(x: Externals, s: State, run: RunId, at: nat)
    requires Inv(x, s) && s.active == Some(run) && run in s.runs && FinalizeRun(s, run, at).Some?
    ensures JobsOk(x, FinalizeRun(s, run, at).value) && TakenOk(FinalizeRun(s, run, at).value)
  {
    var s' := FinalizeRun(s, run, at).value;
    forall q | q in s'.jobs
      ensures JobOk(x, s', q, s'.jobs[q])
    {
      assert JobOk(x, s, q, s.jobs[q]);
    }
    forall t | t in s'.taken
      ensures SnapshotOk(s'.Of(t.0.product), s'.sequence, s'.active, t.0, t.1)
    {
      assert SnapshotOk(s.Of(t.0.product), s.sequence, s.active, t.0, t.1);
    }
  }

  lemma FinalizeEnds(x: Externals, s: State, run: RunId, at: nat)
    requires Inv(x, s) && s.active == Some(run) && run in s.runs && FinalizeRun(s, run, at).Some?
    ensures EndsOk(FinalizeRun(s, run, at).value)
  {
    var s' := FinalizeRun(s, run, at).value;
    forall q, e | (q, e) in s'.ended
      ensures EndOk(s'.active, s'.runs, s'.log, s'.clock, q, e)
    {
      assert EndOk(s.active, s.runs, s.log, s.clock, q, e);
    }
  }

  lemma FinalizeKeeps(x: Externals, s: State, run: RunId, at: nat)
    requires Inv(x, s)
    ensures Inv(x, FinalizeJob(s, run, at))
  {
    if (run, at) in s.ended && s.active == Some(run) && run in s.runs && s.runs[run].status == Committed {
      assert EndOk(s.active, s.runs, s.log, s.clock, run, at);
      FinalizeTables(x, s, run, at, Lmp);
      FinalizeTables(x, s, run, at, Load);
      FinalizeLog(s.runs, s.log, run, at, s.clock);
      FinalizeJobs(x, s, run, at);
      FinalizeEnds(x, s, run, at);
    }
  }

  // ---------- every event, every run ----------

  /** A landed job that ends now ends no earlier than anything before the newest batch became known. */
  lemma EndsNow(x: Externals, s: State, run: RunId)
    requires Inv(x, s) && run in s.jobs && s.jobs[run].Landed?
    ensures EndOk(s.active, s.runs, s.log, s.clock, run, s.clock)
  {
    assert JobOk(x, s, run, s.jobs[run]);
    if s.active == Some(run) {
      forall i | 0 <= i < |s.log| - 1
        ensures KnowledgeOf(s.runs, s.log[i].run).Some? && KnowledgeOf(s.runs, s.log[i].run).value <= s.clock
      {
        assert s.log[i].run != s.log[|s.log| - 1].run;
        assert EntryOk(s.runs, s.log, i) && RunOk(s.log, s.log[i].run, s.runs[s.log[i].run]);
      }
    }
  }

  lemma EndRecordKeeps(x: Externals, s: State, run: RunId, at: nat)
    requires Inv(x, s) && EndOk(s.active, s.runs, s.log, s.clock, run, at)
    ensures Inv(x, s.(ended := s.ended + {(run, at)}))
  {
    var s' := s.(ended := s.ended + {(run, at)});
    forall q | q in s'.jobs
      ensures JobOk(x, s', q, s'.jobs[q])
    {
      assert JobOk(x, s, q, s.jobs[q]);
    }
  }

  lemma EndKeeps(x: Externals, s: State, run: RunId, succeeded: bool)
    requires Inv(x, s)
    ensures Inv(x, EndJob(s, run, succeeded))
  {
    if run in s.jobs && s.jobs[run].Landed? {
      if succeeded {
        EndsNow(x, s, run);
        EndRecordKeeps(x, s, run, s.clock);
        JobEditKeeps(x, s.(ended := s.ended + {(run, s.clock)}), run, Done(s.clock));
      } else {
        JobEditKeeps(x, s, run, Errored);
      }
    }
  }

  lemma FailKeeps(x: Externals, s: State, run: RunId)
    requires Inv(x, s)
    ensures Inv(x, FailRun(s, run))
  {
    if run in s.runs && s.runs[run].status == Started {
      assert RunOk(s.log, run, s.runs[run]);
      RunEditKeeps(x, s, run, s.runs[run].(status := Failed, rowsAccepted := Some(0)));
    }
  }

  /** Begin jobs matter to nothing but the manifests they create. */
  lemma BeginEditKeeps(x: Externals, s: State, begins: map<RunId, BeginJob>)
    requires Inv(x, s) && BeginsOk(begins, s.runs)
    ensures Inv(x, s.(begins := begins))
  {
    var s' := s.(begins := begins);
    forall q | q in s'.jobs
      ensures JobOk(x, s', q, s'.jobs[q])
    {
      assert JobOk(x, s, q, s.jobs[q]);
    }
  }

  lemma BeginKeeps(x: Externals, s: State, run: RunId)
    requires Inv(x, s)
    ensures Inv(x, ExecuteBegin(s, run))
  {
    if run in s.begins && s.begins[run].BeginPending? {
      var request := s.begins[run].request;
      match BeginRun(s, run, request)
      case None => BeginEditKeeps(x, s, s.begins[run := BeginErrored]);
      case Some(s') =>
        if run !in s.runs {
          RunEditKeeps(x, s, run, NewRun(request));
        }
        BeginEditKeeps(x, s', s.begins[run := Begun]);
    }
  }

  lemma AbortKeeps(x: Externals, s: State, run: RunId)
    requires Inv(x, s)
    ensures Inv(x, Step(x, s, Abort(run)))
  {
    if run in s.jobs && s.jobs[run].Pending? {
      JobEditKeeps(x, s, run, Errored);
    }
  }

  lemma ReadKeeps(x: Externals, s: State, request: Request)
    requires Inv(x, s)
    ensures Inv(x, Step(x, s, Read(request)))
  {
    if TakeSnapshot(s, request).Ok? {
      SameWarehouseKeeps(x, s, s.(taken := s.taken + {(request, TakeSnapshot(s, request).value)}));
    }
  }

  lemma ForgetKeeps(x: Externals, s: State, run: RunId)
    requires Inv(x, s)
    ensures Inv(x, Step(x, s, Forget(run)))
  {
    SameWarehouseKeeps(x, s, s.(jobs := s.jobs - {run}));
  }

  lemma TickKeeps(x: Externals, s: State, elapsed: nat)
    requires Inv(x, s)
    ensures Inv(x, Step(x, s, Tick(elapsed)))
  {
    SameWarehouseKeeps(x, s, s.(clock := s.clock + elapsed));
  }

  lemma FactsOnlyKeeps(x: Externals, s: State, s': State)
    requires Inv(x, s) && FactsOnly(s, s')
    ensures Inv(x, s')
  {
    SameWarehouseKeeps(x, s, s');
  }

  lemma BeginsKeep(x: Externals, s: State, e: Event)
    requires x.Valid() && Inv(x, s) && (e.Begin? || e.BeginFails? || e.BeginExpires?)
    ensures Inv(x, Step(x, s, e))
  {
    match e
    case Begin(run, request) => BeginEditKeeps(x, s, SubmitBegin(s, run, request).begins);
    case BeginFails(run) => BeginEditKeeps(x, s, AbortBegin(s, run).begins);
    case BeginExpires(run) => BeginEditKeeps(x, s, ForgetBegin(s, run).begins);
  }

  lemma JobEventsKeep(x: Externals, s: State, e: Event)
    requires x.Valid() && Inv(x, s) && (e.Submit? || e.Execute? || e.Abort? || e.End? || e.Forget?)
    ensures Inv(x, Step(x, s, e))
  {
    match e
    case Submit(run, request, records, snap) => SubmitKeeps(x, s, run, request, records, snap);
    case Execute(run) => ExecuteKeeps(x, s, run);
    case Abort(run) => AbortKeeps(x, s, run);
    case End(run, succeeded) => EndKeeps(x, s, run, succeeded);
    case Forget(run) => ForgetKeeps(x, s, run);
  }

  lemma BeginRunsKeeps(x: Externals, s: State, run: RunId)
    requires Inv(x, s)
    ensures Inv(x, Step(x, s, BeginRuns(run)))
  {
    BeginKeeps(x, s, run);
  }

  lemma FinalizesKeep(x: Externals, s: State, run: RunId, at: nat)
    requires Inv(x, s)
    ensures Inv(x, Step(x, s, Finalize(run, at)))
  {
    FinalizeKeeps(x, s, run, at);
  }

  lemma FailuresKeep(x: Externals, s: State, run: RunId)
    requires Inv(x, s)
    ensures Inv(x, Step(x, s, MarkFailed(run)))
  {
    FailKeeps(x, s, run);
  }

  /** The invariant survives every event. */
  lemma StepKeeps(x: Externals, s: State, event: Event)
    requires x.Valid() && Inv(x, s)
    ensures Inv(x, Step(x, s, event))
  {
    if event.Begin? || event.BeginFails? || event.BeginExpires? {
      BeginsKeep(x, s, event);
    } else if event.Submit? || event.Execute? || event.Abort? || event.End? || event.Forget? {
      JobEventsKeep(x, s, event);
    } else if event.BeginRuns? {
      BeginRunsKeeps(x, s, event.run);
    } else if event.Finalize? {
      FinalizesKeep(x, s, event.run, event.at);
    } else if event.MarkFailed? {
      FailuresKeep(x, s, event.run);
    } else if event.Read? {
      ReadKeeps(x, s, event.request);
    } else if event.Tick? {
      TickKeeps(x, s, event.elapsed);
    } else {
      DbtIsLocal(x, s, event);
      FactsOnlyKeeps(x, s, Step(x, s, event));
    }
  }

  lemma EmptyIsOk(x: Externals)
    ensures Inv(x, Empty())
  {
  }

  /** The invariant holds throughout every run of the warehouse. */
  lemma {:induction false} InvariantHolds(x: Externals, events: seq<Event>)
    requires x.Valid()
    ensures Inv(x, Play(x, Empty(), events))
  {
    if events == [] {
      EmptyIsOk(x);
    } else {
      InvariantHolds(x, events[..|events| - 1]);
      StepKeeps(x, Play(x, Empty(), events[..|events| - 1]), events[|events| - 1]);
    }
  }
}
