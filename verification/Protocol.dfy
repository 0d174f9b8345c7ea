// The warehouse as a state machine: the transactions of warehouse/sql.py, the stable commit job of
// warehouse/bigquery.py, and every other event that can happen between them.
module Protocol {
  import opened Base
  import opened Batches
  import opened Planner
  import opened Facts

  /** What a client hands to the commit job; `rows` is kept only for the specification. */
  datatype Submission = Submission(request: Request, rows: seq<Row>, plan: Plan)

  /** The one commit job of a run ID. `Landed` is committed and still running. */
  datatype Job = Pending(submission: Submission) | Landed | Done(ended: nat) | Errored

  /** The one begin job of a run ID, bound to the request of its first submission. */
  datatype BeginJob = BeginPending(request: Request) | Begun | BeginErrored

  /** An accepted batch, in the order of its commit. */
  datatype Batch = Batch(run: RunId, request: Request, rows: seq<Row>)

  /** `lmpBuild` and `loadBuild` are the candidates of a dbt build that has selected and not merged yet.
      `log`, `taken` and `ended` are history: the accepted batches, every snapshot any client ever read, and
      every end of a successful commit job any client can have seen. A client is nothing but the snapshots it
      can still submit from and the ends it can still finalize with, so a crash needs no event. */
  datatype State = State(
    sequence: nat,
    active: Option<RunId>,
    runs: map<RunId, Run>,
    lmp: Tables,
    load: Tables,
    jobs: map<RunId, Job>,
    begins: map<RunId, BeginJob>,
    lmpFact: Fact,
    loadFact: Fact,
    lmpBuild: Option<Fact>,
    loadBuild: Option<Fact>,
    clock: nat,
    log: seq<Batch>,
    taken: set<(Request, Snapshot)>,
    ended: set<(RunId, nat)>)
  {
    function Of(product: Product): Tables {
      if product.Lmp? then lmp else load
    }

    function With(product: Product, tables: Tables): State {
      if product.Lmp? then this.(lmp := tables) else this.(load := tables)
    }

    function FactOf(product: Product): Fact {
      if product.Lmp? then lmpFact else loadFact
    }

    function WithFact(product: Product, fact: Fact): State {
      if product.Lmp? then this.(lmpFact := fact) else this.(loadFact := fact)
    }

    function BuildOf(product: Product): Option<Fact> {
      if product.Lmp? then lmpBuild else loadBuild
    }

    function WithBuild(product: Product, build: Option<Fact>): State {
      if product.Lmp? then this.(lmpBuild := build) else this.(loadBuild := build)
    }

    function HistoryOf(product: Product): seq<HistoryRow> {
      History(runs, Of(product))
    }
  }

  /** A bootstrapped, empty warehouse. */
  function Empty(): State {
    State(0, None, map[], Tables([], []), Tables([], []), map[], map[], map[], map[], None, None, 0, [], {}, {})
  }

  // ---------- begin_run ----------

  function NewRun(request: Request): Run {
    Run(request, Started, false, None, None, None, None, None, None)
  }

  function BeginRun(s: State, run: RunId, request: Request): Option<State> {
    if run in s.runs then
      if s.runs[run].request != request then None else Some(s)
    else Some(s.(runs := s.runs[run := NewRun(request)]))
  }

  // ---------- snapshot_query and the checks of BigQueryWarehouse.snapshot ----------

  function ContentOnDay(day: int): Content -> bool {
    (c: Content) => c.day == day
  }

  function TransitionOnDay(day: int): Transition -> bool {
    (t: Transition) => t.day == day
  }

  function IdsOf(contents: seq<Content>): set<ContentId> {
    set i | 0 <= i < |contents| :: contents[i].Id()
  }

  /** Per logical key, the row of largest ordinal. */
  function LatestOf(transitions: seq<Transition>): map<Key, Latest> {
    if transitions == [] then map[]
    else
      var m, t := LatestOf(transitions[..|transitions| - 1]), transitions[|transitions| - 1];
      if t.key in m && m[t.key].ordinal >= t.ordinal then m else m[t.key := Latest(t.hash, t.ordinal)]
  }

  function SnapshotOf(tables: Tables, sequence: nat, day: int): Snapshot {
    Snapshot(sequence, IdsOf(Where(tables.contents, ContentOnDay(day))),
             LatestOf(Where(tables.transitions, TransitionOnDay(day))))
  }

  datatype SnapshotError = GateHeld(run: RunId) | DuplicateContents

  /** Refused while the gate is held, or when a content is stored twice. */
  function ReadDay(tables: Tables, sequence: nat, active: Option<RunId>, day: int): Result<Snapshot, SnapshotError> {
    var snap := SnapshotOf(tables, sequence, day);
    if active.Some? then Err(GateHeld(active.value))
    else if |snap.ids| != |Where(tables.contents, ContentOnDay(day))| then Err(DuplicateContents)
    else Ok(snap)
  }

  function TakeSnapshot(s: State, request: Request): Result<Snapshot, SnapshotError> {
    ReadDay(s.Of(request.product), s.sequence, s.active, request.day)
  }

  // ---------- commit_query ----------

  function ContentUnknown(ids: set<ContentId>): Content -> bool {
    (c: Content) => c.Id() !in ids
  }

  function TransitionIds(transitions: seq<Transition>): set<TransitionId> {
    set i | 0 <= i < |transitions| :: transitions[i].Id()
  }

  function TransitionUnknown(ids: set<TransitionId>): Transition -> bool {
    (t: Transition) => t.Id() !in ids
  }

  /** Both tables take the planned rows whose IDs they do not hold yet. */
  function MergePlan(tables: Tables, plan: Plan): Tables {
    Tables(tables.contents + Where(plan.contents, ContentUnknown(IdsOf(tables.contents))),
           tables.transitions + Where(plan.transitions, TransitionUnknown(TransitionIds(tables.transitions))))
  }

  function CommittedRun(r: Run, plan: Plan): Run {
    r.(status := Committed, commitCompleted := true, batchHash := Some(plan.batchHash),
       commitSequence := Some(plan.expected + 1), rowsAccepted := Some(plan.accepted),
       newContents := Some(|plan.contents|), newTransitions := Some(|plan.transitions|))
  }

  function CommitBatch(s: State, run: RunId, sub: Submission): Option<State> {
    if run !in s.runs || s.runs[run].status != Started then None
    else if s.sequence != sub.plan.expected then None
    else if s.active.Some? then None
    else
      Some(s.With(sub.request.product, MergePlan(s.Of(sub.request.product), sub.plan))
            .(sequence := s.sequence + 1, active := Some(run),
              runs := s.runs[run := CommittedRun(s.runs[run], sub.plan)],
              log := s.log + [Batch(run, sub.request, sub.rows)]))
  }

  // ---------- finalize_query ----------

  function StampContent(run: RunId, at: nat, c: Content): Content {
    if c.firstRun == run && c.firstSeen.None? then c.(firstSeen := Some(at)) else c
  }

  function StampTransition(run: RunId, at: nat, t: Transition): Transition {
    if t.run == run && t.known.None? then t.(known := Some(at)) else t
  }

  function Stamp(tables: Tables, run: RunId, at: nat): Tables {
    var cs, ts := tables.contents, tables.transitions;
    Tables(seq(|cs|, i requires 0 <= i < |cs| => StampContent(run, at, cs[i])),
           seq(|ts|, i requires 0 <= i < |ts| => StampTransition(run, at, ts[i])))
  }

  function FinalizeRun(s: State, run: RunId, at: nat): Option<State> {
    if run !in s.runs || s.runs[run].status == Succeeded then Some(s)
    else if s.active != Some(run) || s.runs[run].status != Committed then None
    else
      var product := s.runs[run].request.product;
      Some(s.With(product, Stamp(s.Of(product), run, at))
            .(active := None, runs := s.runs[run := s.runs[run].(status := Succeeded, knowledgeAt := Some(at))]))
  }

  // ---------- failure_query ----------

  function FailRun(s: State, run: RunId): State {
    if run in s.runs && s.runs[run].status == Started && !s.runs[run].commitCompleted
    then s.(runs := s.runs[run := s.runs[run].(status := Failed, rowsAccepted := Some(0))])
    else s
  }

  // ---------- every event ----------

  datatype Event =
    | Begin(run: RunId, request: Request)           // some client submits the begin job
    | BeginRuns(run: RunId)                         // the server runs the pending begin transaction
    | BeginFails(run: RunId)                        // the pending begin job fails without any effect
    | BeginExpires(run: RunId)                      // the metadata of a finished begin job expires
    | Read(request: Request)                        // some client reads a snapshot
    | Submit(run: RunId, request: Request, records: seq<Observation>, snap: Snapshot)
    | Execute(run: RunId)                           // the server runs the pending commit transaction
    | Abort(run: RunId)                             // the pending job fails without any effect
    | End(run: RunId, succeeded: bool)              // a landed job finishes, or is reported as failed
    | Forget(run: RunId)                            // the metadata of a finished job expires
    | Finalize(run: RunId, at: nat)                 // some client finalizes with a job end it has seen
    | MarkFailed(run: RunId)
    | Tick(elapsed: nat)
    | Select(product: Product)                      // a dbt build selects its candidates
    | Merge(product: Product)                       // and merges them into the fact
    | Build(product: Product)                       // both at once
    | Refresh(product: Product)                     // a full refresh replaces the fact

  /** A commit job ID is taken once: a second submission attaches to the first. */
  function SubmitJob(s: State, run: RunId, sub: Submission): State {
    if run in s.jobs then s else s.(jobs := s.jobs[run := Pending(sub)])
  }

  function ExecuteJob(s: State, run: RunId): State {
    if run in s.jobs && s.jobs[run].Pending? then
      match CommitBatch(s, run, s.jobs[run].submission)
      case None => s.(jobs := s.jobs[run := Errored])
      case Some(s') => s'.(jobs := s.jobs[run := Landed])
    else s
  }

  function AbortJob(s: State, run: RunId): State {
    if run in s.jobs && s.jobs[run].Pending? then s.(jobs := s.jobs[run := Errored]) else s
  }

  function EndJob(s: State, run: RunId, succeeded: bool): State {
    if run !in s.jobs || !s.jobs[run].Landed? then s
    else if succeeded then s.(jobs := s.jobs[run := Done(s.clock)], ended := s.ended + {(run, s.clock)})
    else s.(jobs := s.jobs[run := Errored])
  }

  /** The metadata of the job may have expired since; the client still knows when it ended. */
  function FinalizeJob(s: State, run: RunId, at: nat): State {
    if (run, at) in s.ended && FinalizeRun(s, run, at).Some? then FinalizeRun(s, run, at).value else s
  }

  /** A begin job ID is taken once too, whatever request the second submission names. */
  function SubmitBegin(s: State, run: RunId, request: Request): State {
    if ValidRequest(request) && run !in s.begins then s.(begins := s.begins[run := BeginPending(request)]) else s
  }

  function ExecuteBegin(s: State, run: RunId): State {
    if run in s.begins && s.begins[run].BeginPending? then
      match BeginRun(s, run, s.begins[run].request)
      case None => s.(begins := s.begins[run := BeginErrored])
      case Some(s') => s'.(begins := s.begins[run := Begun])
    else s
  }

  function AbortBegin(s: State, run: RunId): State {
    if run in s.begins && s.begins[run].BeginPending? then s.(begins := s.begins[run := BeginErrored]) else s
  }

  function ForgetBegin(s: State, run: RunId): State {
    if run in s.begins && !s.begins[run].BeginPending? then s.(begins := s.begins - {run}) else s
  }

  function ReadOnce(s: State, request: Request): State {
    if TakeSnapshot(s, request).Ok? then s.(taken := s.taken + {(request, TakeSnapshot(s, request).value)}) else s
  }

  /** persist submits for a bound run, from a snapshot it really read, what batch_rows and plan_write give. */
  function SubmitOnce(x: Externals, s: State, run: RunId, request: Request, records: seq<Observation>,
                      snap: Snapshot): State
  {
    if && run in s.runs && s.runs[run].request == request
       && (request, snap) in s.taken && BatchOf(x, request, records).Ok?
    then
      var rows := BatchOf(x, request, records).value;
      SubmitJob(s, run, Submission(request, rows, PlanOf(run, rows, snap)))
    else s
  }

  // ---------- dbt: one writer, so starting a build or a refresh means that no earlier one is going to merge ----------

  function SelectOnce(x: Externals, s: State, p: Product): State {
    s.WithBuild(p, Some(Candidates(x, s.HistoryOf(p), s.FactOf(p))))
  }

  function MergeOnce(s: State, p: Product): State {
    match s.BuildOf(p)
    case None => s
    case Some(candidates) => s.WithFact(p, s.FactOf(p) + candidates).WithBuild(p, None)
  }

  function BuildOnce(x: Externals, s: State, p: Product): State {
    s.WithFact(p, Incremental(x, s.HistoryOf(p), s.FactOf(p))).WithBuild(p, None)
  }

  function RefreshOnce(x: Externals, s: State, p: Product): State {
    s.WithFact(p, FullRefresh(x, s.HistoryOf(p))).WithBuild(p, None)
  }

  /** The effect of one event; an event that cannot happen, or whose transaction aborts, has none. */
  function Step(x: Externals, s: State, event: Event): State {
    match event
    case Begin(run, request) => SubmitBegin(s, run, request)
    case BeginRuns(run) => ExecuteBegin(s, run)
    case BeginFails(run) => AbortBegin(s, run)
    case BeginExpires(run) => ForgetBegin(s, run)
    case Read(request) => ReadOnce(s, request)
    case Submit(run, request, records, snap) => SubmitOnce(x, s, run, request, records, snap)
    case Execute(run) => ExecuteJob(s, run)
    case Abort(run) => AbortJob(s, run)
    case End(run, succeeded) => EndJob(s, run, succeeded)
    case Forget(run) =>
      if run in s.jobs && (s.jobs[run].Done? || s.jobs[run].Errored?) then s.(jobs := s.jobs - {run}) else s
    case Finalize(run, at) => FinalizeJob(s, run, at)
    case MarkFailed(run) => FailRun(s, run)
    case Tick(elapsed) => s.(clock := s.clock + elapsed)
    case Select(product) => SelectOnce(x, s, product)
    case Merge(product) => MergeOnce(s, product)
    case Build(product) => BuildOnce(x, s, product)
    case Refresh(product) => RefreshOnce(x, s, product)
  }

  predicate IsDbt(e: Event) {
    e.Select? || e.Merge? || e.Build? || e.Refresh?
  }

  /** What a dbt writer of `p` does. */
  predicate Writes(e: Event, p: Product) {
    IsDbt(e) && e.product == p
  }

  /** Nothing but fact tables and builds in flight has changed. */
  ghost predicate FactsOnly(s: State, s': State) {
    s' == s.(lmpFact := s'.lmpFact, loadFact := s'.loadFact, lmpBuild := s'.lmpBuild, loadBuild := s'.loadBuild)
  }

  lemma WritesAreLocal(s: State, p: Product, fact: Fact, build: Option<Fact>)
    ensures FactsOnly(s, s.WithBuild(p, build)) && FactsOnly(s, s.WithFact(p, fact).WithBuild(p, build))
  {
  }

  lemma StepSelect(x: Externals, s: State, p: Product)
    ensures Step(x, s, Select(p)) == SelectOnce(x, s, p)
  {
  }

  lemma StepMerge(x: Externals, s: State, p: Product)
    ensures Step(x, s, Merge(p)) == MergeOnce(s, p)
  {
  }

  lemma StepBuild(x: Externals, s: State, p: Product)
    ensures Step(x, s, Build(p)) == BuildOnce(x, s, p)
  {
  }

  lemma StepRefresh(x: Externals, s: State, p: Product)
    ensures Step(x, s, Refresh(p)) == RefreshOnce(x, s, p)
  {
  }

  /** dbt touches nothing but its own tables. */
  lemma DbtIsLocal(x: Externals, s: State, e: Event)
    requires IsDbt(e)
    ensures FactsOnly(s, Step(x, s, e))
  {
    var h, fact := s.HistoryOf(e.product), s.FactOf(e.product);
    match e
    case Select(p) =>
      StepSelect(x, s, p);
      WritesAreLocal(s, p, fact, Some(Candidates(x, h, fact)));
    case Merge(p) =>
      StepMerge(x, s, p);
      if s.BuildOf(p).Some? {
        WritesAreLocal(s, p, fact + s.BuildOf(p).value, None);
      }
    case Build(p) =>
      StepBuild(x, s, p);
      WritesAreLocal(s, p, Incremental(x, h, fact), None);
    case Refresh(p) =>
      StepRefresh(x, s, p);
      WritesAreLocal(s, p, FullRefresh(x, h), None);
  }

  /** Reads, ticks and what happens to a commit job short of running it change no manifest, begin job, batch or gate. */
  lemma JobEventIsLocal(x: Externals, s: State, e: Event)
    requires e.Read? || e.Tick? || e.Submit? || e.Abort? || e.End? || e.Forget?
    ensures var s' := Step(x, s, e);
            s'.runs == s.runs && s'.begins == s.begins && s'.active == s.active && s'.log == s.log
  {
    match e
    case Read(_) =>
    case Tick(_) =>
    case Submit(_, _, _, _) =>
    case Abort(_) =>
    case End(_, _) =>
    case Forget(_) =>
  }

  /** Nor does dbt. */
  lemma LeavesRuns(x: Externals, s: State, e: Event)
    requires !e.Begin? && !e.BeginRuns? && !e.BeginFails? && !e.BeginExpires?
    requires !e.Execute? && !e.Finalize? && !e.MarkFailed?
    ensures var s' := Step(x, s, e);
            s'.runs == s.runs && s'.begins == s.begins && s'.active == s.active && s'.log == s.log
  {
    if IsDbt(e) {
      DbtIsLocal(x, s, e);
    } else {
      JobEventIsLocal(x, s, e);
    }
  }

  lemma MergeOfSelected(s: State, p: Product, candidates: Fact)
    ensures MergeOnce(s.WithBuild(p, Some(candidates)), p) ==
            s.WithFact(p, s.FactOf(p) + candidates).WithBuild(p, None)
  {
  }

  /** A select and a merge with nothing in between are one build. */
  lemma SelectMergeIsBuild(x: Externals, s: State, p: Product)
    ensures Step(x, Step(x, s, Select(p)), Merge(p)) == Step(x, s, Build(p))
  {
    StepSelect(x, s, p);
    StepMerge(x, SelectOnce(x, s, p), p);
    StepBuild(x, s, p);
    MergeOfSelected(s, p, Candidates(x, s.HistoryOf(p), s.FactOf(p)));
  }

  /** A run of the whole system from `s`: any number of clients, in any interleaving. */
  function Play(x: Externals, s: State, events: seq<Event>): State {
    if events == [] then s else Step(x, Play(x, s, events[..|events| - 1]), events[|events| - 1])
  }

  lemma {:induction false} PlayConcat(x: Externals, s: State, a: seq<Event>, b: seq<Event>)
    ensures Play(x, s, a + b) == Play(x, Play(x, s, a), b)
  {
    if b == [] {
      assert a + b == a;
    } else {
      assert (a + b)[..|a + b| - 1] == a + b[..|b| - 1];
      PlayConcat(x, s, a, b[..|b| - 1]);
    }
  }
}
