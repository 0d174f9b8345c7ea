// The client side of the protocol (warehouse/bigquery.py and ingestion.py): a warehouse object whose
// methods change the stored state step by step, over a network and a server that may fail at any point,
// while other clients, the server and dbt may act between any two steps.
module Client {
  import opened Base
  import opened Batches
  import opened Planner
  import opened Facts
  import opened Protocol
  import opened Replay
  import opened Safety
  import opened Progress
  import opened Guarantees
  import opened Refinement
  import opened Fates

  /** What waiting for a job can show. */
  datatype Waited = Finished(ended: nat) | TerminalError | Unknown

  /** `online`: no call or answer is lost. `healthy`: the server fails no job of its own accord.
      `alone`: nobody else acts between the steps of a call. */
  datatype Conditions = Conditions(online: bool, healthy: bool, alone: bool)
  {
    predicate Undisturbed() {
      online && healthy && alone
    }
  }

  /** The events through which a begin of `run` can act. */
  predicate Begins(e: Event, run: RunId, request: Request) {
    e == Begin(run, request) || e == BeginRuns(run) || e == BeginFails(run)
  }

  /** The events through which a reconcile of `run` can act. */
  predicate Settles(e: Event, run: RunId) {
    match e
    case Execute(r) => r == run
    case Abort(r) => r == run
    case End(r, _) => r == run
    case Finalize(r, _) => r == run
    case MarkFailed(r) => r == run
    case Tick(_) => true
    case _ => false
  }

  /** The events through which an ingest of `source` for `request` under `run` can act. */
  predicate Own(e: Event, run: RunId, request: Request, source: Result<seq<Observation>, ()>) {
    || Settles(e, run)
    || Begins(e, run, request)
    || e == Read(request)
    || (e.Submit? && e.run == run && e.request == request && source == Ok(e.records))
  }

  /** While nobody else acts, the trace of a call consists of its own events. */
  ghost predicate Settling(alone: bool, trace: seq<Event>, run: RunId) {
    alone ==> forall e | e in trace :: Settles(e, run)
  }

  ghost predicate Owning(alone: bool, trace: seq<Event>, run: RunId, request: Request,
                         source: Result<seq<Observation>, ()>)
  {
    alone ==> forall e | e in trace :: Own(e, run, request, source)
  }

  // ---------- traces ----------

  lemma TraceStep(x: Externals, s: State, trace: seq<Event>, e: Event)
    ensures Play(x, s, trace + [e]) == Step(x, Play(x, s, trace), e)
  {
    assert (trace + [e])[..|trace|] == trace;
  }

  lemma TraceOne(x: Externals, s: State, e: Event)
    ensures Play(x, s, [e]) == Step(x, s, e)
  {
    assert [e][..0] == [];
  }

  lemma TraceExecute(x: Externals, s: State, run: RunId)
    ensures Play(x, s, [Execute(run)]) == ExecuteJob(s, run)
  {
    TraceOne(x, s, Execute(run));
  }

  lemma TraceAbort(x: Externals, s: State, run: RunId)
    ensures Play(x, s, [Abort(run)]) == AbortJob(s, run)
  {
    TraceOne(x, s, Abort(run));
  }

  lemma TraceTick(x: Externals, s: State, elapsed: nat)
    ensures Play(x, s, [Tick(elapsed)]) == s.(clock := s.clock + elapsed)
  {
    TraceOne(x, s, Tick(elapsed));
  }

  lemma TraceReport(x: Externals, s: State, run: RunId, succeeded: bool)
    ensures Play(x, s, [End(run, succeeded)]) == EndJob(s, run, succeeded)
  {
    TraceOne(x, s, End(run, succeeded));
  }

  lemma TraceEnd(x: Externals, s: State, elapsed: nat, run: RunId, succeeded: bool)
    ensures Play(x, s, [Tick(elapsed)] + [End(run, succeeded)]) ==
            EndJob(s.(clock := s.clock + elapsed), run, succeeded)
  {
    TraceTick(x, s, elapsed);
    TraceReport(x, s.(clock := s.clock + elapsed), run, succeeded);
    PlayConcat(x, s, [Tick(elapsed)], [End(run, succeeded)]);
  }

  lemma TraceFinalize(x: Externals, s: State, run: RunId, at: nat)
    ensures Play(x, s, [Finalize(run, at)]) == FinalizeJob(s, run, at)
  {
    TraceOne(x, s, Finalize(run, at));
  }

  lemma TraceFail(x: Externals, s: State, run: RunId)
    ensures Play(x, s, [MarkFailed(run)]) == FailRun(s, run)
  {
    TraceOne(x, s, MarkFailed(run));
  }

  lemma TraceBegin(x: Externals, s: State, run: RunId, request: Request)
    ensures Play(x, s, [Begin(run, request)]) == SubmitBegin(s, run, request)
  {
    TraceOne(x, s, Begin(run, request));
  }

  lemma TraceBeginRuns(x: Externals, s: State, run: RunId)
    ensures Play(x, s, [BeginRuns(run)]) == ExecuteBegin(s, run)
    ensures Play(x, s, [BeginFails(run)]) == AbortBegin(s, run)
  {
    TraceOne(x, s, BeginRuns(run));
    TraceOne(x, s, BeginFails(run));
  }

  lemma TraceRead(x: Externals, s: State, request: Request)
    ensures Play(x, s, [Read(request)]) == ReadOnce(s, request)
  {
    TraceOne(x, s, Read(request));
  }

  lemma TraceSubmit(x: Externals, s: State, run: RunId, request: Request, records: seq<Observation>, snap: Snapshot)
    ensures Play(x, s, [Submit(run, request, records, snap)]) == SubmitOnce(x, s, run, request, records, snap)
  {
    TraceOne(x, s, Submit(run, request, records, snap));
  }

  /** A run stays bound to its request. */
  lemma RequestStays(s: State, s': State, run: RunId)
    requires Extends(s, s') && run in s.runs
    ensures run in s'.runs && s'.runs[run].request == s.runs[run].request
  {
    assert RunGrows(s.runs[run], s'.runs[run]);
  }

  lemma SettlingConcat(alone: bool, a: seq<Event>, b: seq<Event>, run: RunId)
    requires Settling(alone, a, run) && Settling(alone, b, run)
    ensures Settling(alone, a + b, run)
  {
  }

  lemma OwningConcat(alone: bool, a: seq<Event>, b: seq<Event>, run: RunId, request: Request,
                     source: Result<seq<Observation>, ()>)
    requires Owning(alone, a, run, request, source) && Owning(alone, b, run, request, source)
    ensures Owning(alone, a + b, run, request, source)
  {
  }

  lemma SettlingOwns(alone: bool, trace: seq<Event>, run: RunId, request: Request, source: Result<seq<Observation>, ()>)
    requires Settling(alone, trace, run)
    ensures Owning(alone, trace, run, request, source)
  {
  }

  // ---------- no snapshot is refused for duplicates ----------

  lemma {:induction false} DistinctIds(cs: seq<Content>)
    requires UniqueIds(cs)
    ensures |IdsOf(cs)| == |cs|
  {
    if cs != [] {
      var front, last := cs[..|cs| - 1], cs[|cs| - 1];
      assert cs == front + [last];
      DistinctIds(front);
      IdsConcat(front, [last]);
      assert IdsOf([last]) == {last.Id()} by {
        assert [last][0].Id() in IdsOf([last]);
      }
      assert forall i | 0 <= i < |front| :: front[i].Id() == cs[i].Id();
    }
  }

  lemma {:induction false} WhereUnique(cs: seq<Content>, keep: Content -> bool)
    requires UniqueIds(cs)
    ensures UniqueIds(Where(cs, keep))
  {
    if cs != [] {
      var front, last := cs[..|cs| - 1], cs[|cs| - 1];
      WhereUnique(front, keep);
      var kept := Where(front, keep);
      forall i | 0 <= i < |kept|
        ensures kept[i].Id() != last.Id()
      {
        WhereMember(front, keep, kept[i]);
        var j :| 0 <= j < |front| && front[j] == kept[i];
        assert cs[j].Id() != cs[|front|].Id();
      }
    }
  }

  /** The duplicate check of a snapshot never fires: reading succeeds exactly while the gate is free. */
  lemma SnapshotSucceeds(x: Externals, s: State, request: Request)
    requires Inv(x, s)
    ensures TakeSnapshot(s, request).Ok? <==> s.active.None?
  {
    var p := request.product;
    assert TablesOk(s.Of(p), s.runs, s.log, p);
    SerialContentsUnique(x, s.log, p);
    StampedUnique(Serial(s.log, p).contents, s.runs);
    WhereUnique(s.Of(p).contents, ContentOnDay(request.day));
    DistinctIds(Where(s.Of(p).contents, ContentOnDay(request.day)));
  }

  /** The failure of this run is known, or there is no such run. When its commit job is reported as failed
      the manifest may nevertheless be COMMITTED: the job can land before it fails. */
  ghost predicate KnownFailure(s: State, run: RunId) {
    run !in s.runs || s.runs[run].status == Failed || (run in s.jobs && s.jobs[run].Errored?)
  }

  /** Nothing but begin jobs and the manifest of `run`, if it is new, has changed. */
  ghost predicate BeginOnly(s: State, s': State, run: RunId) {
    s' == s.(runs := s'.runs, begins := s'.begins) && (run in s.runs ==> s'.runs == s.runs)
  }

  lemma BeginStepsOnly(s: State, run: RunId, request: Request)
    ensures BeginOnly(s, SubmitBegin(s, run, request), run)
    ensures BeginOnly(s, ExecuteBegin(s, run), run)
    ensures BeginOnly(s, AbortBegin(s, run), run)
  {
  }

  lemma BeginOnlyTransitive(a: State, b: State, c: State, run: RunId)
    requires BeginOnly(a, b, run) && BeginOnly(b, c, run)
    ensures BeginOnly(a, c, run)
  {
  }

  /** A watched job ends well or fails. */
  lemma SettledEnds(s: State, run: RunId, clock: nat)
    requires run in s.jobs
    ensures var after := Settled(s, run, clock);
            run in after.jobs && (after.jobs[run].Done? || after.jobs[run].Errored?)
  {
  }

  /** A settled begin job has run or failed. */
  lemma BeginEnds(s: State, run: RunId, request: Request)
    requires ValidRequest(request)
    ensures var begun := BeginSettled(s, run, request);
            run in begun.begins && (begun.begins[run].Begun? <==> !BeginPinned(begun, run))
  {
  }

  lemma BeginningConcat(a: seq<Event>, b: seq<Event>, run: RunId, request: Request)
    requires forall e | e in a :: Begins(e, run, request)
    requires forall e | e in b :: Begins(e, run, request)
    ensures forall e | e in a + b :: Begins(e, run, request)
  {
  }

  /** persist is going to plan and submit: the run is bound to the request and has no commit job. */
  predicate PersistsFresh(s: State, run: RunId, request: Request) {
    run in s.runs && s.runs[run].request == request && ReconcileFate(s, run) == Open
  }

  class Warehouse {
    const x: Externals
    var sequence: nat
    var active: Option<RunId>
    var runs: map<RunId, Run>
    var lmp: Tables
    var load: Tables
    var jobs: map<RunId, Job>
    var begins: map<RunId, BeginJob>
    var lmpFact: Fact
    var loadFact: Fact
    var lmpBuild: Option<Fact>
    var loadBuild: Option<Fact>
    var clock: nat
    ghost var log: seq<Batch>
    var taken: set<(Request, Snapshot)>
    var ended: set<(RunId, nat)>

    ghost function Now(): State
      reads this
    {
      State(sequence, active, runs, lmp, load, jobs, begins, lmpFact, loadFact, lmpBuild, loadBuild, clock, log,
            taken, ended)
    }

    ghost predicate Valid()
      reads this
    {
      x.Valid() && Inv(x, Now())
    }

    /** bootstrap: six empty tables and the control row. */
    constructor (x: Externals)
      requires x.Valid()
      ensures Valid() && this.x == x && Now() == Empty()
    {
      this.x := x;
      sequence, active, runs := 0, None, map[];
      lmp, load, jobs, begins := Tables([], []), Tables([], []), map[], map[];
      lmpFact, loadFact, lmpBuild, loadBuild, clock := map[], map[], None, None, 0;
      log, taken, ended := [], {}, {};
      new;
      EmptyIsOk(x);
    }

    function TablesOf(product: Product): Tables
      reads this
    {
      if product.Lmp? then lmp else load
    }

    method SetTables(product: Product, tables: Tables)
      modifies this
      ensures Now() == old(Now()).With(product, tables)
    {
      if product.Lmp? {
        lmp := tables;
      } else {
        load := tables;
      }
    }

    method SetFact(product: Product, fact: Fact)
      modifies this
      ensures Now() == old(Now()).WithFact(product, fact)
    {
      if product.Lmp? {
        lmpFact := fact;
      } else {
        loadFact := fact;
      }
    }

    method SetBuild(product: Product, build: Option<Fact>)
      modifies this
      ensures Now() == old(Now()).WithBuild(product, build)
    {
      if product.Lmp? {
        lmpBuild := build;
      } else {
        loadBuild := build;
      }
    }

    /** A call or its answer can get lost. */
    method Lost(c: Conditions) returns (lost: bool)
      ensures c.online ==> !lost
    {
      lost := *;
      if c.online {
        lost := false;
      }
    }

    // ---------- the SQL transactions ----------

    method BeginTransaction(run: RunId, request: Request) returns (committed: bool)
      modifies this
      ensures match BeginRun(old(Now()), run, request)
              case None => !committed && Now() == old(Now())
              case Some(s) => committed && Now() == s
    {
      if run in runs && runs[run].request != request {
        return false;
      }
      if run !in runs {
        runs := runs[run := NewRun(request)];
      }
      committed := true;
    }

    method CommitTransaction(run: RunId, sub: Submission) returns (committed: bool)
      modifies this
      ensures match CommitBatch(old(Now()), run, sub)
              case None => !committed && Now() == old(Now())
              case Some(s) => committed && Now() == s
    {
      if run !in runs || runs[run].status != Started {
        return false;
      }
      if sequence != sub.plan.expected {
        return false;
      }
      if active.Some? {
        return false;
      }
      sequence, active := sequence + 1, Some(run);
      SetTables(sub.request.product, MergePlan(TablesOf(sub.request.product), sub.plan));
      runs := runs[run := CommittedRun(runs[run], sub.plan)];
      log := log + [Batch(run, sub.request, sub.rows)];
      committed := true;
    }

    method FinalizeTransaction(run: RunId, knowledgeAt: nat) returns (committed: bool)
      modifies this
      ensures match FinalizeRun(old(Now()), run, knowledgeAt)
              case None => !committed && Now() == old(Now())
              case Some(s) => committed && Now() == s
    {
      if run in runs && runs[run].status != Succeeded {
        if active != Some(run) || runs[run].status != Committed {
          return false;
        }
        var product := runs[run].request.product;
        SetTables(product, Stamp(TablesOf(product), run, knowledgeAt));
        runs := runs[run := runs[run].(status := Succeeded, knowledgeAt := Some(knowledgeAt))];
        active := None;
      }
      committed := true;
    }

    method FailTransaction(run: RunId)
      modifies this
      ensures Now() == FailRun(old(Now()), run)
    {
      if run in runs && runs[run].status == Started && !runs[run].commitCompleted {
        runs := runs[run := runs[run].(status := Failed, rowsAccepted := Some(0))];
      }
    }

    // ---------- jobs: stable IDs, and what the server makes of them ----------

    /** query with the stable begin job ID: a second submission attaches to the first job. */
    method SubmitBeginQuery(run: RunId, request: Request)
      modifies this
      ensures Now() == SubmitBegin(old(Now()), run, request)
    {
      if ValidRequest(request) && run !in begins {
        begins := begins[run := BeginPending(request)];
      }
    }

    method ServerBegins(run: RunId)
      modifies this
      ensures Now() == ExecuteBegin(old(Now()), run)
    {
      if run in begins && begins[run].BeginPending? {
        var before := begins;
        var committed := BeginTransaction(run, before[run].request);
        begins := before[run := if committed then Begun else BeginErrored];
      }
    }

    method ServerFailsBegin(run: RunId)
      modifies this
      ensures Now() == AbortBegin(old(Now()), run)
    {
      if run in begins && begins[run].BeginPending? {
        begins := begins[run := BeginErrored];
      }
    }

    /** query with the stable commit job ID: a second submission attaches to the first job. */
    method SubmitQuery(run: RunId, sub: Submission)
      modifies this
      ensures Now() == SubmitJob(old(Now()), run, sub)
    {
      if run !in jobs {
        jobs := jobs[run := Pending(sub)];
      }
    }

    method ServerExecutes(run: RunId)
      modifies this
      ensures Now() == ExecuteJob(old(Now()), run)
    {
      if run in jobs && jobs[run].Pending? {
        var before := jobs;
        var committed := CommitTransaction(run, before[run].submission);
        jobs := before[run := if committed then Landed else Errored];
      }
    }

    method ServerAborts(run: RunId)
      modifies this
      ensures Now() == AbortJob(old(Now()), run)
    {
      if run in jobs && jobs[run].Pending? {
        jobs := jobs[run := Errored];
      }
    }

    method ServerReports(run: RunId, succeeded: bool)
      modifies this
      ensures Now() == EndJob(old(Now()), run, succeeded)
    {
      if run in jobs && jobs[run].Landed? {
        if succeeded {
          jobs, ended := jobs[run := Done(clock)], ended + {(run, clock)};
        } else {
          jobs := jobs[run := Errored];
        }
      }
    }

    /** The metadata of finished jobs expires. */
    method Expire(run: RunId, beginJob: bool)
      modifies this
      ensures Now() == Step(x, old(Now()), if beginJob then BeginExpires(run) else Forget(run))
    {
      if beginJob {
        if run in begins && !begins[run].BeginPending? {
          begins := begins - {run};
        }
      } else if run in jobs && (jobs[run].Done? || jobs[run].Errored?) {
        jobs := jobs - {run};
      }
    }

    /** The snapshot query as the server answers it; `taken` only records that it was read. */
    method AnswerSnapshot(request: Request) returns (r: Result<Snapshot, SnapshotError>)
      modifies this
      ensures r == TakeSnapshot(old(Now()), request) && Now() == ReadOnce(old(Now()), request)
    {
      r := ReadDay(TablesOf(request.product), sequence, active, request.day);
      if r.Ok? {
        taken := taken + {(request, r.value)};
      }
    }

    /** finalize_query, sent by a client that has seen the job end. */
    method FinalizeArrives(run: RunId, at: nat) returns (committed: bool)
      modifies this
      ensures Now() == FinalizeJob(old(Now()), run, at)
      ensures (run, at) in old(ended) ==> (committed <==> FinalizeRun(old(Now()), run, at).Some?)
    {
      committed := false;
      if (run, at) in ended {
        committed := FinalizeTransaction(run, at);
      }
    }

    // ---------- dbt ----------

    /** The candidates of an incremental run go to a temporary table. */
    method SelectCandidates(product: Product)
      modifies this
      ensures Now() == Step(x, old(Now()), Select(product))
    {
      StepSelect(x, Now(), product);
      var fact := if product.Lmp? then lmpFact else loadFact;
      var history := History(runs, TablesOf(product));
      SetBuild(product, Some(Rank(x, Where(history, AboveSequence(Watermark(fact))))));
    }

    /** They are merged into the fact by logical key. */
    method MergeCandidates(product: Product)
      modifies this
      ensures Now() == Step(x, old(Now()), Merge(product))
    {
      StepMerge(x, Now(), product);
      var fact := if product.Lmp? then lmpFact else loadFact;
      var build := if product.Lmp? then lmpBuild else loadBuild;
      if build.Some? {
        SetFact(product, fact + build.value);
        SetBuild(product, None);
      }
    }

    /** A full refresh of a fact model. */
    method RefreshFact(product: Product)
      modifies this
      ensures Now() == Step(x, old(Now()), Refresh(product))
    {
      StepRefresh(x, Now(), product);
      SetFact(product, Rank(x, History(runs, TablesOf(product))));
      SetBuild(product, None);
    }

    /** One dbt run of a fact model. Anything may happen between its select and its merge, except another run
        of the same model. */
    method BuildFact(product: Product, c: Conditions) returns (ghost between: seq<Event>)
      requires Valid()
      modifies this
      ensures Valid() && forall e | e in between :: !Writes(e, product)
      ensures Now() == Step(x, Play(x, Step(x, old(Now()), Select(product)), between), Merge(product))
      ensures c.alone ==> between == [] && Now() == Step(x, old(Now()), Build(product))
    {
      ghost var s := Now();
      StartBuild(product);
      between := OthersBesides(Some(product), c);
      FinishBuild(product);
      SelectMergeIsBuild(x, s, product);
    }

    method StartBuild(product: Product)
      requires Valid()
      modifies this
      ensures Valid() && Now() == Step(x, old(Now()), Select(product))
    {
      StepKeeps(x, Now(), Select(product));
      SelectCandidates(product);
    }

    method FinishBuild(product: Product)
      requires Valid()
      modifies this
      ensures Valid() && Now() == Step(x, old(Now()), Merge(product))
    {
      StepKeeps(x, Now(), Merge(product));
      MergeCandidates(product);
    }

    method BuildAtOnce(product: Product)
      modifies this
      ensures Now() == Step(x, old(Now()), Build(product))
    {
      SelectMergeIsBuild(x, Now(), product);
      SelectCandidates(product);
      MergeCandidates(product);
    }

    // ---------- everybody else ----------

    /** A submission from any client, of any batch, planned on any snapshot it once read. */
    method SubmitAny(run: RunId, request: Request, records: seq<Observation>, snap: Snapshot)
      modifies this
      ensures Now() == SubmitOnce(x, old(Now()), run, request, records, snap)
    {
      if run in runs && runs[run].request == request && (request, snap) in taken {
        var rows := BatchRows(x, request, records);
        if rows.Ok? {
          var plan := PlanWrite(run, rows.value, snap);
          SubmitQuery(run, Submission(request, rows.value, plan));
        }
      }
    }

    /** What clients do. */
    method ClientActs(e: Event)
      requires e.Begin? || e.Read? || e.Submit? || e.Finalize? || e.MarkFailed?
      modifies this
      ensures Now() == Step(x, old(Now()), e)
    {
      match e
      case Begin(run, request) => SubmitBeginQuery(run, request);
      case Read(request) => var answer := AnswerSnapshot(request);
      case Submit(run, request, records, snap) => SubmitAny(run, request, records, snap);
      case Finalize(run, at) => var committed := FinalizeArrives(run, at);
      case MarkFailed(run) => FailTransaction(run);
    }

    /** What the server does with jobs. */
    method ServerActs(e: Event)
      requires e.BeginRuns? || e.BeginFails? || e.Execute? || e.Abort? || e.End?
      modifies this
      ensures Now() == Step(x, old(Now()), e)
    {
      match e
      case BeginRuns(run) => ServerBegins(run);
      case BeginFails(run) => ServerFailsBegin(run);
      case Execute(run) => ServerExecutes(run);
      case Abort(run) => ServerAborts(run);
      case End(run, succeeded) => ServerReports(run, succeeded);
    }

    /** What dbt does. */
    method DbtActs(e: Event)
      requires IsDbt(e)
      modifies this
      ensures Now() == Step(x, old(Now()), e)
    {
      match e
      case Select(product) => SelectCandidates(product);
      case Merge(product) => MergeCandidates(product);
      case Build(product) => BuildAtOnce(product);
      case Refresh(product) => RefreshFact(product);
    }

    /** Any one event. */
    method Happens(e: Event)
      modifies this
      ensures Now() == Step(x, old(Now()), e)
    {
      if IsDbt(e) {
        DbtActs(e);
      } else if e.BeginExpires? || e.Forget? {
        Expire(e.run, e.BeginExpires?);
      } else if e.Tick? {
        clock := clock + e.elapsed;
      } else if e.Begin? || e.Read? || e.Submit? || e.Finalize? || e.MarkFailed? {
        ClientActs(e);
      } else {
        ServerActs(e);
      }
    }

    /** Between two steps of a call anything may happen, unless the caller is alone. */
    method Others(c: Conditions) returns (ghost trace: seq<Event>)
      requires Valid()
      modifies this
      ensures Valid() && Now() == Play(x, old(Now()), trace) && Extends(old(Now()), Now())
      ensures c.alone ==> trace == [] && Now() == old(Now())
    {
      trace := OthersBesides(None, c);
    }

    /** Anything except what the one dbt writer of a fact does, if the caller is that writer. */
    method OthersBesides(writer: Option<Product>, c: Conditions) returns (ghost trace: seq<Event>)
      requires Valid()
      modifies this
      ensures Valid() && Now() == Play(x, old(Now()), trace) && Extends(old(Now()), Now())
      ensures c.alone ==> trace == [] && Now() == old(Now())
      ensures writer.Some? ==> forall e | e in trace :: !Writes(e, writer.value)
    {
      ghost var s := Now();
      trace := [];
      if !c.alone {
        var n: nat := *;
        var i := 0;
        while i < n
          invariant Valid() && Now() == Play(x, s, trace)
          invariant writer.Some? ==> forall e | e in trace :: !Writes(e, writer.value)
        {
          var e: Event := *;
          if writer.None? || !Writes(e, writer.value) {
            TraceStep(x, s, trace, e);
            StepKeeps(x, Now(), e);
            Happens(e);
            trace := trace + [e];
          }
          i := i + 1;
        }
      }
      PlayExtends(x, s, trace);
    }

    // ---------- waiting for jobs ----------

    /** While a client waits, a pending begin job runs, or fails without effect when the server is unhealthy. */
    method ServerDecidesBegin(run: RunId, request: Request, c: Conditions) returns (ghost trace: seq<Event>)
      modifies this
      ensures Now() == Play(x, old(Now()), trace) && forall e | e in trace :: Begins(e, run, request)
      ensures BeginOnly(old(Now()), Now(), run)
      ensures c.healthy ==> Now() == ExecuteBegin(old(Now()), run)
    {
      TraceBeginRuns(x, Now(), run);
      BeginStepsOnly(Now(), run, request);
      var fails: bool := *;
      if fails && !c.healthy {
        ServerFailsBegin(run);
        trace := [BeginFails(run)];
      } else {
        ServerBegins(run);
        trace := [BeginRuns(run)];
      }
    }

    /** job.result for the begin job. */
    method AwaitBegin(run: RunId, request: Request, c: Conditions)
      returns (r: Result<(), Error>, ghost trace: seq<Event>)
      modifies this
      ensures Now() == Play(x, old(Now()), trace) && forall e | e in trace :: Begins(e, run, request)
      ensures BeginOnly(old(Now()), Now(), run)
      ensures r.Ok? ==> run in begins && begins[run].Begun?
      ensures c.Undisturbed() ==> Now() == ExecuteBegin(old(Now()), run)
      ensures c.online && run in begins && begins[run].Begun? ==> r.Ok?
    {
      trace := [];
      var stall := Lost(c);
      if !stall {
        trace := ServerDecidesBegin(run, request, c);
      }
      var lost := Lost(c);
      if lost || run !in begins || begins[run].BeginPending? {
        r := Err(TransportError);
      } else if begins[run].BeginErrored? {
        r := Err(JobError);
      } else {
        r := Ok(());
      }
    }

    /** The pending job runs, or fails without effect when the server is unhealthy. */
    method ServerRuns(run: RunId, c: Conditions) returns (ghost trace: seq<Event>)
      modifies this
      ensures Now() == Play(x, old(Now()), trace) && (trace == [Abort(run)] || trace == [Execute(run)])
      ensures c.healthy ==> Now() == ExecuteJob(old(Now()), run)
    {
      var abort: bool := *;
      if abort && !c.healthy {
        trace := [Abort(run)];
        TraceAbort(x, Now(), run);
        ServerAborts(run);
      } else {
        trace := [Execute(run)];
        TraceExecute(x, Now(), run);
        ServerExecutes(run);
      }
    }

    /** A landed job ends some time later; an unhealthy server may still report it as failed. */
    method ServerEnds(run: RunId, c: Conditions) returns (ghost trace: seq<Event>)
      modifies this
      ensures Now() == Play(x, old(Now()), trace) && forall e | e in trace :: Settles(e, run)
      ensures c.healthy ==> Now() == EndJob(old(Now()).(clock := clock), run, true)
    {
      var elapsed: nat := *;
      var succeeded: bool := *;
      if c.healthy {
        succeeded := true;
      }
      trace := [Tick(elapsed)] + [End(run, succeeded)];
      TraceEnd(x, Now(), elapsed, run, succeeded);
      clock := clock + elapsed;
      ServerReports(run, succeeded);
    }

    /** While a client watches, a pending job runs and a landed job ends. */
    method Watch(run: RunId, c: Conditions) returns (ghost trace: seq<Event>)
      modifies this
      ensures Now() == Play(x, old(Now()), trace) && forall e | e in trace :: Settles(e, run)
      ensures c.healthy && run in old(jobs) ==> Now() == Settled(old(Now()), run, clock)
    {
      ghost var s := Now();
      trace := [];
      if run in jobs && jobs[run].Pending? {
        trace := ServerRuns(run, c);
      }
      if run in jobs && jobs[run].Landed? {
        ghost var more := ServerEnds(run, c);
        PlayConcat(x, s, trace, more);
        trace := trace + more;
      }
    }

    /** job.result, then job.reload: how the job of `run` turns out while a client watches it. */
    method Await(run: RunId, c: Conditions) returns (outcome: Waited, ghost trace: seq<Event>)
      requires Valid()
      modifies this
      ensures Valid() && Now() == Play(x, old(Now()), trace) && Extends(old(Now()), Now())
      ensures Settling(c.alone, trace, run)
      ensures outcome.Finished? ==> (run, outcome.ended) in ended
      ensures outcome.TerminalError? ==> run in jobs && jobs[run] == Errored
      ensures c.Undisturbed() && run in old(jobs) ==> !outcome.Unknown? && Now() == Settled(old(Now()), run, clock)
      ensures c.Undisturbed() && outcome.Finished? ==> run in jobs && jobs[run] == Done(outcome.ended)
    {
      ghost var s := Now();
      trace := [];
      var stall := Lost(c);
      if !stall {
        trace := Watch(run, c);
        PlayKeeps(x, s, trace);
      }
      ghost var more := Others(c);
      PlayConcat(x, s, trace, more);
      trace := trace + more;
      PlayExtends(x, s, trace);
      if run in s.jobs {
        SettledEnds(s, run, clock);
      }
      var lost := Lost(c);
      outcome := Unknown;
      if !lost && run in jobs {
        assert JobOk(x, Now(), run, jobs[run]);
        if jobs[run].Done? {
          outcome := Finished(jobs[run].ended);
        } else if jobs[run].Errored? {
          outcome := TerminalError;
        }
      }
    }

    // ---------- BigQueryWarehouse ----------

    method GetRun(run: RunId, c: Conditions) returns (r: Result<Option<Run>, Error>)
      ensures r.Ok? ==> r.value == if run in runs then Some(runs[run]) else None
      ensures r.Err? ==> r.error == TransportError && !c.online
    {
      var lost := Lost(c);
      if lost {
        return Err(TransportError);
      }
      r := Ok(if run in runs then Some(runs[run]) else None);
    }

    /** The begin job is submitted, or attached to, and waited for. */
    method RunBeginJob(request: Request, run: RunId, c: Conditions)
      returns (r: Result<(), Error>, ghost trace: seq<Event>)
      requires Valid() && ValidRequest(request)
      modifies this
      ensures Valid() && Now() == Play(x, old(Now()), trace)
      ensures c.alone ==> forall e | e in trace :: Begins(e, run, request)
      ensures c.alone ==> BeginOnly(old(Now()), Now(), run)
      ensures c.Undisturbed() ==> Now() == BeginSettled(old(Now()), run, request)
      ensures c.Undisturbed() ==> (r.Ok? <==> !BeginPinned(Now(), run))
    {
      ghost var s := Now();
      var lost := Lost(c);
      if lost {
        return Err(TransportError), [];
      }
      SendBegin(request, run);
      ghost var submitted := Now();
      r, trace := WaitForBegin(request, run, c);
      if c.alone {
        BeginOnlyTransitive(s, submitted, Now(), run);
        BeginningConcat([Event.Begin(run, request)], trace, run, request);
      }
      PlayConcat(x, s, [Event.Begin(run, request)], trace);
      trace := [Event.Begin(run, request)] + trace;
      BeginEnds(s, run, request);
    }

    method SendBegin(request: Request, run: RunId)
      requires Valid() && ValidRequest(request)
      modifies this
      ensures Valid() && Now() == SubmitBegin(old(Now()), run, request)
      ensures Now() == Play(x, old(Now()), [Event.Begin(run, request)])
      ensures run in begins && BeginOnly(old(Now()), Now(), run)
    {
      ghost var s := Now();
      SubmitBeginQuery(run, request);
      TraceBegin(x, s, run, request);
      PlayKeeps(x, s, [Event.Begin(run, request)]);
    }

    method WaitForBegin(request: Request, run: RunId, c: Conditions)
      returns (r: Result<(), Error>, ghost trace: seq<Event>)
      requires Valid()
      modifies this
      ensures Valid() && Now() == Play(x, old(Now()), trace)
      ensures c.alone ==> forall e | e in trace :: Begins(e, run, request)
      ensures c.alone ==> BeginOnly(old(Now()), Now(), run)
      ensures c.Undisturbed() ==> Now() == ExecuteBegin(old(Now()), run)
      ensures c.Undisturbed() ==> (r.Ok? <==> run in begins && begins[run].Begun?)
    {
      ghost var s := Now();
      trace := Others(c);
      ghost var before := Now();
      ghost var more;
      r, more := AwaitBegin(run, request, c);
      PlayKeeps(x, before, more);
      PlayConcat(x, s, trace, more);
      trace := trace + more;
    }

    /** begin: create the manifest once and check that it is bound to this request. */
    method Begin(request: Request, run: RunId, c: Conditions) returns (r: Result<Run, Error>, ghost trace: seq<Event>)
      requires Valid() && ValidRequest(request)
      modifies this
      ensures Valid() && Now() == Play(x, old(Now()), trace)
      ensures c.alone ==> forall e | e in trace :: Begins(e, run, request)
      ensures c.alone ==> BeginOnly(old(Now()), Now(), run)
      ensures r.Ok? ==> run in runs && runs[run] == r.value && runs[run].request == request
      ensures c.Undisturbed() ==> Now() == BeginSettled(old(Now()), run, request)
      ensures c.Undisturbed() ==> (r.Ok? <==> !BeginPinned(Now(), run) && run in runs && runs[run].request == request)
    {
      ghost var s := Now();
      var started;
      started, trace := RunBeginJob(request, run, c);
      if started.Err? {
        return Err(started.error), trace;
      }
      ghost var more := Others(c);
      PlayConcat(x, s, trace, more);
      trace := trace + more;
      var manifest := GetRun(run, c);
      match manifest
      case Err(e) => r := Err(e);
      case Ok(found) =>
        if found.None? || found.value.request != request {
          r := Err(WarehouseError);
        } else {
          r := Ok(found.value);
        }
    }

    /** snapshot: one market day, refused while a run holds the finalization gate. */
    method ReadSnapshot(request: Request, c: Conditions) returns (r: Result<Snapshot, Error>, ghost trace: seq<Event>)
      requires Valid()
      modifies this
      ensures Now() == Play(x, old(Now()), trace) && (trace == [] || trace == [Read(request)])
      ensures r.Ok? ==> old(active).None?
      ensures r.Ok? ==> r.value == SnapshotOf(old(Now()).Of(request.product), old(sequence), request.day)
      ensures r.Ok? ==> Now() == old(Now()).(taken := old(taken) + {(request, r.value)})
      ensures r.Err? ==> Now() == old(Now())
      ensures c.online ==> (r.Ok? <==> old(active).None?)
    {
      SnapshotSucceeds(x, Now(), request);
      var lost := Lost(c);
      if lost {
        return Err(TransportError), [];
      }
      TraceRead(x, Now(), request);
      trace := [Read(request)];
      var answer := AnswerSnapshot(request);
      r := if answer.Ok? then Ok(answer.value) else Err(WarehouseError);
    }

    /** fail: record a failure; the guarded update may be sent again at any time. */
    method Fail(run: RunId, c: Conditions) returns (recorded: bool, ghost trace: seq<Event>)
      modifies this
      ensures Now() == Play(x, old(Now()), trace) && (trace == [] || trace == [MarkFailed(run)])
      ensures recorded ==> Now() == FailRun(old(Now()), run)
      ensures c.online ==> recorded
      ensures jobs == old(jobs)
    {
      var lost := Lost(c);
      if lost {
        return false, [];
      }
      TraceFail(x, Now(), run);
      trace := [MarkFailed(run)];
      FailTransaction(run);
      lost := Lost(c);
      recorded := !lost;
    }

    /** finalize_query as the client sees it: the call or its answer may get lost. */
    method FinalizeDone(run: RunId, at: nat, c: Conditions) returns (confirmed: bool, ghost trace: seq<Event>)
      requires (run, at) in ended
      modifies this
      ensures Now() == Play(x, old(Now()), trace) && (trace == [] || trace == [Finalize(run, at)])
      ensures confirmed ==> FinalizeRun(old(Now()), run, at).Some? && Now() == FinalizeJob(old(Now()), run, at)
      ensures c.online ==> Now() == FinalizeJob(old(Now()), run, at)
      ensures c.online ==> (confirmed <==> FinalizeRun(old(Now()), run, at).Some?)
    {
      var lost := Lost(c);
      if lost {
        return false, [];
      }
      TraceFinalize(x, Now(), run, at);
      trace := [Finalize(run, at)];
      var committed := FinalizeArrives(run, at);
      lost := Lost(c);
      confirmed := committed && !lost;
    }

    /** reconcile: settle an earlier attempt of this run ID, or report that there is nothing to settle. */
    method Reconcile(run: RunId, c: Conditions) returns (r: Result<Option<Run>, Error>, ghost trace: seq<Event>)
      requires Valid()
      modifies this
      ensures Valid() && Now() == Play(x, old(Now()), trace) && Settling(c.alone, trace, run)
      ensures r.Ok? && r.value.Some? ==> run in runs && runs[run] == r.value.value && runs[run].status == Succeeded
      ensures c.alone && r.Ok? && r.value.None? ==> Now() == old(Now()) && ReconcileFate(Now(), run) == Open
      ensures c.alone && run in old(runs) && old(runs)[run].status == Succeeded ==> Now() == old(Now())
      ensures c.alone && r == Err(WarehouseError) ==> KnownFailure(Now(), run)
      ensures c.Undisturbed() ==> Met(ReconcileFate(old(Now()), run), old(Now()), Now(), run, r)
      ensures c.Undisturbed() && old(active) == Some(run) ==> (active != Some(run) <==> old(Usable(Now(), run)))
    {
      ghost var s := Now();
      var manifest := GetRun(run, c);
      if manifest.Err? {
        return Err(manifest.error), [];
      }
      if manifest.value.None? {
        return Err(WarehouseError), [];
      }
      if manifest.value.value.status == Succeeded {
        return Ok(manifest.value), [];
      }
      if manifest.value.value.status == Failed {
        return Err(WarehouseError), [];
      }
      r, trace := ReconcileOpen(run, manifest.value.value.status, c);
      if c.Undisturbed() && s.active == Some(run) {
        GateReleasedExactly(x, s, Now(), run, r);
      }
    }

    /** The rest of reconcile, once a STARTED or COMMITTED manifest has been read: look for the commit job. */
    method ReconcileOpen(run: RunId, status: Status, c: Conditions)
      returns (r: Result<Option<Run>, Error>, ghost trace: seq<Event>)
      requires Valid() && run in runs && (status == Started || status == Committed)
      requires c.alone ==> runs[run].status == status
      modifies this
      ensures Valid() && Now() == Play(x, old(Now()), trace) && Settling(c.alone, trace, run)
      ensures r.Ok? && r.value.Some? ==> run in runs && runs[run] == r.value.value && runs[run].status == Succeeded
      ensures c.alone && r.Ok? && r.value.None? ==> Now() == old(Now()) && ReconcileFate(Now(), run) == Open
      ensures c.alone && r == Err(WarehouseError) ==> KnownFailure(Now(), run)
      ensures c.Undisturbed() ==> Met(ReconcileFate(old(Now()), run), old(Now()), Now(), run, r)
    {
      ghost var s := Now();
      trace := Others(c);
      var lost := Lost(c);
      if lost {
        return Err(TransportError), trace;
      }
      if run !in jobs {
        if status == Committed {
          if c.alone {
            UnfinalizedIsNewest(x, s, run);
          }
          return Err(CommitUnconfirmed), trace;
        }
        return Ok(None), trace;
      }
      ghost var more;
      r, more := Settle(run, c);
      PlayConcat(x, s, trace, more);
      SettlingConcat(c.alone, trace, more, run);
      trace := trace + more;
    }

    /** The rest of reconcile, once a commit job has been seen. */
    method Settle(run: RunId, c: Conditions) returns (r: Result<Option<Run>, Error>, ghost trace: seq<Event>)
      requires Valid() && run in runs
      requires c.alone ==> run in jobs && (runs[run].status == Started || runs[run].status == Committed)
      modifies this
      ensures Valid() && Now() == Play(x, old(Now()), trace) && Settling(c.alone, trace, run)
      ensures r.Ok? ==> r.value.Some? && run in runs && runs[run] == r.value.value && runs[run].status == Succeeded
      ensures c.alone && r == Err(WarehouseError) ==> KnownFailure(Now(), run)
      ensures c.Undisturbed() ==> Met(ReconcileFate(old(Now()), run), old(Now()), Now(), run, r)
    {
      ghost var s := Now();
      ghost var more;
      var outcome;
      outcome, trace := Await(run, c);
      if c.Undisturbed() {
        FateAfterwards(x, s, run, clock);
      }
      match outcome
      case Unknown => r := Err(CommitUnconfirmed);
      case TerminalError =>
        var recorded;
        recorded, more := FailLater(run, c);
        PlayConcat(x, s, trace, more);
        SettlingConcat(c.alone, trace, more, run);
        trace := trace + more;
        r := Err(WarehouseError);
      case Finished(at) =>
        r, more := Confirm(run, at, c);
        PlayConcat(x, s, trace, more);
        SettlingConcat(c.alone, trace, more, run);
        trace := trace + more;
    }

    /** Others may act first; then record the failure, or leave that to a later call if the recording fails too. */
    method FailLater(run: RunId, c: Conditions) returns (recorded: bool, ghost trace: seq<Event>)
      requires Valid()
      modifies this
      ensures Valid() && Now() == Play(x, old(Now()), trace) && Settling(c.alone, trace, run)
      ensures c.alone ==> jobs == old(jobs)
      ensures c.Undisturbed() ==> recorded && Now() == FailRun(old(Now()), run)
    {
      ghost var s := Now();
      trace := Others(c);
      ghost var before := Now();
      ghost var more;
      recorded, more := Fail(run, c);
      PlayKeeps(x, before, more);
      PlayConcat(x, s, trace, more);
      SettlingConcat(c.alone, trace, more, run);
      trace := trace + more;
    }

    /** Finalize with the end of the job, and read the manifest back. */
    method Confirm(run: RunId, at: nat, c: Conditions) returns (r: Result<Option<Run>, Error>, ghost trace: seq<Event>)
      requires Valid() && (run, at) in ended
      modifies this
      ensures Valid() && Now() == Play(x, old(Now()), trace) && Settling(c.alone, trace, run)
      ensures r.Ok? ==> r.value.Some? && run in runs && runs[run] == r.value.value && runs[run].status == Succeeded
      ensures r.Err? ==> r.error == CommitUnconfirmed
      ensures c.Undisturbed() && run in old(runs) && FinalizeRun(old(Now()), run, at).Some? ==>
                Now() == FinalizeRun(old(Now()), run, at).value
                && (r.Ok? <==> run in runs && runs[run].status == Succeeded)
    {
      ghost var s := Now();
      var confirmed;
      confirmed, trace := SendFinalize(run, at, c);
      if !confirmed {
        return Err(CommitUnconfirmed), trace;
      }
      ghost var more;
      r, more := ReadBack(run, c);
      PlayConcat(x, s, trace, more);
      SettlingConcat(c.alone, trace, more, run);
      trace := trace + more;
    }

    /** Others may act first; then finalize. */
    method SendFinalize(run: RunId, at: nat, c: Conditions) returns (confirmed: bool, ghost trace: seq<Event>)
      requires Valid() && (run, at) in ended
      modifies this
      ensures Valid() && Now() == Play(x, old(Now()), trace) && Settling(c.alone, trace, run)
      ensures c.Undisturbed() && FinalizeRun(old(Now()), run, at).Some? ==>
                confirmed && Now() == FinalizeRun(old(Now()), run, at).value
    {
      ghost var s := Now();
      trace := Others(c);
      ghost var before := Now();
      ghost var more;
      confirmed, more := FinalizeDone(run, at, c);
      PlayKeeps(x, before, more);
      PlayConcat(x, s, trace, more);
      trace := trace + more;
    }

    /** Others may act first; then the manifest is read, and only a SUCCEEDED one confirms. */
    method ReadBack(run: RunId, c: Conditions) returns (r: Result<Option<Run>, Error>, ghost trace: seq<Event>)
      requires Valid()
      modifies this
      ensures Valid() && Now() == Play(x, old(Now()), trace) && Settling(c.alone, trace, run)
      ensures r.Ok? ==> r.value.Some? && run in runs && runs[run] == r.value.value && runs[run].status == Succeeded
      ensures r.Err? ==> r.error == CommitUnconfirmed
      ensures c.alone ==> Now() == old(Now())
      ensures c.Undisturbed() ==> (r.Ok? <==> run in runs && runs[run].status == Succeeded)
    {
      trace := Others(c);
      var result := GetRun(run, c);
      if result.Err? || result.value.None? || result.value.value.status != Succeeded {
        r := Err(CommitUnconfirmed);
      } else {
        r := Ok(result.value);
      }
    }

    /** Others may act first; then reconcile. */
    method ReconcileLater(run: RunId, c: Conditions) returns (r: Result<Option<Run>, Error>, ghost trace: seq<Event>)
      requires Valid()
      modifies this
      ensures Valid() && Now() == Play(x, old(Now()), trace) && Settling(c.alone, trace, run)
      ensures r.Ok? && r.value.Some? ==> run in runs && runs[run] == r.value.value && runs[run].status == Succeeded
      ensures c.alone && r.Ok? && r.value.None? ==> Now() == old(Now()) && ReconcileFate(Now(), run) == Open
      ensures c.alone && run in old(runs) && old(runs)[run].status == Succeeded ==> Now() == old(Now())
      ensures c.Undisturbed() ==> Met(ReconcileFate(old(Now()), run), old(Now()), Now(), run, r)
    {
      ghost var s := Now();
      trace := Others(c);
      ghost var more;
      r, more := Reconcile(run, c);
      PlayConcat(x, s, trace, more);
      SettlingConcat(c.alone, trace, more, run);
      trace := trace + more;
    }

    /** persist: settle an earlier attempt, or plan this batch on a fresh snapshot and submit its commit job. */
    method Persist(request: Request, records: seq<Observation>, run: RunId, c: Conditions)
      returns (r: Result<Option<Run>, Error>, ghost trace: seq<Event>)
      requires Valid() && ValidRequest(request)
      modifies this
      ensures Valid() && Now() == Play(x, old(Now()), trace) && Owning(c.alone, trace, run, request, Ok(records))
      ensures r.Ok? ==> r.value.Some? && run in runs && runs[run] == r.value.value && runs[run].status == Succeeded
      ensures c.alone && run in old(runs) && old(runs)[run].status == Succeeded ==> Now() == old(Now())
      ensures c.Undisturbed() ==> Met(PersistFate(x, old(Now()), run, request, records), old(Now()), Now(), run, r)
      ensures c.Undisturbed() && old(active).Some? && old(PersistsFresh(Now(), run, request)) ==>
                Now() == FailRun(old(Now()), run)
    {
      ghost var s := Now();
      trace := [];
      var manifest := GetRun(run, c);
      if manifest.Err? {
        return Err(manifest.error), trace;
      }
      if manifest.value.None? || manifest.value.value.request != request {
        return Err(WarehouseError), trace;
      }
      r, trace := ReconcileLater(run, c);
      SettlingOwns(c.alone, trace, run, request, Ok(records));
      PlayExtends(x, s, trace);
      RequestStays(s, Now(), run);
      if r.Err? || r.value.Some? {
        return r, trace;
      }
      ghost var more;
      r, more := PersistFresh(request, records, run, c);
      PlayConcat(x, s, trace, more);
      OwningConcat(c.alone, trace, more, run, request, Ok(records));
      trace := trace + more;
    }

    /** persist for a run without a commit job. */
    method PersistFresh(request: Request, records: seq<Observation>, run: RunId, c: Conditions)
      returns (r: Result<Option<Run>, Error>, ghost trace: seq<Event>)
      requires Valid() && ValidRequest(request) && run in runs && runs[run].request == request
      requires c.alone ==> ReconcileFate(Now(), run) == Open
      modifies this
      ensures Valid() && Now() == Play(x, old(Now()), trace) && Owning(c.alone, trace, run, request, Ok(records))
      ensures r.Ok? ==> r.value.Some? && run in runs && runs[run] == r.value.value && runs[run].status == Succeeded
      ensures c.Undisturbed() ==> Met(PersistFate(x, old(Now()), run, request, records), old(Now()), Now(), run, r)
      ensures c.Undisturbed() && old(active).Some? ==> Now() == FailRun(old(Now()), run)
    {
      var rows := BatchRows(x, request, records);
      if rows.Err? {
        r, trace := GiveUp(run, c);
        SettlingOwns(c.alone, trace, run, request, Ok(records));
      } else {
        r, trace := PersistRows(request, records, rows.value, run, c);
      }
    }

    /** The rest of persist, once the batch is in order: snapshot, plan, submit and settle. */
    method PersistRows(request: Request, records: seq<Observation>, rows: seq<Row>, run: RunId, c: Conditions)
      returns (r: Result<Option<Run>, Error>, ghost trace: seq<Event>)
      requires Valid() && run in runs && runs[run].request == request && BatchOf(x, request, records) == Ok(rows)
      requires c.alone ==> ReconcileFate(Now(), run) == Open
      modifies this
      ensures Valid() && Now() == Play(x, old(Now()), trace) && Owning(c.alone, trace, run, request, Ok(records))
      ensures r.Ok? ==> r.value.Some? && run in runs && runs[run] == r.value.value && runs[run].status == Succeeded
      ensures c.Undisturbed() ==> Met(if old(active).Some? then Fails else Succeeds, old(Now()), Now(), run, r)
      ensures c.Undisturbed() && old(active).Some? ==> Now() == FailRun(old(Now()), run)
    {
      ghost var s := Now();
      var snap;
      snap, trace := SnapshotForPlan(request, run, c);
      RequestStays(s, Now(), run);
      ghost var more;
      if snap.Err? {
        r, more := GiveUp(run, c);
        SettlingOwns(c.alone, more, run, request, Ok(records));
      } else {
        r, more := Submit(request, records, rows, snap.value, run, c);
      }
      PlayConcat(x, s, trace, more);
      OwningConcat(c.alone, trace, more, run, request, Ok(records));
      trace := trace + more;
    }

    /** The snapshot a plan is going to be made on; others may overtake it at once. */
    method SnapshotForPlan(request: Request, run: RunId, c: Conditions)
      returns (r: Result<Snapshot, Error>, ghost trace: seq<Event>)
      requires Valid()
      modifies this
      ensures Valid() && Now() == Play(x, old(Now()), trace) && Extends(old(Now()), Now())
      ensures c.alone ==> forall e | e in trace :: e == Read(request)
      ensures r.Ok? ==> (request, r.value) in taken
      ensures c.alone && r.Ok? ==> old(active).None? && r.value.sequence == old(sequence)
                                   && Now() == old(Now()).(taken := old(taken) + {(request, r.value)})
      ensures c.alone && r.Err? ==> Now() == old(Now())
      ensures c.Undisturbed() ==> (r.Ok? <==> old(active).None?)
    {
      ghost var s := Now();
      r, trace := SnapshotLater(request, c);
      ghost var read := Now();
      ghost var more := Others(c);
      PlayConcat(x, s, trace, more);
      ExtendsTransitive(s, read, Now());
      trace := trace + more;
    }

    /** Others may act first; then the snapshot is read. */
    method SnapshotLater(request: Request, c: Conditions) returns (r: Result<Snapshot, Error>, ghost trace: seq<Event>)
      requires Valid()
      modifies this
      ensures Valid() && Now() == Play(x, old(Now()), trace) && Extends(old(Now()), Now())
      ensures c.alone ==> forall e | e in trace :: e == Read(request)
      ensures r.Ok? ==> (request, r.value) in taken
      ensures c.alone && r.Ok? ==> old(active).None? && r.value.sequence == old(sequence)
                                   && Now() == old(Now()).(taken := old(taken) + {(request, r.value)})
      ensures c.alone && r.Err? ==> Now() == old(Now())
      ensures c.Undisturbed() ==> (r.Ok? <==> old(active).None?)
    {
      ghost var s := Now();
      trace := Others(c);
      ghost var before := Now();
      ghost var more;
      r, more := ReadSnapshot(request, c);
      PlayKeeps(x, before, more);
      PlayConcat(x, s, trace, more);
      trace := trace + more;
      PlayExtends(x, s, trace);
    }

    /** Plan on the snapshot just read, submit the commit job and settle it. */
    method Submit(request: Request, records: seq<Observation>, rows: seq<Row>, snap: Snapshot, run: RunId,
                  c: Conditions)
      returns (r: Result<Option<Run>, Error>, ghost trace: seq<Event>)
      requires Valid() && BatchOf(x, request, records) == Ok(rows) && (request, snap) in taken
      requires run in runs && runs[run].request == request
      requires c.alone ==> ReconcileFate(Now(), run) == Open
      modifies this
      ensures Valid() && Now() == Play(x, old(Now()), trace) && Owning(c.alone, trace, run, request, Ok(records))
      ensures r.Ok? ==> r.value.Some? && run in runs && runs[run] == r.value.value && runs[run].status == Succeeded
      ensures c.Undisturbed() && old(active).None? && snap.sequence == old(sequence) ==>
                Met(Succeeds, old(Now()), Now(), run, r)
    {
      ghost var s := Now();
      var sent;
      sent, trace := Send(request, records, rows, snap, run, c);
      PlayKeeps(x, s, trace);
      if !sent {
        return Err(CommitUnconfirmed), trace;
      }
      if c.alone && s.active.None? && snap.sequence == s.sequence {
        FateOfSubmitted(s, run, Submission(request, rows, PlanOf(run, rows, snap)));
      }
      ghost var more;
      r, more := ReconcileLater(run, c);
      SettlingOwns(c.alone, more, run, request, Ok(records));
      PlayConcat(x, s, trace, more);
      OwningConcat(c.alone, trace, more, run, request, Ok(records));
      trace := trace + more;
      if r.Ok? && r.value.None? {
        r := Err(CommitUnconfirmed);
      }
    }

    /** Plan and submit; the answer to the submission may get lost either way. */
    method Send(request: Request, records: seq<Observation>, rows: seq<Row>, snap: Snapshot, run: RunId, c: Conditions)
      returns (sent: bool, ghost trace: seq<Event>)
      requires BatchOf(x, request, records) == Ok(rows) && (request, snap) in taken
      requires run in runs && runs[run].request == request
      modifies this
      ensures Now() == Play(x, old(Now()), trace)
      ensures trace == [] || trace == [Event.Submit(run, request, records, snap)]
      ensures sent ==> Now() == SubmitJob(old(Now()), run, Submission(request, rows, PlanOf(run, rows, snap)))
      ensures c.online ==> sent
    {
      var plan := PlanWrite(run, rows, snap);
      var lost := Lost(c);
      if lost {
        return false, [];
      }
      TraceSubmit(x, Now(), run, request, records, snap);
      trace := [Event.Submit(run, request, records, snap)];
      SubmitQuery(run, Submission(request, rows, plan));
      lost := Lost(c);
      sent := !lost;
    }

    /** Record the failure of a preparation and raise. */
    method GiveUp(run: RunId, c: Conditions) returns (r: Result<Option<Run>, Error>, ghost trace: seq<Event>)
      requires Valid() && run in runs
      modifies this
      ensures Valid() && Now() == Play(x, old(Now()), trace) && Settling(c.alone, trace, run)
      ensures r.Err?
      ensures c.Undisturbed() ==> Now() == FailRun(old(Now()), run)
      ensures c.Undisturbed() && old(runs)[run].status == Started ==> run in runs && runs[run].status == Failed
    {
      assert RunOk(log, run, runs[run]);
      var recorded;
      recorded, trace := FailLater(run, c);
      r := Err(if recorded then WarehouseError else TransportError);
    }

    /** ingest: begin, settle any earlier attempt of this run ID, fetch, then fail or persist. */
    method Ingest(request: Request, run: RunId, source: Result<seq<Observation>, ()>, c: Conditions)
      returns (r: Result<Option<Run>, Error>, ghost trace: seq<Event>)
      requires Valid() && ValidRequest(request)
      modifies this
      ensures Valid() && Now() == Play(x, old(Now()), trace) && Owning(c.alone, trace, run, request, source)
      ensures r.Ok? ==> r.value.Some? && run in runs && runs[run] == r.value.value && runs[run].status == Succeeded
      ensures r.Ok? ==> runs[run].request == request
      ensures c.alone && run in old(runs) && old(runs)[run].status == Succeeded ==>
                Now() == old(Now()).(begins := begins)
      ensures c.Undisturbed() ==>
                Met(IngestFate(x, old(Now()), run, request, source), BeginSettled(old(Now()), run, request),
                    Now(), run, r)
    {
      ghost var s := Now();
      var begun;
      begun, trace := Begin(request, run, c);
      if begun.Err? {
        return Err(begun.error), trace;
      }
      ghost var bound := Now();
      ghost var more;
      r, more := IngestBegun(request, run, source, c);
      PlayExtends(x, bound, more);
      RequestStays(bound, Now(), run);
      PlayConcat(x, s, trace, more);
      OwningConcat(c.alone, trace, more, run, request, source);
      trace := trace + more;
    }

    /** The rest of ingest, once the manifest exists and is bound to the request. */
    method IngestBegun(request: Request, run: RunId, source: Result<seq<Observation>, ()>, c: Conditions)
      returns (r: Result<Option<Run>, Error>, ghost trace: seq<Event>)
      requires Valid() && ValidRequest(request) && run in runs && runs[run].request == request
      modifies this
      ensures Valid() && Now() == Play(x, old(Now()), trace) && Owning(c.alone, trace, run, request, source)
      ensures r.Ok? ==> r.value.Some? && run in runs && runs[run] == r.value.value && runs[run].status == Succeeded
      ensures c.alone && old(runs)[run].status == Succeeded ==> Now() == old(Now())
      ensures c.Undisturbed() ==> Met(BegunFate(x, old(Now()), run, request, source), old(Now()), Now(), run, r)
    {
      ghost var s := Now();
      r, trace := ReconcileLater(run, c);
      SettlingOwns(c.alone, trace, run, request, source);
      if r.Err? || r.value.Some? {
        return;
      }
      PlayExtends(x, s, trace);
      RequestStays(s, Now(), run);
      ghost var more;
      r, more := PersistFetched(request, run, source, c);
      PlayConcat(x, s, trace, more);
      OwningConcat(c.alone, trace, more, run, request, source);
      trace := trace + more;
    }

    /** Others may act while the source is being fetched; then fail or persist. */
    method PersistFetched(request: Request, run: RunId, source: Result<seq<Observation>, ()>, c: Conditions)
      returns (r: Result<Option<Run>, Error>, ghost trace: seq<Event>)
      requires Valid() && ValidRequest(request) && run in runs && runs[run].request == request
      requires c.alone ==> ReconcileFate(Now(), run) == Open
      modifies this
      ensures Valid() && Now() == Play(x, old(Now()), trace) && Owning(c.alone, trace, run, request, source)
      ensures r.Ok? ==> r.value.Some? && run in runs && runs[run] == r.value.value && runs[run].status == Succeeded
      ensures c.Undisturbed() ==> Met(BegunFate(x, old(Now()), run, request, source), old(Now()), Now(), run, r)
    {
      ghost var s := Now();
      trace := Others(c);
      RequestStays(s, Now(), run);
      ghost var more;
      if source.Err? {
        r, more := GiveUp(run, c);
        SettlingOwns(c.alone, more, run, request, source);
      } else {
        r, more := Persist(request, source.value, run, c);
      }
      PlayConcat(x, s, trace, more);
      OwningConcat(c.alone, trace, more, run, request, source);
      trace := trace + more;
    }
  }
}
