// Crash recovery and progress: what a repeated call reaches from every state an interrupted one can leave,
// and the states from which repeating it never helps.
module Recovery {
  import opened Base
  import opened Batches
  import opened Planner
  import opened Facts
  import opened Protocol
  import opened Safety
  import opened Fates
  import opened Client

  /** The events that can take the metadata of a finished commit job away, or report a landed job as failed. */
  predicate LosesJob(e: Event, run: RunId) {
    e == Forget(run) || e == End(run, false)
  }

  ghost predicate NeverStuck(s: State, run: RunId) {
    run in s.runs && s.runs[run].status == Committed ==> Usable(s, run)
  }

  lemma OtherKeepsJob(x: Externals, s: State, event: Event, run: RunId)
    requires !event.Execute? && !event.Finalize? && !event.MarkFailed? && !event.BeginRuns? && !LosesJob(event, run)
    ensures Step(x, s, event).runs == s.runs && (Usable(s, run) ==> Usable(Step(x, s, event), run))
  {
    if IsDbt(event) {
      DbtIsLocal(x, s, event);
    } else if event.Submit? || event.Abort? || event.End? || event.Forget? {
      JobsKeepJob(x, s, event, run);
    } else {
      QuietJobs(x, s, event);
    }
  }

  lemma JobsKeepJob(x: Externals, s: State, event: Event, run: RunId)
    requires (event.Submit? || event.Abort? || event.End? || event.Forget?) && !LosesJob(event, run)
    ensures Step(x, s, event).runs == s.runs && (Usable(s, run) ==> Usable(Step(x, s, event), run))
  {
    match event
    case Submit(_, _, _, _) =>
    case Abort(_) =>
    case End(_, _) =>
    case Forget(_) =>
  }

  lemma QuietJobs(x: Externals, s: State, event: Event)
    requires event.Begin? || event.BeginFails? || event.BeginExpires? || event.Read? || event.Tick?
    ensures Step(x, s, event).runs == s.runs && Step(x, s, event).jobs == s.jobs
  {
  }

  lemma StaysUnstuck(x: Externals, s: State, event: Event, run: RunId)
    requires Inv(x, s) && NeverStuck(s, run) && !LosesJob(event, run)
    ensures NeverStuck(Step(x, s, event), run)
  {
    if event.Execute? {
      ExecuteUnstuck(x, s, event.run, run);
    } else if event.Finalize? {
      FinalizeUnstuck(s, event.run, event.at, run);
    } else if event.MarkFailed? {
      FailUnstuck(s, event.run, run);
    } else if event.BeginRuns? {
      BeginUnstuck(s, event.run, run);
    } else {
      OtherKeepsJob(x, s, event, run);
      JobsUnstuck(s, Step(x, s, event), run);
    }
  }

  lemma FailUnstuck(s: State, r: RunId, run: RunId)
    requires NeverStuck(s, run)
    ensures NeverStuck(FailRun(s, r), run)
  {
  }

  lemma BeginUnstuck(s: State, r: RunId, run: RunId)
    requires NeverStuck(s, run)
    ensures NeverStuck(ExecuteBegin(s, r), run)
  {
  }

  lemma JobsUnstuck(s: State, s': State, run: RunId)
    requires NeverStuck(s, run) && s'.runs == s.runs && (Usable(s, run) ==> Usable(s', run))
    ensures NeverStuck(s', run)
  {
  }

  lemma ExecuteUnstuck(x: Externals, s: State, r: RunId, run: RunId)
    requires Inv(x, s) && NeverStuck(s, run)
    ensures NeverStuck(ExecuteJob(s, r), run)
  {
  }

  lemma FinalizeUnstuck(s: State, r: RunId, at: nat, run: RunId)
    requires NeverStuck(s, run)
    ensures NeverStuck(FinalizeJob(s, r, at), run)
  {
  }

  lemma {:induction false} PlayUnstuck(x: Externals, events: seq<Event>, run: RunId)
    requires x.Valid() && forall e | e in events :: !LosesJob(e, run)
    ensures NeverStuck(Play(x, Empty(), events), run)
  {
    if events != [] {
      var front, last := events[..|events| - 1], events[|events| - 1];
      PlayUnstuck(x, front, run);
      InvariantHolds(x, front);
      StaysUnstuck(x, Play(x, Empty(), front), last, run);
    }
  }

  // ---------- what a repeated ingest reaches ----------

  /** The begin of `run` for `request` is going to work: no begin job under its ID has failed or is going to,
      and none binds the run to another request. */
  predicate BeginWorks(s: State, run: RunId, request: Request) {
    && (run in s.runs ==> s.runs[run].request == request)
    && (run in s.begins ==> !s.begins[run].BeginErrored?)
    && (run in s.begins && s.begins[run].BeginPending? ==> s.begins[run].request == request)
  }

  /** The begin job of `run` has failed, or is going to because the run belongs to another request. */
  predicate BeginDoomed(s: State, run: RunId, request: Request) {
    if run !in s.begins then run in s.runs && s.runs[run].request != request
    else
      match s.begins[run]
      case BeginErrored => true
      case BeginPending(q) => run in s.runs && s.runs[run].request != q
      case Begun => false
  }

  /** What a caller could look up beforehand to know that an ingest past begin is going to succeed. */
  predicate WillSucceed(x: Externals, s: State, run: RunId, request: Request, source: Result<seq<Observation>, ()>) {
    if run in s.runs && s.runs[run].status == Succeeded then true
    else if run in s.runs && s.runs[run].status == Committed then Usable(s, run)
    else if run in s.runs && s.runs[run].status == Failed then false
    else if run in s.jobs then s.jobs[run].Pending? && s.jobs[run].submission.plan.expected == s.sequence
    else s.active.None? && source.Ok? && BatchOf(x, request, source.value).Ok?
  }

  lemma PendingWillCommit(x: Externals, s: State, run: RunId)
    requires Inv(x, s) && run in s.jobs
    ensures !s.jobs[run].Errored? ==> run in s.runs
    ensures s.jobs[run].Pending? && s.runs[run].status == Started ==>
              (CommitBatch(s, run, s.jobs[run].submission).Some? <==>
                 s.jobs[run].submission.plan.expected == s.sequence)
  {
    assert JobOk(x, s, run, s.jobs[run]);
    assert s.jobs[run].Done? ==> EndOk(s.active, s.runs, s.log, s.clock, run, s.jobs[run].ended);
  }

  /** Beginning ends in one of three ways, and each can be told beforehand. */
  lemma BeginOutcome(x: Externals, s: State, run: RunId, request: Request)
    requires Inv(x, s) && ValidRequest(request)
    ensures var begun := BeginSettled(s, run, request);
            && (BeginPinned(begun, run) <==> BeginDoomed(s, run, request))
            && (BeginWorks(s, run, request) <==>
                  !BeginPinned(begun, run) && run in begun.runs && begun.runs[run].request == request)
  {
    assert run in s.begins && s.begins[run].Begun? ==> run in s.runs;
  }

  /** Past begin, the run is as it was, or new. */
  lemma BegunRun(s: State, run: RunId, request: Request)
    requires BeginWorks(s, run, request) && ValidRequest(request)
    requires var begun := BeginSettled(s, run, request); !BeginPinned(begun, run) && run in begun.runs
    ensures var begun := BeginSettled(s, run, request);
            && begun.jobs == s.jobs && begun.active == s.active && begun.sequence == s.sequence
            && (run in s.runs ==> begun.runs[run] == s.runs[run])
            && (run !in s.runs ==> begun.runs[run] == NewRun(request))
  {
    ExecutedBegin(SubmitBegin(s, run, request), run, request);
  }

  lemma ExecutedBegin(s: State, run: RunId, request: Request)
    requires run in s.begins && (s.begins[run].BeginPending? ==> s.begins[run].request == request)
    requires run in ExecuteBegin(s, run).runs && !BeginPinned(ExecuteBegin(s, run), run)
    ensures var begun := ExecuteBegin(s, run);
            && begun.jobs == s.jobs && begun.active == s.active && begun.sequence == s.sequence
            && (run in s.runs ==> begun.runs[run] == s.runs[run])
            && (run !in s.runs ==> begun.runs[run] == NewRun(request))
  {
  }

  lemma FateOfBoundRun(x: Externals, s: State, run: RunId, request: Request, source: Result<seq<Observation>, ()>)
    requires Inv(x, s) && run in s.runs && s.runs[run].request == request
    ensures var fate := BegunFate(x, s, run, request, source);
            && (fate == Stuck <==> s.runs[run].status == Committed && !Usable(s, run))
            && (fate == Succeeds <==> WillSucceed(x, s, run, request, source))
            && fate in {Succeeds, Fails, Stuck}
  {
    assert RunOk(s.log, run, s.runs[run]);
    if run in s.jobs {
      PendingWillCommit(x, s, run);
    }
  }

  lemma BeginStepsKeep(x: Externals, s: State, run: RunId, request: Request)
    requires x.Valid() && Inv(x, s)
    ensures Inv(x, BeginSettled(s, run, request))
  {
    StepKeeps(x, s, Begin(run, request));
    BeginKeeps(x, SubmitBegin(s, run, request), run);
  }

  lemma FateFrom(x: Externals, s: State, run: RunId, request: Request, source: Result<seq<Observation>, ()>)
    requires x.Valid() && Inv(x, s) && ValidRequest(request)
    ensures var fate := IngestFate(x, s, run, request, source);
            && (fate == Pinned <==> BeginDoomed(s, run, request))
            && (fate == Refused <==> !BeginDoomed(s, run, request) && !BeginWorks(s, run, request))
            && (fate == Stuck <==>
                  BeginWorks(s, run, request) && run in s.runs && s.runs[run].status == Committed && !Usable(s, run))
            && (fate == Succeeds <==> BeginWorks(s, run, request) && WillSucceed(x, s, run, request, source))
            && fate != Open
  {
    var begun := BeginSettled(s, run, request);
    BeginOutcome(x, s, run, request);
    if BeginWorks(s, run, request) {
      BeginStepsKeep(x, s, run, request);
      BegunRun(s, run, request);
      FateOfBoundRun(x, begun, run, request, source);
      if run in s.jobs {
        PendingWillCommit(x, s, run);
      }
    }
  }

  /** Crash recovery: after any interleaving, with clients of this and other runs stopped at any point, one
      undisturbed ingest succeeds, fails terminally, or is held up in one of three ways, and which of them
      can be looked up beforehand: the begin job has failed or will, the run belongs to another request, or
      the run is COMMITTED and its commit job is unusable. */
  lemma RepeatedIngestSettles(x: Externals, events: seq<Event>, run: RunId, request: Request,
                              source: Result<seq<Observation>, ()>)
    requires x.Valid() && ValidRequest(request)
    ensures var s := Play(x, Empty(), events);
            var fate := IngestFate(x, s, run, request, source);
            && (fate == Pinned <==> BeginDoomed(s, run, request))
            && (fate == Refused <==> !BeginDoomed(s, run, request) && !BeginWorks(s, run, request))
            && (fate == Stuck <==>
                  BeginWorks(s, run, request) && run in s.runs && s.runs[run].status == Committed && !Usable(s, run))
            && (fate == Succeeds <==> BeginWorks(s, run, request) && WillSucceed(x, s, run, request, source))
            && fate != Open
  {
    InvariantHolds(x, events);
    FateFrom(x, Play(x, Empty(), events), run, request, source);
  }

  // ---------- healthy runs ----------

  /** Events under which a run keeps to one request and none of its jobs is lost, misreported or fails to begin. */
  predicate Harmless(e: Event, run: RunId, request: Request) {
    && !LosesJob(e, run)
    && e != BeginFails(run)
    && (e.Begin? && e.run == run ==> e.request == request)
  }

  lemma StaysBeginnable(x: Externals, s: State, e: Event, run: RunId, request: Request)
    requires BeginWorks(s, run, request) && Harmless(e, run, request)
    ensures BeginWorks(Step(x, s, e), run, request)
  {
    if e.Begin? || e.BeginRuns? || e.BeginFails? || e.BeginExpires? {
      BeginKeepsBegin(x, s, e, run, request);
    } else if e.Execute? {
      ExecuteKeepsBegin(s, e.run, run, request);
    } else if e.Finalize? || e.MarkFailed? {
      EndKeepsBegin(x, s, e, run, request);
    } else {
      LeavesRuns(x, s, e);
    }
  }

  lemma BeginKeepsBegin(x: Externals, s: State, e: Event, run: RunId, request: Request)
    requires e.Begin? || e.BeginRuns? || e.BeginFails? || e.BeginExpires?
    requires BeginWorks(s, run, request) && Harmless(e, run, request)
    ensures BeginWorks(Step(x, s, e), run, request)
  {
    match e
    case Begin(_, _) =>
    case BeginRuns(_) =>
    case BeginFails(_) =>
    case BeginExpires(_) =>
  }

  lemma EndKeepsBegin(x: Externals, s: State, e: Event, run: RunId, request: Request)
    requires (e.Finalize? || e.MarkFailed?) && BeginWorks(s, run, request)
    ensures BeginWorks(Step(x, s, e), run, request)
  {
    match e
    case Finalize(_, _) =>
    case MarkFailed(_) =>
  }

  lemma ExecuteKeepsBegin(s: State, r: RunId, run: RunId, request: Request)
    requires BeginWorks(s, run, request)
    ensures BeginWorks(ExecuteJob(s, r), run, request)
  {
  }

  lemma {:induction false} PlayBeginnable(x: Externals, events: seq<Event>, run: RunId, request: Request)
    requires forall e | e in events :: Harmless(e, run, request)
    ensures BeginWorks(Play(x, Empty(), events), run, request)
  {
    if events != [] {
      PlayBeginnable(x, events[..|events| - 1], run, request);
      StaysBeginnable(x, Play(x, Empty(), events[..|events| - 1]), events[|events| - 1], run, request);
    }
  }

  /** When the run ID is used for one request, its begin job does not fail, and no commit job of it expires or
      is misreported, a repeated ingest always succeeds or fails terminally. */
  lemma HealthyRunsRecover(x: Externals, events: seq<Event>, run: RunId, request: Request,
                           source: Result<seq<Observation>, ()>)
    requires x.Valid() && ValidRequest(request) && forall e | e in events :: Harmless(e, run, request)
    ensures IngestFate(x, Play(x, Empty(), events), run, request, source) in {Succeeds, Fails}
  {
    RepeatedIngestSettles(x, events, run, request, source);
    PlayUnstuck(x, events, run);
    PlayBeginnable(x, events, run, request);
    InvariantHolds(x, events);
  }

  // ---------- a failed begin job pins its run ID ----------

  lemma StaysPinned(x: Externals, s: State, e: Event, run: RunId)
    requires BeginPinned(s, run) && e != BeginExpires(run)
    ensures BeginPinned(Step(x, s, e), run)
    ensures run in Step(x, s, e).runs <==> run in s.runs
  {
    if e.Begin? || e.BeginRuns? || e.BeginFails? || e.BeginExpires? {
      BeginKeepsPinned(x, s, e, run);
    } else if e.Execute? {
      ExecuteKeepsPinned(s, e.run, run);
    } else if e.Finalize? || e.MarkFailed? {
      EndKeepsPinned(x, s, e, run);
    } else {
      LeavesRuns(x, s, e);
    }
  }

  lemma BeginKeepsPinned(x: Externals, s: State, e: Event, run: RunId)
    requires e.Begin? || e.BeginRuns? || e.BeginFails? || e.BeginExpires?
    requires BeginPinned(s, run) && e != BeginExpires(run)
    ensures BeginPinned(Step(x, s, e), run) && (run in Step(x, s, e).runs <==> run in s.runs)
  {
    match e
    case Begin(_, _) =>
    case BeginRuns(_) =>
    case BeginFails(_) =>
    case BeginExpires(_) =>
  }

  lemma EndKeepsPinned(x: Externals, s: State, e: Event, run: RunId)
    requires (e.Finalize? || e.MarkFailed?) && BeginPinned(s, run)
    ensures BeginPinned(Step(x, s, e), run) && (run in Step(x, s, e).runs <==> run in s.runs)
  {
    match e
    case Finalize(_, _) =>
    case MarkFailed(_) =>
  }

  lemma ExecuteKeepsPinned(s: State, r: RunId, run: RunId)
    requires BeginPinned(s, run)
    ensures BeginPinned(ExecuteJob(s, r), run) && (run in ExecuteJob(s, r).runs <==> run in s.runs)
  {
  }

  /** A begin job that failed without effect pins its run ID: until its metadata expires, every later ingest
      under that ID attaches to it and raises, and a run that did not exist never will. */
  lemma {:induction false} FailedBeginPins(x: Externals, s: State, more: seq<Event>, run: RunId, request: Request,
                                           source: Result<seq<Observation>, ()>)
    requires BeginPinned(s, run) && forall e | e in more :: e != BeginExpires(run)
    ensures BeginPinned(Play(x, s, more), run)
    ensures run in Play(x, s, more).runs <==> run in s.runs
    ensures IngestFate(x, Play(x, s, more), run, request, source) == Pinned
  {
    if more != [] {
      var front, last := more[..|more| - 1], more[|more| - 1];
      assert last in more && forall e | e in front :: e in more;
      FailedBeginPins(x, s, front, run, request, source);
      StaysPinned(x, Play(x, s, front), last, run);
    }
  }

  /** The pinned state is reached by a begin job that fails once: the run is absent, it has no commit job, the
      gate is free, and yet no later ingest of any batch gets past begin. */
  lemma PinnedIsReachable(x: Externals, run: RunId, request: Request, source: Result<seq<Observation>, ()>)
    requires ValidRequest(request)
    ensures var s := Play(x, Empty(), [Begin(run, request), BeginFails(run)]);
            && run !in s.runs && run !in s.jobs && s.active.None?
            && BeginPinned(s, run) && IngestFate(x, s, run, request, source) == Pinned
  {
    TraceOne(x, Empty(), Begin(run, request));
    TraceStep(x, Empty(), [Begin(run, request)], BeginFails(run));
    assert [Begin(run, request)] + [BeginFails(run)] == [Begin(run, request), BeginFails(run)];
  }

  // ---------- a lost commit job holds the gate for ever ----------

  /** The snapshot of a bootstrapped warehouse. */
  function FirstSnapshot(): Snapshot {
    Snapshot(0, {}, map[])
  }

  /** The first run of a new warehouse, up to the moment its commit lands. */
  function FirstCommit(run: RunId, request: Request, records: seq<Observation>): seq<Event> {
    [Begin(run, request), BeginRuns(run), Read(request), Submit(run, request, records, FirstSnapshot()), Execute(run)]
  }

  lemma PlayFive(x: Externals, s: State, a: Event, b: Event, c: Event, d: Event, e: Event)
    ensures Play(x, s, [a, b, c, d, e]) == Step(x, Step(x, Step(x, Step(x, Step(x, s, a), b), c), d), e)
  {
    TraceOne(x, s, a);
    TraceStep(x, s, [a], b);
    assert [a] + [b] == [a, b];
    TraceStep(x, s, [a, b], c);
    assert [a, b] + [c] == [a, b, c];
    TraceStep(x, s, [a, b, c], d);
    assert [a, b, c] + [d] == [a, b, c, d];
    TraceStep(x, s, [a, b, c, d], e);
    assert [a, b, c, d] + [e] == [a, b, c, d, e];
  }

  lemma PlayTwoMore(x: Externals, events: seq<Event>, a: Event, b: Event)
    ensures Play(x, Empty(), events + [a] + [b]) == Step(x, Step(x, Play(x, Empty(), events), a), b)
  {
    TraceStep(x, Empty(), events, a);
    TraceStep(x, Empty(), events + [a], b);
  }

  /** A run holds the gate with a landed job, and nothing else has happened. */
  ghost predicate FirstLanded(s: State, run: RunId, request: Request) {
    && s.active == Some(run) && s.runs.Keys == {run}
    && s.runs[run].request == request && s.runs[run].status == Committed
    && s.jobs == map[run := Landed] && s.begins == map[run := Begun] && s.ended == {}
  }

  lemma FirstBegun(x: Externals, run: RunId, request: Request)
    requires ValidRequest(request)
    ensures var s := Step(x, Step(x, Step(x, Empty(), Begin(run, request)), BeginRuns(run)), Read(request));
            && s.runs == map[run := NewRun(request)] && s.begins == map[run := Begun] && s.jobs == map[]
            && s.active.None? && s.sequence == 0 && s.ended == {} && (request, FirstSnapshot()) in s.taken
  {
    var s := Step(x, Step(x, Empty(), Begin(run, request)), BeginRuns(run));
    assert s.Of(request.product) == Tables([], []);
    assert SnapshotOf(Tables([], []), 0, request.day) == FirstSnapshot();
    assert TakeSnapshot(s, request) == Ok(FirstSnapshot());
  }

  /** The first submission of a new warehouse, executed. */
  lemma FirstSubmitted(x: Externals, s: State, run: RunId, request: Request, records: seq<Observation>)
    requires s.runs == map[run := NewRun(request)] && s.begins == map[run := Begun] && s.jobs == map[]
    requires s.active.None? && s.sequence == 0 && s.ended == {} && (request, FirstSnapshot()) in s.taken
    requires BatchOf(x, request, records).Ok?
    ensures FirstLanded(ExecuteJob(SubmitOnce(x, s, run, request, records, FirstSnapshot()), run), run, request)
  {
    var rows := BatchOf(x, request, records).value;
    FirstExecuted(SubmitJob(s, run, Submission(request, rows, PlanOf(run, rows, FirstSnapshot()))), run,
                  Submission(request, rows, PlanOf(run, rows, FirstSnapshot())));
  }

  lemma FirstExecuted(s: State, run: RunId, sub: Submission)
    requires s.runs == map[run := NewRun(sub.request)] && s.begins == map[run := Begun]
    requires s.jobs == map[run := Pending(sub)]
    requires s.active.None? && s.sequence == sub.plan.expected && s.ended == {}
    ensures FirstLanded(ExecuteJob(s, run), run, sub.request)
  {
    var committed := CommitBatch(s, run, sub).value;
    assert committed.active == Some(run) && committed.ended == {} && committed.begins == s.begins;
    assert committed.runs == s.runs[run := CommittedRun(s.runs[run], sub.plan)];
    assert ExecuteJob(s, run).jobs == map[run := Landed];
  }

  lemma FirstCommitLands(x: Externals, run: RunId, request: Request, records: seq<Observation>)
    requires ValidRequest(request) && BatchOf(x, request, records).Ok?
    ensures FirstLanded(Play(x, Empty(), FirstCommit(run, request, records)), run, request)
  {
    var snap := FirstSnapshot();
    var s := Step(x, Step(x, Step(x, Empty(), Begin(run, request)), BeginRuns(run)), Read(request));
    PlayFive(x, Empty(), Begin(run, request), BeginRuns(run), Read(request),
             Submit(run, request, records, snap), Execute(run));
    FirstBegun(x, run, request);
    FirstSubmitted(x, s, run, request, records);
    SubmitExecute(x, s, run, request, records, snap);
  }

  lemma SubmitExecute(x: Externals, s: State, run: RunId, request: Request, records: seq<Observation>, snap: Snapshot)
    ensures Step(x, Step(x, s, Submit(run, request, records, snap)), Execute(run)) ==
            ExecuteJob(SubmitOnce(x, s, run, request, records, snap), run)
  {
  }

  /** The run holding the gate has no job that could finalize it, and no client has seen one end. */
  ghost predicate GateLost(s: State, run: RunId) {
    && s.active == Some(run)
    && run in s.runs && s.runs[run].status == Committed
    && (run in s.jobs ==> s.jobs[run].Pending? || s.jobs[run].Errored?)
    && forall at :: (run, at) !in s.ended
  }

  lemma StaysLost(x: Externals, s: State, e: Event, run: RunId)
    requires GateLost(s, run)
    ensures GateLost(Step(x, s, e), run) && Step(x, s, e).log == s.log
  {
    if e.Submit? || e.Execute? || e.Abort? || e.End? || e.Forget? {
      JobKeepsLost(x, s, e, run);
    } else if e.BeginRuns? || e.Finalize? || e.MarkFailed? {
      RunKeepsLost(x, s, e, run);
    } else if IsDbt(e) {
      DbtIsLocal(x, s, e);
    } else {
      QuietKeepsLost(x, s, e, run);
    }
  }

  lemma JobKeepsLost(x: Externals, s: State, e: Event, run: RunId)
    requires GateLost(s, run) && (e.Submit? || e.Execute? || e.Abort? || e.End? || e.Forget?)
    ensures GateLost(Step(x, s, e), run) && Step(x, s, e).log == s.log
  {
    match e
    case Submit(_, _, _, _) =>
    case Execute(_) =>
    case Abort(_) =>
    case End(_, _) =>
    case Forget(_) =>
  }

  lemma RunKeepsLost(x: Externals, s: State, e: Event, run: RunId)
    requires GateLost(s, run) && (e.BeginRuns? || e.Finalize? || e.MarkFailed?)
    ensures GateLost(Step(x, s, e), run) && Step(x, s, e).log == s.log
  {
    match e
    case BeginRuns(_) =>
    case Finalize(_, _) =>
    case MarkFailed(_) =>
  }

  lemma QuietKeepsLost(x: Externals, s: State, e: Event, run: RunId)
    requires GateLost(s, run) && (e.Begin? || e.BeginFails? || e.BeginExpires? || e.Read? || e.Tick?)
    ensures GateLost(Step(x, s, e), run) && Step(x, s, e).log == s.log
  {
  }

  /** A gate lost in this way is lost for good: the run stays COMMITTED, every reconcile and ingest of it is
      held up, and no batch of any run is ever accepted again. */
  lemma {:induction false} LostGateStaysLost(x: Externals, s: State, more: seq<Event>, run: RunId)
    requires GateLost(s, run)
    ensures var s' := Play(x, s, more);
            GateLost(s', run) && s'.log == s.log && ReconcileFate(s', run) == Stuck
  {
    if more != [] {
      LostGateStaysLost(x, s, more[..|more| - 1], run);
      StaysLost(x, Play(x, s, more[..|more| - 1]), more[|more| - 1], run);
    }
  }

  /** A gate that is not lost can be freed: by a client that has seen the job end, or by its ending well now. */
  lemma NotLostCanBeFreed(x: Externals, s: State, run: RunId) returns (more: seq<Event>)
    requires Inv(x, s) && s.active == Some(run) && !GateLost(s, run)
    ensures Play(x, s, more).active.None?
  {
    if at :| (run, at) in s.ended {
      more := [Finalize(run, at)];
      TraceFinalize(x, s, run, at);
    } else {
      assert JobOk(x, s, run, s.jobs[run]);
      more := [End(run, true)] + [Finalize(run, s.clock)];
      TraceOne(x, s, End(run, true));
      TraceStep(x, s, [End(run, true)], Finalize(run, s.clock));
    }
  }

  /** The gate is held in every continuation exactly when it is lost in the sense above. */
  lemma LostGateIsExact(x: Externals, events: seq<Event>, run: RunId)
    requires x.Valid() && Play(x, Empty(), events).active == Some(run)
    ensures var s := Play(x, Empty(), events);
            GateLost(s, run) <==> forall more :: Play(x, s, more).active == Some(run)
  {
    var s := Play(x, Empty(), events);
    InvariantHolds(x, events);
    if GateLost(s, run) {
      forall more
        ensures Play(x, s, more).active == Some(run)
      {
        LostGateStaysLost(x, s, more, run);
      }
    } else {
      var more := NotLostCanBeFreed(x, s, run);
    }
  }

  /** A COMMITTED run without a usable job: no call gets past it. */
  lemma UnusableIsStuck(x: Externals, s: State, run: RunId, request: Request, source: Result<seq<Observation>, ()>)
    requires run in s.runs && s.runs[run].status == Committed && s.runs[run].request == request && !Usable(s, run)
    requires run in s.begins && s.begins[run].Begun?
    ensures ReconcileFate(s, run) == Stuck && IngestFate(x, s, run, request, source) == Stuck
  {
    assert BeginSettled(s, run, request) == s;
  }

  /** It is reached when the commit of a run lands and its job is then reported as failed. */
  lemma StuckIsReachable(x: Externals, run: RunId, request: Request, records: seq<Observation>,
                         source: Result<seq<Observation>, ()>)
    requires ValidRequest(request) && BatchOf(x, request, records).Ok?
    ensures var s := Play(x, Empty(), FirstCommit(run, request, records) + [End(run, false)]);
            GateLost(s, run) && ReconcileFate(s, run) == Stuck && IngestFate(x, s, run, request, source) == Stuck
  {
    var s := Play(x, Empty(), FirstCommit(run, request, records));
    FirstCommitLands(x, run, request, records);
    TraceStep(x, Empty(), FirstCommit(run, request, records), End(run, false));
    LandedThenFailed(s, run, request);
    UnusableIsStuck(x, EndJob(s, run, false), run, request, source);
  }

  lemma LandedThenFailed(s: State, run: RunId, request: Request)
    requires FirstLanded(s, run, request)
    ensures var s' := EndJob(s, run, false);
            GateLost(s', run) && !Usable(s', run) && s'.runs == s.runs && s'.begins == s.begins
  {
  }

  /** It also happens when the job ends well but its metadata expires before anybody finalizes. */
  lemma ExpiredJobIsStuck(x: Externals, run: RunId, request: Request, records: seq<Observation>,
                          source: Result<seq<Observation>, ()>)
    requires ValidRequest(request) && BatchOf(x, request, records).Ok?
    ensures var s := Play(x, Empty(), FirstCommit(run, request, records) + [End(run, true)] + [Forget(run)]);
            && s.active == Some(run) && run in s.runs && s.runs[run].status == Committed
            && ReconcileFate(s, run) == Stuck && IngestFate(x, s, run, request, source) == Stuck
  {
    var s := Play(x, Empty(), FirstCommit(run, request, records));
    FirstCommitLands(x, run, request, records);
    PlayTwoMore(x, FirstCommit(run, request, records), End(run, true), Forget(run));
    LandedThenForgotten(x, s, run, request);
    UnusableIsStuck(x, Step(x, Step(x, s, End(run, true)), Forget(run)), run, request, source);
  }

  lemma LandedThenForgotten(x: Externals, s: State, run: RunId, request: Request)
    requires FirstLanded(s, run, request)
    ensures var s' := Step(x, Step(x, s, End(run, true)), Forget(run));
            !Usable(s', run) && s'.runs == s.runs && s'.begins == s.begins && s'.active == s.active
  {
  }

  // ---------- a held gate fails others ----------

  /** While one run holds the gate, another that has nothing submitted does not wait: from this reachable state
      persist ends in FailRun (see Warehouse.Persist), with the other run FAILED for good and the gate still held. */
  lemma GateHeldFailsOthers(x: Externals, run: RunId, request: Request, records: seq<Observation>,
                            other: RunId, otherRequest: Request, otherRecords: seq<Observation>)
    requires ValidRequest(request) && BatchOf(x, request, records).Ok? && ValidRequest(otherRequest) && other != run
    ensures var begun := FirstCommit(run, request, records) + [Begin(other, otherRequest)] + [BeginRuns(other)];
            var s := Play(x, Empty(), begun);
            && s.active == Some(run) && PersistsFresh(s, other, otherRequest)
            && PersistFate(x, s, other, otherRequest, otherRecords) == Fails
            && other in FailRun(s, other).runs && FailRun(s, other).runs[other].status == Failed
            && run in FailRun(s, other).runs && FailRun(s, other).runs[run].status == Committed
            && FailRun(s, other).active == Some(run)
  {
    FirstCommitLands(x, run, request, records);
    PlayTwoMore(x, FirstCommit(run, request, records), Begin(other, otherRequest), BeginRuns(other));
  }
}
