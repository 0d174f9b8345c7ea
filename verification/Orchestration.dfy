// The graph of a backfill (orchestration/ingestion.py and flyte_pipeline.py): serial units with at
// most one retry each, then the builds, then the bounded verification.
module Orchestration {
  import opened Base
  import opened Batches
  import opened Planner
  import opened Facts
  import opened Protocol
  import opened Safety
  import opened Progress
  import opened Refinement
  import opened Theorems
  import opened Guarantees
  import opened Fates
  import opened Fetches
  import opened Client
  import opened Recovery
  import opened Transience
  import opened Backfill
  import opened Verification

  /** What the source has for each request: observations, or a refusal. Every fetch stamps them anew. */
  type Source = Request -> Result<seq<Observation>, ()>

  function Fetched(source: Result<seq<Observation>, ()>): seq<Observation> {
    match source case Ok(records) => records case Err(_) => []
  }

  datatype TaskError = Retryable | Stopped

  /** An exception as the classifier finds it, with everything it was raised from. */
  datatype Failure = Failure(raised: seq<Raised>, at: nat)
  {
    predicate Valid() {
      Linked(raised) && at < |raised|
    }

    /** Some cause is passing and none is fatal. */
    ghost predicate IsTransient()
      requires Valid()
    {
      !OnChain(raised, at, Fatal) && OnChain(raised, at, Passing)
    }
  }

  /** Whatever exception a failing call raises, from whatever causes. */
  method Raise() returns (failure: Failure)
    ensures failure.Valid()
  {
    var raised: seq<Raised> := *;
    var at: nat := *;
    failure := Failure(raised, at);
    if !failure.Valid() {
      failure := Failure([Raised(Neutral, None)], 0);
    }
  }

  /** An error may be retried only while nothing of the run can have committed. */
  ghost predicate MayRetry(error: Error, failure: Failure, manifest: Option<Run>)
    requires failure.Valid()
  {
    error != CommitUnconfirmed && (manifest.None? || manifest.value.status == Started) && failure.IsTransient()
  }

  /** retryable */
  method Retries(error: Error, failure: Failure, manifest: Option<Run>) returns (r: bool)
    requires failure.Valid()
    ensures r <==> MayRetry(error, failure, manifest)
  {
    var transient := Transient(failure.raised, failure.at);
    r := error != CommitUnconfirmed && (manifest.None? || manifest.value.status == Started) && transient;
  }

  /** What a task may report about its unit. */
  ghost predicate Reported(s: State, result: UnitResult, unit: Unit) {
    && result.unit == unit
    && Finalized(s, result)
    && (result.reused ==> result.newContents == 0 && result.newTransitions == 0)
    && (!result.reused ==> s.runs[unit.run].newContents == Some(result.newContents)
                           && s.runs[unit.run].newTransitions == Some(result.newTransitions))
  }

  ghost predicate HasSucceeded(s: State, unit: Unit) {
    Eligible(s.runs, unit.run)
  }

  lemma SucceededIsCounted(x: Externals, s: State, run: RunId)
    requires Inv(x, s) && Eligible(s.runs, run)
    ensures s.runs[run].rowsAccepted.Some? && s.runs[run].newContents.Some? && s.runs[run].newTransitions.Some?
  {
    var i := CommittedIsLogged(x, s, run);
    assert EntryOk(s.runs, s.log, i) && CountsOk(s.runs, s.log, i);
  }

  lemma SuccessStays(s: State, s': State, unit: Unit)
    requires Extends(s, s') && HasSucceeded(s, unit)
    ensures HasSucceeded(s', unit)
  {
    assert RunGrows(s.runs[unit.run], s'.runs[unit.run]);
  }

  // ---------- fetching again ----------

  /** What one fetch may give: the data of the source under a new retrieval time, or nothing at all. */
  predicate ComesFrom(fetched: Result<seq<Observation>, ()>, source: Result<seq<Observation>, ()>) {
    fetched.Ok? ==> source.Ok? && SameData(fetched.value, source.value)
  }

  /** A fetch as the network and the clock make it. */
  method Fetch(w: Warehouse, source: Result<seq<Observation>, ()>, c: Conditions)
    returns (fetched: Result<seq<Observation>, ()>, ghost at: int)
    ensures ComesFrom(fetched, source)
    ensures fetched.Ok? ==> source.Ok? && fetched.value == RetrievedAt(source.value, at)
    ensures c.online && source.Ok? ==> fetched.Ok?
  {
    var now: int := *;
    at := now;
    var lost := w.Lost(c);
    if lost || source.Err? {
      return Err(()), at;
    }
    RetrievalKeepsData(source.value, now);
    fetched := Ok(RetrievedAt(source.value, now));
  }

  /** The fate of an ingest does not depend on when it fetches. */
  lemma FateOfRefetch(x: Externals, s: State, run: RunId, request: Request, source: Result<seq<Observation>, ()>,
                      fetched: Result<seq<Observation>, ()>, at: int)
    requires source.Ok? <==> fetched.Ok?
    requires fetched.Ok? ==> fetched.value == RetrievedAt(source.value, at)
    ensures IngestFate(x, s, run, request, fetched) == IngestFate(x, s, run, request, source)
  {
    if source.Ok? {
      RetrievalKeepsAcceptance(x, request, source.value, at);
    }
  }

  /** The events through which a task for one unit can act, whichever fetch it is working with. */
  predicate OwnData(e: Event, run: RunId, request: Request, source: Result<seq<Observation>, ()>) {
    || Settles(e, run)
    || Begins(e, run, request)
    || e == Read(request)
    || (e.Submit? && e.run == run && e.request == request && source.Ok? && SameData(e.records, source.value))
  }

  /** While nobody else acts, a trace consists of the events of one unit's tasks. */
  ghost predicate OwningData(alone: bool, trace: seq<Event>, unit: Unit, source: Result<seq<Observation>, ()>) {
    alone ==> forall e | e in trace :: OwnData(e, unit.run, unit.request, source)
  }

  lemma RefetchOwns(alone: bool, trace: seq<Event>, unit: Unit, fetched: Result<seq<Observation>, ()>,
                    source: Result<seq<Observation>, ()>)
    requires Owning(alone, trace, unit.run, unit.request, fetched) && ComesFrom(fetched, source)
    ensures OwningData(alone, trace, unit, source)
  {
  }

  lemma OwningDataConcat(alone: bool, a: seq<Event>, b: seq<Event>, unit: Unit, source: Result<seq<Observation>, ()>)
    requires OwningData(alone, a, unit, source) && OwningData(alone, b, unit, source)
    ensures OwningData(alone, a + b, unit, source)
  {
  }

  // ---------- one unit leaves the others alone ----------

  /** Everything about `other` is as it was. */
  ghost predicate Untouched(s: State, s': State, other: RunId) {
    && (other in s'.runs <==> other in s.runs)
    && (other in s.runs ==> s'.runs[other] == s.runs[other])
    && (other in s'.jobs <==> other in s.jobs)
    && (other in s.jobs ==> s'.jobs[other] == s.jobs[other])
    && (other in s'.begins <==> other in s.begins)
    && (other in s.begins ==> s'.begins[other] == s.begins[other])
  }

  /** The effect of one unit's events: no other run, job or fact changes. */
  ghost predicate Local(s: State, s': State, run: RunId) {
    && (forall other | other != run :: Untouched(s, s', other))
    && s'.lmpFact == s.lmpFact && s'.loadFact == s.loadFact
  }

  predicate GateFreeFor(s: State, run: RunId) {
    s.active.None? || s.active == Some(run)
  }

  lemma LocalTransitive(a: State, b: State, c: State, run: RunId)
    requires Local(a, b, run) && Local(b, c, run)
    ensures Local(a, c, run)
  {
    forall other | other != run
      ensures Untouched(a, c, other)
    {
      assert Untouched(a, b, other) && Untouched(b, c, other);
    }
  }

  lemma ExecuteLocal(s: State, run: RunId)
    ensures Local(s, ExecuteJob(s, run), run) && (GateFreeFor(s, run) ==> GateFreeFor(ExecuteJob(s, run), run))
  {
    if run in s.jobs && s.jobs[run].Pending? {
      CommitLocal(s, run, s.jobs[run].submission);
    }
  }

  lemma CommitLocal(s: State, run: RunId, sub: Submission)
    ensures match CommitBatch(s, run, sub)
            case None => true
            case Some(s') =>
              Local(s, s', run) && s'.jobs == s.jobs && (GateFreeFor(s, run) ==> GateFreeFor(s', run))
  {
  }

  lemma FinalizeLocal(s: State, run: RunId, at: nat)
    ensures Local(s, FinalizeJob(s, run, at), run)
    ensures GateFreeFor(s, run) ==> GateFreeFor(FinalizeJob(s, run, at), run)
  {
    if FinalizeRun(s, run, at).Some? {
      FinalizeRunLocal(s, run, at);
    }
  }

  lemma FinalizeRunLocal(s: State, run: RunId, at: nat)
    requires FinalizeRun(s, run, at).Some?
    ensures Local(s, FinalizeRun(s, run, at).value, run)
    ensures GateFreeFor(s, run) ==> GateFreeFor(FinalizeRun(s, run, at).value, run)
  {
  }

  lemma EditLocal(s: State, s': State, run: RunId)
    requires s'.active == s.active && s'.lmpFact == s.lmpFact && s'.loadFact == s.loadFact
    requires s'.runs == s.runs || (run in s'.runs && s'.runs == s.runs[run := s'.runs[run]])
    requires s'.jobs == s.jobs || (run in s'.jobs && s'.jobs == s.jobs[run := s'.jobs[run]])
    requires s'.begins == s.begins || (run in s'.begins && s'.begins == s.begins[run := s'.begins[run]])
    ensures Local(s, s', run)
  {
  }

  lemma BeginLocal(x: Externals, s: State, e: Event, run: RunId, request: Request)
    requires Begins(e, run, request)
    ensures Local(s, Step(x, s, e), run) && Step(x, s, e).active == s.active
  {
    match e
    case Begin(_, q) => SubmitBeginLocal(s, run, q);
    case BeginRuns(_) => ExecuteBeginLocal(s, run);
    case BeginFails(_) => SubmitBeginLocal(s, run, request);
  }

  lemma JobEditLocal(s: State, run: RunId, begin: BeginJob)
    ensures var s' := s.(begins := s.begins[run := begin]); Local(s, s', run)
  {
  }

  lemma SubmitBeginLocal(s: State, run: RunId, request: Request)
    ensures Local(s, SubmitBegin(s, run, request), run) && SubmitBegin(s, run, request).active == s.active
    ensures Local(s, AbortBegin(s, run), run) && AbortBegin(s, run).active == s.active
  {
    JobEditLocal(s, run, BeginPending(request));
    JobEditLocal(s, run, BeginErrored);
  }

  lemma BeginRunLocal(s: State, run: RunId, request: Request)
    ensures match BeginRun(s, run, request)
            case None => true
            case Some(s') => Local(s, s', run) && s'.begins == s.begins && s'.active == s.active
  {
  }

  lemma ExecuteBeginLocal(s: State, run: RunId)
    ensures Local(s, ExecuteBegin(s, run), run) && ExecuteBegin(s, run).active == s.active
  {
    if run in s.begins && s.begins[run].BeginPending? {
      BeginRunLocal(s, run, s.begins[run].request);
      match BeginRun(s, run, s.begins[run].request)
      case None => JobEditLocal(s, run, BeginErrored);
      case Some(s') =>
        JobEditLocal(s', run, Begun);
        LocalTransitive(s, s', ExecuteBegin(s, run), run);
    }
  }

  lemma JobLocal(x: Externals, s: State, e: Event, run: RunId)
    requires (e.Submit? || e.Abort? || e.End? || e.MarkFailed?) && e.run == run
    ensures Local(s, Step(x, s, e), run) && Step(x, s, e).active == s.active
  {
    match e
    case Submit(_, q, o, snap) => SubmitLocal(x, s, run, q, o, snap);
    case Abort(_) => ReportLocal(s, run, true);
    case End(_, ok) => ReportLocal(s, run, ok);
    case MarkFailed(_) => FailLocal(s, run);
  }

  lemma SubmitLocal(x: Externals, s: State, run: RunId, q: Request, records: seq<Observation>, snap: Snapshot)
    ensures var s' := SubmitOnce(x, s, run, q, records, snap); Local(s, s', run) && s'.active == s.active
  {
    EditLocal(s, SubmitOnce(x, s, run, q, records, snap), run);
  }

  lemma ReportLocal(s: State, run: RunId, succeeded: bool)
    ensures Local(s, EndJob(s, run, succeeded), run) && EndJob(s, run, succeeded).active == s.active
    ensures Local(s, AbortJob(s, run), run) && AbortJob(s, run).active == s.active
  {
    EditLocal(s, EndJob(s, run, succeeded), run);
    EditLocal(s, AbortJob(s, run), run);
  }

  lemma FailLocal(s: State, run: RunId)
    ensures Local(s, FailRun(s, run), run) && FailRun(s, run).active == s.active
  {
    EditLocal(s, FailRun(s, run), run);
  }

  lemma GateLocal(x: Externals, s: State, e: Event, run: RunId)
    requires (e.Execute? || e.Finalize?) && e.run == run
    ensures Local(s, Step(x, s, e), run) && (GateFreeFor(s, run) ==> GateFreeFor(Step(x, s, e), run))
  {
    match e
    case Execute(_) => ExecuteLocal(s, run);
    case Finalize(_, at) => FinalizeLocal(s, run, at);
  }

  lemma ClockLocal(x: Externals, s: State, e: Event, run: RunId)
    requires e.Read? || e.Tick?
    ensures Local(s, Step(x, s, e), run) && Step(x, s, e).active == s.active
  {
    match e
    case Read(q) => EditLocal(s, ReadOnce(s, q), run);
    case Tick(elapsed) => EditLocal(s, s.(clock := s.clock + elapsed), run);
  }

  lemma StepLocal(x: Externals, s: State, e: Event, run: RunId, request: Request, source: Result<seq<Observation>, ()>)
    requires OwnData(e, run, request, source)
    ensures Local(s, Step(x, s, e), run) && (GateFreeFor(s, run) ==> GateFreeFor(Step(x, s, e), run))
  {
    if e.Execute? || e.Finalize? {
      GateLocal(x, s, e, run);
    } else if e.Begin? || e.BeginRuns? || e.BeginFails? {
      BeginLocal(x, s, e, run, request);
    } else if e.Read? || e.Tick? {
      ClockLocal(x, s, e, run);
    } else {
      JobLocal(x, s, e, run);
    }
  }

  /** Ingesting one unit, however it ends, touches no other run, no job of another run and no fact. */
  lemma {:induction false} PlayLocal(x: Externals, s: State, trace: seq<Event>, run: RunId, request: Request,
                                     source: Result<seq<Observation>, ()>)
    requires forall e | e in trace :: OwnData(e, run, request, source)
    ensures Local(s, Play(x, s, trace), run) && (GateFreeFor(s, run) ==> GateFreeFor(Play(x, s, trace), run))
  {
    if trace != [] {
      var front, last := trace[..|trace| - 1], trace[|trace| - 1];
      assert last in trace && forall e | e in front :: e in trace;
      PlayLocal(x, s, front, run, request, source);
      StepLocal(x, Play(x, s, front), last, run, request, source);
      LocalTransitive(s, Play(x, s, front), Play(x, s, trace), run);
    }
  }

  // ---------- one ingestion task ----------

  lemma BeginSettledTwice(s: State, run: RunId, request: Request)
    requires ValidRequest(request)
    ensures BeginSettled(BeginSettled(s, run, request), run, request) == BeginSettled(s, run, request)
  {
    BeginEnds(s, run, request);
  }

  /** Beginning once more changes nothing. */
  lemma BeginSettlesOnce(x: Externals, s: State, run: RunId, request: Request, source: Result<seq<Observation>, ()>)
    requires ValidRequest(request)
    ensures var begun := BeginSettled(s, run, request);
            && BeginSettled(begun, run, request) == begun
            && IngestFate(x, begun, run, request, source) == IngestFate(x, s, run, request, source)
  {
    BeginSettledTwice(s, run, request);
  }

  /** An undisturbed ingest after which a retry is offered has got no further than begin. */
  lemma RetryMeans(x: Externals, s: State, s': State, run: RunId, request: Request,
                   source: Result<seq<Observation>, ()>, r: Result<Option<Run>, Error>)
    requires x.Valid() && Inv(x, s) && ValidRequest(request)
    requires Met(IngestFate(x, s, run, request, source), BeginSettled(s, run, request), s', run, r) && r.Err?
    requires run !in s'.runs || s'.runs[run].status == Started
    ensures s' == BeginSettled(s, run, request) && IngestFate(x, s, run, request, source) != Succeeds
  {
    FateFrom(x, s, run, request, source);
  }

  /** What one attempt at a unit raised: the error of ingest, if the attempt got that far, and its causes. */
  datatype Raising = Raising(error: Option<Error>, failure: Failure)

  ghost function ManifestOf(s: State, run: RunId): Option<Run> {
    if run in s.runs then Some(s.runs[run]) else None
  }

  /** A retry is offered exactly for passing causes, as long as nothing of the run can have committed. */
  ghost predicate RightlyRetried(r: Result<UnitResult, TaskError>, why: Raising, s: State, run: RunId)
    requires why.failure.Valid() && r.Err?
  {
    if why.error.None? then r == Err(Retryable) <==> why.failure.IsTransient()
    else r == Err(Retryable) <==> MayRetry(why.error.value, why.failure, ManifestOf(s, run))
  }

  /** execute_unit: ingest, and say whether a failure may be tried again under the same run ID. */
  method ExecuteUnit(w: Warehouse, unit: Unit, source: Result<seq<Observation>, ()>, c: Conditions)
    returns (r: Result<UnitResult, TaskError>, ghost trace: seq<Event>, ghost why: Raising)
    requires w.Valid() && ValidRequest(unit.request)
    modifies w
    ensures w.Valid() && w.Now() == Play(w.x, old(w.Now()), trace) && OwningData(c.alone, trace, unit, source)
    ensures r.Ok? ==> Reported(w.Now(), r.value, unit) && (r.value.reused <==> old(HasSucceeded(w.Now(), unit)))
    ensures why.failure.Valid()
    ensures r == Err(Retryable) ==> why.failure.IsTransient()
    ensures c.online && r.Err? ==> why.error.Some? && RightlyRetried(r, why, w.Now(), unit.run)
    ensures r == Err(Retryable) ==>
              w.Now() == old(w.Now()) || unit.run !in w.runs || w.runs[unit.run].status == Started
    ensures c.alone && old(HasSucceeded(w.Now(), unit)) ==> w.Now() == old(w.Now()).(begins := w.begins)
    ensures c.Undisturbed() ==>
              (r.Ok? <==> IngestFate(w.x, old(w.Now()), unit.run, unit.request, source) == Succeeds)
    ensures c.Undisturbed() && r.Ok? ==> w.active != Some(unit.run)
    ensures c.Undisturbed() && r == Err(Retryable) ==>
              w.Now() == BeginSettled(old(w.Now()), unit.run, unit.request)
  {
    ghost var s := w.Now();
    trace := [];
    var failure := Raise();
    why := Raising(None, failure);
    var prior := w.GetRun(unit.run, c);
    if prior.Err? {
      var again := Transient(failure.raised, failure.at);
      return Err(if again then Retryable else Stopped), trace, why;
    }
    trace := w.Others(c);
    var manifest;
    ghost var more;
    manifest, more := IngestFetched(w, unit, source, c);
    PlayConcat(w.x, s, trace, more);
    OwningDataConcat(c.alone, trace, more, unit, source);
    trace := trace + more;
    if manifest.Err? {
      why := Raising(Some(manifest.error), failure);
      r, more := AfterFailure(w, unit, source, manifest.error, failure, c);
      PlayConcat(w.x, s, trace, more);
      OwningDataConcat(c.alone, trace, more, unit, source);
      trace := trace + more;
      if c.Undisturbed() && r == Err(Retryable) {
        RetryMeans(w.x, s, w.Now(), unit.run, unit.request, source, manifest);
      }
      return;
    }
    var done := manifest.value.value;
    SucceededIsCounted(w.x, w.Now(), unit.run);
    var reused := prior.value.Some? && prior.value.value.status == Succeeded;
    r := Ok(UnitResult(unit, done.rowsAccepted.value, if reused then 0 else done.newContents.value,
                       if reused then 0 else done.newTransitions.value, reused));
  }

  /** Others may act first; then the manifest decides whether the task may be retried. */
  method AfterFailure(w: Warehouse, unit: Unit, source: Result<seq<Observation>, ()>, error: Error, failure: Failure,
                      c: Conditions)
    returns (r: Result<UnitResult, TaskError>, ghost trace: seq<Event>)
    requires w.Valid() && failure.Valid()
    modifies w
    ensures w.Valid() && w.Now() == Play(w.x, old(w.Now()), trace) && OwningData(c.alone, trace, unit, source)
    ensures c.alone ==> w.Now() == old(w.Now())
    ensures r.Err?
    ensures r == Err(Retryable) ==> MayRetry(error, failure, ManifestOf(w.Now(), unit.run))
    ensures c.online ==> RightlyRetried(r, Raising(Some(error), failure), w.Now(), unit.run)
  {
    trace := w.Others(c);
    var state := w.GetRun(unit.run, c);
    if state.Err? {
      return Err(Stopped), trace;
    }
    var again := Retries(error, failure, state.value);
    r := Err(if again then Retryable else Stopped);
  }

  /** Fetch and ingest. */
  method IngestFetched(w: Warehouse, unit: Unit, source: Result<seq<Observation>, ()>, c: Conditions)
    returns (r: Result<Option<Run>, Error>, ghost trace: seq<Event>)
    requires w.Valid() && ValidRequest(unit.request)
    modifies w
    ensures w.Valid() && w.Now() == Play(w.x, old(w.Now()), trace) && OwningData(c.alone, trace, unit, source)
    ensures r.Ok? ==> r.value.Some? && HasSucceeded(w.Now(), unit) && w.runs[unit.run] == r.value.value
    ensures r.Ok? ==> w.runs[unit.run].request == unit.request
    ensures c.alone && old(HasSucceeded(w.Now(), unit)) ==> w.Now() == old(w.Now()).(begins := w.begins)
    ensures c.Undisturbed() ==>
              Met(IngestFate(w.x, old(w.Now()), unit.run, unit.request, source),
                  BeginSettled(old(w.Now()), unit.run, unit.request), w.Now(), unit.run, r)
    ensures c.Undisturbed() ==>
              (r.Ok? <==> IngestFate(w.x, old(w.Now()), unit.run, unit.request, source) == Succeeds)
  {
    ghost var s := w.Now();
    var fetched;
    ghost var at;
    fetched, at := Fetch(w, source, c);
    r, trace := w.Ingest(unit.request, unit.run, fetched, c);
    RefetchOwns(c.alone, trace, unit, fetched, source);
    if c.Undisturbed() {
      FateOfRefetch(w.x, s, unit.run, unit.request, source, fetched, at);
      FateFrom(w.x, s, unit.run, unit.request, source);
    }
  }

  /** Others may act first; then one attempt. */
  method TryUnit(w: Warehouse, unit: Unit, source: Result<seq<Observation>, ()>, c: Conditions)
    returns (r: Result<UnitResult, TaskError>, ghost trace: seq<Event>)
    requires w.Valid() && ValidRequest(unit.request)
    modifies w
    ensures w.Valid() && w.Now() == Play(w.x, old(w.Now()), trace) && OwningData(c.alone, trace, unit, source)
    ensures r.Ok? ==> Reported(w.Now(), r.value, unit)
    ensures r.Ok? && old(HasSucceeded(w.Now(), unit)) ==> r.value.reused
    ensures c.alone && r.Ok? && r.value.reused ==> old(HasSucceeded(w.Now(), unit))
    ensures c.alone && r == Err(Retryable) ==>
              w.Now() == old(w.Now()) || unit.run !in w.runs || w.runs[unit.run].status == Started
    ensures c.alone && old(HasSucceeded(w.Now(), unit)) ==> w.Now() == old(w.Now()).(begins := w.begins)
    ensures c.Undisturbed() ==>
              (r.Ok? <==> IngestFate(w.x, old(w.Now()), unit.run, unit.request, source) == Succeeds)
    ensures c.Undisturbed() && r.Ok? ==> w.active != Some(unit.run)
    ensures c.Undisturbed() && r == Err(Retryable) ==>
              w.Now() == BeginSettled(old(w.Now()), unit.run, unit.request)
  {
    ghost var s := w.Now();
    trace := w.Others(c);
    if HasSucceeded(s, unit) {
      SuccessStays(s, w.Now(), unit);
    }
    ghost var more;
    ghost var why;
    r, more, why := ExecuteUnit(w, unit, source, c);
    PlayConcat(w.x, s, trace, more);
    OwningDataConcat(c.alone, trace, more, unit, source);
    trace := trace + more;
  }

  /** ingest_day: a task with one retry; every other failure is final. */
  method IngestDay(w: Warehouse, unit: Unit, source: Result<seq<Observation>, ()>, c: Conditions)
    returns (r: Result<UnitResult, TaskError>, ghost trace: seq<Event>)
    requires w.Valid() && ValidRequest(unit.request)
    modifies w
    ensures w.Valid() && w.Now() == Play(w.x, old(w.Now()), trace) && OwningData(c.alone, trace, unit, source)
    ensures r.Ok? ==> Reported(w.Now(), r.value, unit)
    ensures r.Ok? && old(HasSucceeded(w.Now(), unit)) ==> r.value.reused
    ensures c.alone && r.Ok? && r.value.reused ==> old(HasSucceeded(w.Now(), unit))
    ensures c.alone && old(HasSucceeded(w.Now(), unit)) ==> w.Now() == old(w.Now()).(begins := w.begins)
    ensures c.Undisturbed() ==>
              (r.Ok? <==> IngestFate(w.x, old(w.Now()), unit.run, unit.request, source) == Succeeds)
    ensures c.Undisturbed() && r.Ok? ==> w.active != Some(unit.run)
  {
    ghost var s := w.Now();
    r, trace := TryUnit(w, unit, source, c);
    if r == Err(Retryable) {
      BeginSettlesOnce(w.x, s, unit.run, unit.request, source);
      PlayExtends(w.x, s, trace);
      if HasSucceeded(s, unit) {
        SuccessStays(s, w.Now(), unit);
      }
      ghost var more;
      r, more := TryUnit(w, unit, source, c);
      PlayConcat(w.x, s, trace, more);
      OwningDataConcat(c.alone, trace, more, unit, source);
      trace := trace + more;
    }
  }

  // ---------- the whole backfill ----------

  datatype BackfillError =
    | BadPlan(error: PlanError)
    | UnitFailed(index: nat)
    | BuildFailed
    | CheckUnavailable
    | CheckFailed(reason: CheckError)

  datatype Report = Report(results: seq<UnitResult>, counts: Option<map<Request, nat>>)

  function Records(source: Source): Request -> seq<Observation> {
    (q: Request) => Fetched(source(q))
  }

  lemma OwnIsConfined(e: Event, unit: Unit, backfill: nat, requests: seq<Request>, source: Source)
    requires unit.request in requests && unit.run == Derived(backfill, unit.request)
    requires OwnData(e, unit.run, unit.request, source(unit.request))
    ensures Confined(e, backfill, requests, Records(source))
  {
  }

  /** While nobody else acts, a trace submits nothing but the units of the backfill with the source's data. */
  ghost predicate ConfinedTrace(alone: bool, trace: seq<Event>, backfill: nat, requests: seq<Request>, source: Source) {
    alone ==> forall e | e in trace :: Confined(e, backfill, requests, Records(source))
  }

  lemma ConfinedConcat(alone: bool, a: seq<Event>, b: seq<Event>, backfill: nat, requests: seq<Request>, source: Source)
    requires ConfinedTrace(alone, a, backfill, requests, source) && ConfinedTrace(alone, b, backfill, requests, source)
    ensures ConfinedTrace(alone, a + b, backfill, requests, source)
  {
  }

  /** The units before n have SUCCEEDED as reported. */
  ghost predicate ReportedUpTo(s: State, units: seq<Unit>, results: seq<UnitResult>, n: nat) {
    && n <= |units| && n <= |results|
    && forall i | 0 <= i < n :: Reported(s, results[i], units[i])
  }

  /** The units from n on have not been touched since `s`. */
  ghost predicate UntouchedFrom(s: State, s': State, units: seq<Unit>, n: nat) {
    && (forall i | n <= i < |units| :: Untouched(s, s', units[i].run))
    && s'.lmpFact == s.lmpFact && s'.loadFact == s.loadFact
  }

  lemma ReportsStay(s: State, s': State, units: seq<Unit>, results: seq<UnitResult>, n: nat)
    requires Extends(s, s') && ReportedUpTo(s, units, results, n)
    ensures ReportedUpTo(s', units, results, n)
  {
    forall i | 0 <= i < n
      ensures Reported(s', results[i], units[i])
    {
      assert Reported(s, results[i], units[i]) && RunGrows(s.runs[units[i].run], s'.runs[units[i].run]);
    }
  }

  ghost predicate DistinctRuns(units: seq<Unit>) {
    forall i, j | 0 <= i < j < |units| :: units[i].run != units[j].run
  }

  lemma UntouchedStays(s: State, a: State, b: State, units: seq<Unit>, n: nat)
    requires n < |units| && DistinctRuns(units) && UntouchedFrom(s, a, units, n) && Local(a, b, units[n].run)
    ensures UntouchedFrom(s, b, units, n + 1)
  {
    forall i | n + 1 <= i < |units|
      ensures Untouched(s, b, units[i].run)
    {
      assert units[i].run != units[n].run;
      assert Untouched(s, a, units[i].run) && Untouched(a, b, units[i].run);
    }
  }

  /** What expand promises about its units. */
  ghost predicate Planned(units: seq<Unit>, backfill: nat, requests: seq<Request>) {
    && units == UnitsOf(backfill, requests)
    && DistinctRuns(units) && InDayOrder(units)
    && forall i | 0 <= i < |units| :: ValidRequest(units[i].request) && units[i].request in requests
  }

  lemma PlanIsPlanned(spec: Spec, n: nat)
    requires DistinctHubs(spec.locations)
    ensures Planned(UnitsOf(spec.backfill, PlanRequests(spec, n)), spec.backfill, PlanRequests(spec, n))
  {
    PlanIsOrdered(spec, n);
    var requests := PlanRequests(spec, n);
    var units := UnitsOf(spec.backfill, requests);
    forall i | 0 <= i < |units|
      ensures ValidRequest(units[i].request) && units[i].request in requests
    {
      assert units[i].request == requests[i];
    }
    forall i, j | 0 <= i < j < |units|
      ensures units[i].run != units[j].run && units[i].request.day <= units[j].request.day
    {
      assert requests[i] != requests[j] && requests[i].day <= requests[j].day;
    }
  }

  // ---------- resuming ----------

  /** A unit no attempt has got beyond a bare manifest for, whose begin works and whose data will be accepted. */
  ghost predicate Fresh(x: Externals, s: State, unit: Unit, source: Source) {
    && BeginWorks(s, unit.run, unit.request)
    && unit.run !in s.jobs
    && (unit.run in s.runs ==> s.runs[unit.run].status == Started)
    && source(unit.request).Ok? && BatchOf(x, unit.request, source(unit.request).value).Ok?
  }

  /** What a backfill stopped at unit k leaves: earlier units SUCCEEDED, later ones fresh, and nobody
      else at the gate. k = 0 over fresh units is the start of an uninterrupted backfill. */
  ghost predicate Resumable(x: Externals, s: State, units: seq<Unit>, source: Source, k: nat) {
    && k <= |units|
    && (forall i | 0 <= i < k :: HasSucceeded(s, units[i]) && s.runs[units[i].run].request == units[i].request)
    && (forall i | k < i < |units| :: Fresh(x, s, units[i], source))
    && (if k < |units| then GateFreeFor(s, units[k].run) else s.active.None?)
  }

  ghost predicate GoesThrough(x: Externals, s: State, unit: Unit, source: Source) {
    IngestFate(x, s, unit.run, unit.request, source(unit.request)) == Succeeds
  }

  /** Each unit from i up to k, as far as there are any, is going to succeed. */
  ghost predicate PromisingFrom(x: Externals, s: State, units: seq<Unit>, source: Source, i: nat, k: nat) {
    forall j | i <= j <= k && j < |units| :: GoesThrough(x, s, units[j], source)
  }

  ghost predicate Promising(x: Externals, s: State, units: seq<Unit>, source: Source, k: nat) {
    PromisingFrom(x, s, units, source, 0, k)
  }

  /** What to look up before resuming: begin still works for every unit up to k, and unit k will succeed. */
  lemma ResumesWhen(x: Externals, s: State, units: seq<Unit>, source: Source, k: nat)
    requires x.Valid() && Inv(x, s) && Resumable(x, s, units, source, k)
    requires forall i | 0 <= i < |units| :: ValidRequest(units[i].request)
    ensures Promising(x, s, units, source, k) <==>
              && (forall j | 0 <= j <= k && j < |units| :: BeginWorks(s, units[j].run, units[j].request))
              && (k < |units| ==> WillSucceed(x, s, units[k].run, units[k].request, source(units[k].request)))
  {
    forall j | 0 <= j <= k && j < |units|
      ensures GoesThrough(x, s, units[j], source) <==> LooksGood(x, s, units[j], source, j == k)
    {
      GoesThroughWhen(x, s, units, source, k, j);
    }
    if k < |units| {
      assert LooksGood(x, s, units[k], source, true) <==> GoesThrough(x, s, units[k], source);
    }
    assert Promising(x, s, units, source, k) <==>
           forall j | 0 <= j <= k && j < |units| :: LooksGood(x, s, units[j], source, j == k);
  }

  ghost predicate LooksGood(x: Externals, s: State, unit: Unit, source: Source, last: bool) {
    && BeginWorks(s, unit.run, unit.request)
    && (last ==> WillSucceed(x, s, unit.run, unit.request, source(unit.request)))
  }

  lemma GoesThroughWhen(x: Externals, s: State, units: seq<Unit>, source: Source, k: nat, j: nat)
    requires x.Valid() && Inv(x, s) && Resumable(x, s, units, source, k) && j <= k && j < |units|
    requires ValidRequest(units[j].request)
    ensures GoesThrough(x, s, units[j], source) <==> LooksGood(x, s, units[j], source, j == k)
  {
    FateFrom(x, s, units[j].run, units[j].request, source(units[j].request));
  }

  lemma FreshSucceeds(x: Externals, s: State, unit: Unit, source: Source)
    requires x.Valid() && Inv(x, s) && Fresh(x, s, unit, source) && s.active.None? && ValidRequest(unit.request)
    ensures GoesThrough(x, s, unit, source)
  {
    FateFrom(x, s, unit.run, unit.request, source(unit.request));
  }

  /** Whatever becomes of unit k, the backfill can be resumed there. */
  lemma StaysResumable(x: Externals, s: State, s': State, units: seq<Unit>, source: Source, k: nat)
    requires Resumable(x, s, units, source, k) && k < |units| && DistinctRuns(units)
    requires Local(s, s', units[k].run) && GateFreeFor(s', units[k].run)
    ensures Resumable(x, s', units, source, k)
  {
    forall i | 0 <= i < |units| && i != k
      ensures Untouched(s, s', units[i].run)
    {
      assert units[i].run != units[k].run;
    }
  }

  /** Once unit k has SUCCEEDED, the backfill can be resumed at the next one. */
  lemma NextResumable(x: Externals, s: State, units: seq<Unit>, source: Source, k: nat)
    requires Inv(x, s) && Resumable(x, s, units, source, k) && k < |units|
    requires HasSucceeded(s, units[k]) && s.runs[units[k].run].request == units[k].request
    ensures s.active.None? && Resumable(x, s, units, source, k + 1)
  {
    HolderHasNotSucceeded(x, s, units[k]);
  }

  /** And the next one is going to succeed. */
  lemma NextPromising(x: Externals, s: State, units: seq<Unit>, source: Source, k: nat)
    requires x.Valid() && Inv(x, s) && s.active.None?
    requires k < |units| ==> Fresh(x, s, units[k], source) && ValidRequest(units[k].request)
    ensures PromisingFrom(x, s, units, source, k, k)
  {
    if k < |units| {
      FreshSucceeds(x, s, units[k], source);
    }
  }

  lemma Advances(x: Externals, s: State, units: seq<Unit>, source: Source, k: nat)
    requires x.Valid() && Inv(x, s) && Resumable(x, s, units, source, k) && k < |units|
    requires HasSucceeded(s, units[k]) && s.runs[units[k].run].request == units[k].request
    requires forall i | 0 <= i < |units| :: ValidRequest(units[i].request)
    ensures Resumable(x, s, units, source, k + 1) && PromisingFrom(x, s, units, source, k + 1, k + 1)
  {
    NextResumable(x, s, units, source, k);
    NextPromising(x, s, units, source, k + 1);
  }

  /** The run at the gate is COMMITTED. */
  lemma HolderHasNotSucceeded(x: Externals, s: State, unit: Unit)
    requires Inv(x, s) && HasSucceeded(s, unit)
    ensures s.active != Some(unit.run)
  {
  }

  /** Replaying a SUCCEEDED unit changes nothing but its begin job. */
  lemma ReplayKeeps(x: Externals, s: State, s': State, units: seq<Unit>, source: Source, i: nat, k: nat)
    requires i < k && i < |units| && DistinctRuns(units) && Resumable(x, s, units, source, k)
    requires s' == s.(begins := s'.begins) && Local(s, s', units[i].run)
    ensures Resumable(x, s', units, source, k)
    ensures PromisingFrom(x, s', units, source, i + 1, k) <==> PromisingFrom(x, s, units, source, i + 1, k)
  {
    OthersUntouched(s, s', units, i);
    ReplayResumable(x, s, s', units, source, i, k);
    forall j | i + 1 <= j < |units|
      ensures GoesThrough(x, s', units[j], source) <==> GoesThrough(x, s, units[j], source)
    {
      StillGoesThrough(x, s, s', units[j], source);
    }
    SamePromises(x, s, s', units, source, i + 1, k);
  }

  lemma OthersUntouched(s: State, s': State, units: seq<Unit>, i: nat)
    requires i < |units| && DistinctRuns(units) && Local(s, s', units[i].run)
    ensures forall j | 0 <= j < |units| && j != i :: Untouched(s, s', units[j].run)
  {
    forall j | 0 <= j < |units| && j != i
      ensures Untouched(s, s', units[j].run)
    {
      assert units[j].run != units[i].run;
    }
  }

  lemma ReplayResumable(x: Externals, s: State, s': State, units: seq<Unit>, source: Source, i: nat, k: nat)
    requires i < k && i < |units| && Resumable(x, s, units, source, k)
    requires s' == s.(begins := s'.begins)
    requires forall j | 0 <= j < |units| && j != i :: Untouched(s, s', units[j].run)
    ensures Resumable(x, s', units, source, k)
  {
    forall j | k < j < |units|
      ensures Fresh(x, s', units[j], source)
    {
      assert Fresh(x, s, units[j], source) && Untouched(s, s', units[j].run);
    }
  }

  lemma SamePromises(x: Externals, s: State, s': State, units: seq<Unit>, source: Source, i: nat, k: nat)
    requires forall j | i <= j < |units| ::
               GoesThrough(x, s', units[j], source) <==> GoesThrough(x, s, units[j], source)
    ensures PromisingFrom(x, s', units, source, i, k) <==> PromisingFrom(x, s, units, source, i, k)
  {
  }

  lemma StillGoesThrough(x: Externals, s: State, s': State, unit: Unit, source: Source)
    requires s' == s.(begins := s'.begins) && Untouched(s, s', unit.run)
    ensures GoesThrough(x, s', unit, source) <==> GoesThrough(x, s, unit, source)
  {
    FateUntouched(x, s, s', unit.run, unit.request, source(unit.request));
  }

  /** Two states show the same of one run, and the same gate and sequence. */
  ghost predicate SameOf(a: State, b: State, run: RunId) {
    && (run in a.runs <==> run in b.runs) && (run in a.runs ==> a.runs[run] == b.runs[run])
    && a.jobs == b.jobs && a.active == b.active && a.sequence == b.sequence
  }

  lemma BegunTheSame(s: State, s': State, run: RunId, request: Request)
    requires s' == s.(begins := s'.begins) && (run in s'.begins <==> run in s.begins)
    requires run in s.begins ==> s'.begins[run] == s.begins[run]
    ensures SameOf(BeginSettled(s, run, request), BeginSettled(s', run, request), run)
    ensures BeginPinned(BeginSettled(s, run, request), run) <==> BeginPinned(BeginSettled(s', run, request), run)
  {
    ExecutedTheSame(SubmitBegin(s, run, request), SubmitBegin(s', run, request), run);
  }

  lemma ExecutedTheSame(s: State, s': State, run: RunId)
    requires s' == s.(begins := s'.begins) && (run in s'.begins <==> run in s.begins)
    requires run in s.begins ==> s'.begins[run] == s.begins[run]
    ensures SameOf(ExecuteBegin(s, run), ExecuteBegin(s', run), run)
    ensures BeginPinned(ExecuteBegin(s, run), run) <==> BeginPinned(ExecuteBegin(s', run), run)
  {
  }

  lemma SameReconcileFate(a: State, b: State, run: RunId)
    requires SameOf(a, b, run)
    ensures ReconcileFate(a, run) == ReconcileFate(b, run)
  {
  }

  lemma FateUntouched(x: Externals, s: State, s': State, run: RunId, request: Request,
                      source: Result<seq<Observation>, ()>)
    requires s' == s.(begins := s'.begins) && Untouched(s, s', run)
    ensures IngestFate(x, s', run, request, source) == IngestFate(x, s, run, request, source)
  {
    BegunTheSame(s, s', run, request);
    SameReconcileFate(BeginSettled(s, run, request), BeginSettled(s', run, request), run);
  }

  /** The unit an attempt has got to, when it has done i units and an earlier one had stopped at k. */
  function Furthest(i: nat, k: nat): nat {
    if i < k then k else i
  }

  /** What a unit's task must leave, alone, for the backfill to go on. */
  ghost predicate UnitStep(s: State, s': State, unit: Unit) {
    && Local(s, s', unit.run)
    && (GateFreeFor(s, unit.run) ==> GateFreeFor(s', unit.run))
    && (HasSucceeded(s, unit) ==> s' == s.(begins := s'.begins))
  }

  ghost predicate UnitSucceeded(s: State, unit: Unit) {
    HasSucceeded(s, unit) && s.runs[unit.run].request == unit.request
  }

  /** Unit i, which no earlier attempt got past, has been tried. */
  lemma NewUnitAfter(x: Externals, s: State, s': State, units: seq<Unit>, source: Source, i: nat)
    requires x.Valid() && Inv(x, s') && DistinctRuns(units)
    requires forall j | 0 <= j < |units| :: ValidRequest(units[j].request)
    requires i < |units| && Resumable(x, s, units, source, i) && UnitStep(s, s', units[i])
    ensures Resumable(x, s', units, source, i)
    ensures UnitSucceeded(s', units[i]) ==>
              Resumable(x, s', units, source, i + 1) && PromisingFrom(x, s', units, source, i + 1, i + 1)
  {
    StaysResumable(x, s, s', units, source, i);
    if UnitSucceeded(s', units[i]) {
      Advances(x, s', units, source, i);
    }
  }

  /** The state after unit i, given where the attempt before had stopped. */
  lemma FurthestAfter(x: Externals, s: State, s': State, units: seq<Unit>, source: Source, i: nat, k: nat)
    requires x.Valid() && Inv(x, s') && DistinctRuns(units)
    requires forall j | 0 <= j < |units| :: ValidRequest(units[j].request)
    requires i < |units| && Resumable(x, s, units, source, Furthest(i, k)) && UnitStep(s, s', units[i])
    ensures Resumable(x, s', units, source, Furthest(i, k))
    ensures UnitSucceeded(s', units[i]) ==> Resumable(x, s', units, source, Furthest(i + 1, k))
    ensures UnitSucceeded(s', units[i]) && GoesThrough(x, s, units[i], source) ==>
              (PromisingFrom(x, s, units, source, i, Furthest(i, k)) <==>
               PromisingFrom(x, s', units, source, i + 1, Furthest(i + 1, k)))
  {
    if i < k {
      assert HasSucceeded(s, units[i]);
      ReplayKeeps(x, s, s', units, source, i, k);
      OneMore(x, s, units, source, i, k);
      assert Furthest(i, k) == k && Furthest(i + 1, k) == k;
    } else {
      NewUnitAfter(x, s, s', units, source, i);
      OneMore(x, s, units, source, i, i);
      assert Furthest(i, k) == i && Furthest(i + 1, k) == i + 1;
    }
  }

  lemma OneMore(x: Externals, s: State, units: seq<Unit>, source: Source, i: nat, k: nat)
    requires i <= k && i < |units|
    ensures PromisingFrom(x, s, units, source, i, k) <==>
              GoesThrough(x, s, units[i], source) && PromisingFrom(x, s, units, source, i + 1, k)
  {
  }

  /** What the events of unit i mean for the whole backfill. */
  lemma UnitTrace(x: Externals, s: State, before: State, more: seq<Event>, units: seq<Unit>, i: nat,
                  backfill: nat, requests: seq<Request>, source: Source)
    requires Planned(units, backfill, requests) && i < |units| && UntouchedFrom(s, before, units, i)
    requires forall e | e in more :: OwnData(e, units[i].run, units[i].request, source(units[i].request))
    ensures ConfinedTrace(true, more, backfill, requests, source)
    ensures Local(before, Play(x, before, more), units[i].run)
    ensures GateFreeFor(before, units[i].run) ==> GateFreeFor(Play(x, before, more), units[i].run)
    ensures UntouchedFrom(s, Play(x, before, more), units, i + 1)
  {
    PlayLocal(x, before, more, units[i].run, units[i].request, source(units[i].request));
    UntouchedStays(s, before, Play(x, before, more), units, i);
    forall e | e in more
      ensures Confined(e, backfill, requests, Records(source))
    {
      OwnIsConfined(e, units[i], backfill, requests, source);
    }
  }

  /** What the serial loop keeps before unit i while nobody else acts, for a backfill that started in `s` and
      had earlier stopped at unit k. */
  ghost predicate Running(x: Externals, s: State, now: State, units: seq<Unit>, source: Source, i: nat, k: nat) {
    && UntouchedFrom(s, now, units, i)
    && (Resumable(x, s, units, source, k) ==> Resumable(x, now, units, source, Furthest(i, k)))
  }

  /** The units still to be repeated are as promising as all of them were. */
  ghost predicate Unswayed(x: Externals, s: State, now: State, units: seq<Unit>, source: Source, i: nat, k: nat) {
    Resumable(x, s, units, source, k) ==>
      (Promising(x, s, units, source, k) <==> PromisingFrom(x, now, units, source, i, Furthest(i, k)))
  }

  /** After unit i the loop goes on, or stops where it can be resumed. */
  lemma UnitEnds(x: Externals, s: State, before: State, after: State, units: seq<Unit>, source: Source, i: nat, k: nat)
    requires x.Valid() && Inv(x, after) && i < |units| && DistinctRuns(units)
    requires forall j | 0 <= j < |units| :: ValidRequest(units[j].request)
    requires Running(x, s, before, units, source, i, k)
    requires UntouchedFrom(s, after, units, i + 1) && UnitStep(before, after, units[i])
    ensures Resumable(x, s, units, source, k) ==> Resumable(x, after, units, source, Furthest(i, k))
    ensures UnitSucceeded(after, units[i]) ==> Running(x, s, after, units, source, i + 1, k)
    ensures UnitSucceeded(after, units[i]) && GoesThrough(x, before, units[i], source) ==>
              (Unswayed(x, s, before, units, source, i, k) ==> Unswayed(x, s, after, units, source, i + 1, k))
    ensures !GoesThrough(x, before, units[i], source) && Unswayed(x, s, before, units, source, i, k) ==>
              (Resumable(x, s, units, source, k) ==> !Promising(x, s, units, source, k))
  {
    if Resumable(x, s, units, source, k) {
      FurthestAfter(x, before, after, units, source, i, k);
    }
  }

  /** One round of the serial loop, for a backfill that started in `s`. */
  method IngestNext(w: Warehouse, units: seq<Unit>, i: nat, results: seq<UnitResult>, backfill: nat,
                    ghost requests: seq<Request>, source: Source, c: Conditions, ghost s: State, ghost k: nat)
    returns (r: Result<UnitResult, TaskError>, ghost trace: seq<Event>)
    requires w.Valid() && Planned(units, backfill, requests) && i < |units|
    requires ReportedUpTo(w.Now(), units, results, i)
    requires c.alone ==> Running(w.x, s, w.Now(), units, source, i, k)
    modifies w
    ensures w.Valid() && w.Now() == Play(w.x, old(w.Now()), trace)
    ensures ConfinedTrace(c.alone, trace, backfill, requests, source)
    ensures ReportedUpTo(w.Now(), units, results, i) && (r.Ok? ==> Reported(w.Now(), r.value, units[i]))
    ensures c.alone ==> UntouchedFrom(s, w.Now(), units, i + 1)
    ensures c.alone && Resumable(w.x, s, units, source, k) ==>
              Resumable(w.x, w.Now(), units, source, Furthest(i, k))
    ensures c.alone && r.Ok? ==> Running(w.x, s, w.Now(), units, source, i + 1, k)
    ensures c.Undisturbed() && r.Ok? && Unswayed(w.x, s, old(w.Now()), units, source, i, k) ==>
              Unswayed(w.x, s, w.Now(), units, source, i + 1, k)
    ensures c.Undisturbed() && r.Err? && Unswayed(w.x, s, old(w.Now()), units, source, i, k) ==>
              (Resumable(w.x, s, units, source, k) ==> !Promising(w.x, s, units, source, k))
  {
    ghost var before := w.Now();
    var unit := units[i];
    r, trace := IngestDay(w, unit, source(unit.request), c);
    PlayExtends(w.x, before, trace);
    ReportsStay(before, w.Now(), units, results, i);
    if c.alone {
      UnitTrace(w.x, s, before, trace, units, i, backfill, requests, source);
      UnitEnds(w.x, s, before, w.Now(), units, source, i, k);
    }
  }

  /** The serial loop: it stops at the first unit that fails, with every earlier unit SUCCEEDED and, if nobody
      else acted, every later one untouched and no fact built. Undisturbed, it finishes exactly when every unit
      up to the one an earlier attempt stopped at (`k`) is going to succeed. */
  method IngestUnits(w: Warehouse, units: seq<Unit>, backfill: nat, ghost requests: seq<Request>, source: Source,
                     c: Conditions, ghost k: nat)
    returns (results: seq<UnitResult>, ghost trace: seq<Event>)
    requires w.Valid() && Planned(units, backfill, requests)
    modifies w
    ensures w.Valid() && w.Now() == Play(w.x, old(w.Now()), trace)
    ensures ConfinedTrace(c.alone, trace, backfill, requests, source)
    ensures |results| <= |units| && ReportedUpTo(w.Now(), units, results, |results|)
    ensures c.alone ==> UntouchedFrom(old(w.Now()), w.Now(), units, |results| + 1)
    ensures c.alone && Resumable(w.x, old(w.Now()), units, source, k) ==>
              Resumable(w.x, w.Now(), units, source, Furthest(|results|, k))
    ensures c.Undisturbed() && Resumable(w.x, old(w.Now()), units, source, k) ==>
              (|results| == |units| <==> Promising(w.x, old(w.Now()), units, source, k))
  {
    ghost var s := w.Now();
    results, trace := [], [];
    for i := 0 to |units|
      invariant w.Valid() && w.Now() == Play(w.x, s, trace)
      invariant ConfinedTrace(c.alone, trace, backfill, requests, source)
      invariant |results| == i && ReportedUpTo(w.Now(), units, results, i)
      invariant c.alone ==> Running(w.x, s, w.Now(), units, source, i, k)
      invariant c.Undisturbed() ==> Unswayed(w.x, s, w.Now(), units, source, i, k)
    {
      var result;
      ghost var more;
      result, more := IngestNext(w, units, i, results, backfill, requests, source, c, s, k);
      PlayConcat(w.x, s, trace, more);
      ConfinedConcat(c.alone, trace, more, backfill, requests, source);
      trace := trace + more;
      if result.Err? {
        return;
      }
      results := results + [result.value];
    }
  }

  // ---------- dbt and the bounded verification ----------

  /** Both facts are the last-writer-wins maps of everything that has SUCCEEDED. */
  ghost predicate FactsCurrent(s: State) {
    && FactMeans(s.lmpFact, Where(s.log, BatchSucceeded(s.runs)), Lmp)
    && FactMeans(s.loadFact, Where(s.log, BatchSucceeded(s.runs)), Load)
  }

  lemma BuildsAreCurrent(x: Externals, s: State)
    requires x.Valid() && Inv(x, s) && FactsOk(x, s)
    ensures FactsCurrent(Step(x, Step(x, s, Build(Lmp)), Build(Load)))
  {
    var a := Step(x, s, Build(Lmp));
    BuildIsRefresh(x, s, Lmp);
    FullRefreshMeans(x, s, Lmp);
    StepKeeps(x, s, Build(Lmp));
    FactsStep(x, s, Build(Lmp));
    BuildIsRefresh(x, a, Load);
    FullRefreshMeans(x, a, Load);
  }

  /** The facts of one product hold the observations of every finished unit of it. */
  ghost predicate DeliveredOf(s: State, results: seq<UnitResult>, p: Product) {
    forall i | 0 <= i < |results| && results[i].unit.request.product == p :: Delivered(s, results[i])
  }

  lemma BuildDelivers(x: Externals, s: State, units: seq<Unit>, results: seq<UnitResult>, p: Product)
    requires x.Valid() && Inv(x, s) && FactsOk(x, s)
    requires |results| == |units| && ReportedUpTo(s, units, results, |units|)
    ensures Inv(x, Step(x, s, Build(p))) && DeliveredOf(Step(x, s, Build(p)), results, p)
  {
    var s' := Step(x, s, Build(p));
    BuildOne(x, s, p);
    forall i | 0 <= i < |results| && results[i].unit.request.product == p
      ensures Delivered(s', results[i])
    {
      assert Reported(s, results[i], units[i]);
      assert Finalized(s', results[i]);
      HoldsEachRun(x, s', results[i]);
    }
  }

  /** A build that merges late delivers what had SUCCEEDED when it selected. */
  lemma LateMergeDelivers(x: Externals, s: State, between: seq<Event>, units: seq<Unit>, results: seq<UnitResult>,
                          p: Product)
    requires x.Valid() && Inv(x, s) && FactsOk(x, s) && forall e | e in between :: !Writes(e, p)
    requires |results| == |units| && ReportedUpTo(s, units, results, |units|)
    ensures DeliveredOf(Step(x, Play(x, Step(x, s, Select(p)), between), Merge(p)), results, p)
  {
    var built, merged := Step(x, s, Build(p)), Step(x, Play(x, Step(x, s, Select(p)), between), Merge(p));
    BuildDelivers(x, s, units, results, p);
    BuildIsRefresh(x, s, p);
    LateMergeIsRefresh(x, s, between, p);
    MergedExtends(x, s, between, p);
    forall i | 0 <= i < |results| && results[i].unit.request.product == p
      ensures Delivered(merged, results[i])
    {
      DeliveredCarries(x, built, merged, results[i]);
    }
  }

  lemma MergedExtends(x: Externals, s: State, between: seq<Event>, p: Product)
    requires x.Valid() && Inv(x, s)
    ensures var merged := Step(x, Play(x, Step(x, s, Select(p)), between), Merge(p));
            Inv(x, merged) && Extends(Step(x, s, Build(p)), merged)
  {
    var selected := Step(x, s, Select(p));
    StepKeeps(x, s, Select(p));
    PlayKeeps(x, selected, between);
    StepKeeps(x, Play(x, selected, between), Merge(p));
    PlayExtends(x, selected, between);
    StepExtends(x, Play(x, selected, between), Merge(p));
    ExtendsTransitive(selected, Play(x, selected, between), Step(x, Play(x, selected, between), Merge(p)));
    DbtIsLocal(x, s, Select(p));
    DbtIsLocal(x, s, Build(p));
  }

  lemma DeliveriesStay(x: Externals, s: State, events: seq<Event>, results: seq<UnitResult>, p: Product)
    requires x.Valid() && Inv(x, s) && FactsOk(x, s) && DeliveredOf(s, results, p)
    ensures DeliveredOf(Play(x, s, events), results, p)
  {
    forall i | 0 <= i < |results| && results[i].unit.request.product == p
      ensures Delivered(Play(x, s, events), results[i])
    {
      StaysDeliveredThroughout(x, s, events, results[i]);
    }
  }

  lemma DeliveredPass(x: Externals, first: State, second: State, units: seq<Unit>, results: seq<UnitResult>)
    requires x.Valid() && Inv(x, first) && FactsOk(x, first) && Inv(x, second) && FactsOk(x, second)
    requires DeliveredOf(first, results, Lmp) && DeliveredOf(second, results, Load)
    requires InDayOrder(units) && |results| == |units| && ReportedUpTo(first, units, results, |units|)
    ensures Passes(first, second, units, results)
  {
    forall i | 0 <= i < |results|
      ensures results[i].unit in units && Delivered(At(first, second, results[i].unit.request.product), results[i])
    {
      assert Reported(first, results[i], units[i]);
      assert results[i].unit.request.product == Lmp || results[i].unit.request.product == Load;
    }
    CheckPasses(x, first, second, units, results);
  }

  /** What the builds and the verification keep while others act. */
  ghost predicate Analyzing(x: Externals, s: State, units: seq<Unit>, results: seq<UnitResult>) {
    && x.Valid() && Inv(x, s) && FactsOk(x, s)
    && |results| == |units| && ReportedUpTo(s, units, results, |units|)
  }

  lemma StaysAnalyzing(x: Externals, s: State, events: seq<Event>, units: seq<Unit>, results: seq<UnitResult>)
    requires Analyzing(x, s, units, results)
    ensures Analyzing(x, Play(x, s, events), units, results)
    ensures forall p | DeliveredOf(s, results, p) :: DeliveredOf(Play(x, s, events), results, p)
  {
    PlayKeeps(x, s, events);
    FactsHoldFrom(x, s, events);
    PlayExtends(x, s, events);
    ReportsStay(s, Play(x, s, events), units, results, |units|);
    forall p | DeliveredOf(s, results, p)
      ensures DeliveredOf(Play(x, s, events), results, p)
    {
      DeliveriesStay(x, s, events, results, p);
    }
  }

  lemma BuildTrace(x: Externals, s: State, between: seq<Event>, p: Product)
    ensures Play(x, s, [Select(p)] + between + [Merge(p)]) ==
            Step(x, Play(x, Step(x, s, Select(p)), between), Merge(p))
  {
    TraceOne(x, s, Select(p));
    PlayConcat(x, s, [Select(p)], between);
    TraceStep(x, s, [Select(p)] + between, Merge(p));
  }

  /** One build, with whatever others do while it runs. */
  method BuildOneFact(w: Warehouse, product: Product, ghost units: seq<Unit>, ghost results: seq<UnitResult>,
                      c: Conditions)
    returns (ghost trace: seq<Event>)
    requires w.Valid() && Analyzing(w.x, w.Now(), units, results)
    modifies w
    ensures w.Valid() && Analyzing(w.x, w.Now(), units, results) && w.Now() == Play(w.x, old(w.Now()), trace)
    ensures DeliveredOf(w.Now(), results, product)
    ensures forall p | DeliveredOf(old(w.Now()), results, p) :: DeliveredOf(w.Now(), results, p)
    ensures c.alone ==> w.Now() == Step(w.x, old(w.Now()), Build(product)) && forall e | e in trace :: IsDbt(e)
  {
    ghost var s := w.Now();
    ghost var between := w.BuildFact(product, c);
    trace := [Select(product)] + between + [Merge(product)];
    BuildTrace(w.x, s, between, product);
    LateMergeDelivers(w.x, s, between, units, results, product);
    StaysAnalyzing(w.x, s, trace, units, results);
  }

  /** What others do meanwhile. */
  method Meanwhile(w: Warehouse, ghost units: seq<Unit>, ghost results: seq<UnitResult>, c: Conditions)
    returns (ghost trace: seq<Event>)
    requires w.Valid() && Analyzing(w.x, w.Now(), units, results)
    modifies w
    ensures w.Valid() && Analyzing(w.x, w.Now(), units, results) && w.Now() == Play(w.x, old(w.Now()), trace)
    ensures forall p | DeliveredOf(old(w.Now()), results, p) :: DeliveredOf(w.Now(), results, p)
    ensures c.alone ==> w.Now() == old(w.Now()) && trace == []
  {
    ghost var s := w.Now();
    trace := w.Others(c);
    StaysAnalyzing(w.x, s, trace, units, results);
  }

  /** One build, with whatever others do while it runs and after it. */
  method BuildStep(w: Warehouse, product: Product, ghost units: seq<Unit>, ghost results: seq<UnitResult>,
                   c: Conditions)
    returns (ghost trace: seq<Event>)
    requires w.Valid() && Analyzing(w.x, w.Now(), units, results)
    modifies w
    ensures w.Valid() && Analyzing(w.x, w.Now(), units, results) && w.Now() == Play(w.x, old(w.Now()), trace)
    ensures DeliveredOf(w.Now(), results, product)
    ensures forall p | DeliveredOf(old(w.Now()), results, p) :: DeliveredOf(w.Now(), results, p)
    ensures c.alone ==> w.Now() == Step(w.x, old(w.Now()), Build(product)) && forall e | e in trace :: IsDbt(e)
  {
    ghost var s := w.Now();
    trace := BuildOneFact(w, product, units, results, c);
    ghost var more := Meanwhile(w, units, results, c);
    PlayConcat(w.x, s, trace, more);
    trace := trace + more;
  }

  /** Every unit is counted, with no fewer facts than it accepted observations. */
  ghost predicate AllTallied(first: State, second: State, units: seq<Unit>, results: seq<UnitResult>,
                             counts: map<Request, nat>)
  {
    forall i | 0 <= i < |results| ::
      && Tallied(first, second, units, counts, results[i].unit.request)
      && counts[results[i].unit.request] >= results[i].accepted
  }

  /** The counts are those of two moments between `s` and `now`, one for each query. */
  ghost predicate TalliedSince(s: State, now: State, units: seq<Unit>, results: seq<UnitResult>,
                               counts: map<Request, nat>)
  {
    exists first, second ::
      && AllTallied(first, second, units, results, counts)
      && Extends(s, first) && Extends(first, second) && Extends(second, now)
  }

  /** build_analytics and verify_analytics: whatever others do meanwhile, verification never rejects what the
      units delivered. */
  method Analyze(w: Warehouse, units: seq<Unit>, results: seq<UnitResult>, c: Conditions)
    returns (r: Result<map<Request, nat>, BackfillError>, ghost trace: seq<Event>)
    requires w.Valid() && InDayOrder(units) && Analyzing(w.x, w.Now(), units, results)
    modifies w
    ensures w.Valid() && w.Now() == Play(w.x, old(w.Now()), trace)
    ensures c.alone ==> forall e | e in trace :: IsDbt(e)
    ensures r.Err? ==> r.error == BuildFailed || r.error == CheckUnavailable
    ensures r.Ok? ==> TalliedSince(old(w.Now()), w.Now(), units, results, r.value)
    ensures c.alone && r.Ok? ==> FactsCurrent(w.Now()) && AllTallied(w.Now(), w.Now(), units, results, r.value)
    ensures c.online ==> r.Ok?
  {
    ghost var s := w.Now();
    var failed;
    failed, trace := BuildBoth(w, units, results, c);
    if failed {
      return Err(BuildFailed), trace;
    }
    var lost := w.Lost(c);
    if lost {
      return Err(CheckUnavailable), trace;
    }
    ghost var more;
    ghost var first := w.Now();
    var counts;
    PlayExtends(w.x, s, trace);
    counts, more := Verify(w, units, results, c);
    StaysAnalyzing(w.x, first, more, units, results);
    DeliveredPass(w.x, first, w.Now(), units, results);
    PlayExtends(w.x, first, more);
    PlayConcat(w.x, s, trace, more);
    trace := trace + more;
    SelfExtends(w.Now());
    assert AllTallied(first, w.Now(), units, results, counts.value);
    r := Ok(counts.value);
  }

  lemma SelfExtends(s: State)
    ensures Extends(s, s)
  {
  }

  /** The two builds of a dbt run, either of which may fail. */
  method BuildBoth(w: Warehouse, ghost units: seq<Unit>, ghost results: seq<UnitResult>, c: Conditions)
    returns (failed: bool, ghost trace: seq<Event>)
    requires w.Valid() && Analyzing(w.x, w.Now(), units, results)
    modifies w
    ensures w.Valid() && Analyzing(w.x, w.Now(), units, results) && w.Now() == Play(w.x, old(w.Now()), trace)
    ensures c.alone ==> forall e | e in trace :: IsDbt(e)
    ensures !failed ==> DeliveredOf(w.Now(), results, Lmp) && DeliveredOf(w.Now(), results, Load)
    ensures c.alone && !failed ==> FactsCurrent(w.Now())
    ensures c.online ==> !failed
  {
    ghost var s := w.Now();
    trace := [];
    failed := w.Lost(c);
    if failed {
      return;
    }
    trace := BuildStep(w, Lmp, units, results, c);
    failed := w.Lost(c);
    if failed {
      return;
    }
    ghost var more := BuildStep(w, Load, units, results, c);
    PlayConcat(w.x, s, trace, more);
    trace := trace + more;
    if c.alone {
      BuildsAreCurrent(w.x, s);
    }
  }

  // ---------- backfill ----------

  ghost function UnitsOfSpec(spec: Spec): seq<Unit> {
    if spec.start <= spec.end then UnitsOf(spec.backfill, PlanRequests(spec, spec.end - spec.start + 1)) else []
  }

  ghost function RequestsOfSpec(spec: Spec): seq<Request> {
    if spec.start <= spec.end then PlanRequests(spec, spec.end - spec.start + 1) else []
  }

  /** What a failed unit leaves when nobody else acted: later units untouched, no fact built, and a backfill
      that can be resumed there. */
  ghost predicate FailedFast(x: Externals, s: State, now: State, units: seq<Unit>, source: Source, index: nat, k: nat) {
    && UntouchedFrom(s, now, units, index + 1)
    && (Resumable(x, s, units, source, k) ==> Resumable(x, now, units, source, Furthest(index, k)))
  }

  /** What a report says: every unit SUCCEEDED, and after dbt every unit is counted in full. */
  ghost predicate Completed(s: State, now: State, units: seq<Unit>, report: Report, runDbt: bool) {
    && |report.results| == |units| && ReportedUpTo(now, units, report.results, |units|)
    && (report.counts.Some? <==> runDbt)
    && (runDbt ==> TalliedSince(s, now, units, report.results, report.counts.value))
  }

  lemma TalliedEarlier(s: State, s': State, now: State, units: seq<Unit>, results: seq<UnitResult>,
                       counts: map<Request, nat>)
    requires Extends(s, s') && TalliedSince(s', now, units, results, counts)
    ensures TalliedSince(s, now, units, results, counts)
  {
    var first, second :|
      && AllTallied(first, second, units, results, counts)
      && Extends(s', first) && Extends(first, second) && Extends(second, now);
    ExtendsTransitive(s, s', first);
  }

  /** Each unit before the one that failed has SUCCEEDED. */
  ghost predicate DoneBefore(now: State, units: seq<Unit>, index: nat) {
    index < |units| && forall i | 0 <= i < index :: UnitSucceeded(now, units[i])
  }

  /** What follows once every unit has SUCCEEDED. */
  method Finish(w: Warehouse, units: seq<Unit>, results: seq<UnitResult>, runDbt: bool, c: Conditions)
    returns (r: Result<Report, BackfillError>, ghost trace: seq<Event>)
    requires w.Valid() && InDayOrder(units) && Analyzing(w.x, w.Now(), units, results)
    modifies w
    ensures w.Valid() && w.Now() == Play(w.x, old(w.Now()), trace)
    ensures c.alone ==> forall e | e in trace :: IsDbt(e)
    ensures r.Err? ==> r.error == BuildFailed || r.error == CheckUnavailable
    ensures r.Ok? ==> Completed(old(w.Now()), w.Now(), units, r.value, runDbt)
    ensures c.alone && r.Ok? && runDbt ==>
              && FactsCurrent(w.Now())
              && AllTallied(w.Now(), w.Now(), units, r.value.results, r.value.counts.value)
    ensures c.online ==> r.Ok?
  {
    if !runDbt {
      return Ok(Report(results, None)), [];
    }
    ghost var s := w.Now();
    var counts;
    counts, trace := Analyze(w, units, results, c);
    PlayExtends(w.x, s, trace);
    ReportsStay(s, w.Now(), units, results, |units|);
    if counts.Err? {
      return Err(counts.error), trace;
    }
    r := Ok(Report(results, Some(counts.value)));
  }

  lemma CompletedEarlier(s: State, s': State, now: State, units: seq<Unit>, report: Report, runDbt: bool)
    requires Extends(s, s') && Completed(s', now, units, report, runDbt)
    ensures Completed(s, now, units, report, runDbt)
  {
    if runDbt {
      TalliedEarlier(s, s', now, units, report.results, report.counts.value);
    }
  }

  lemma DbtIsConfined(alone: bool, trace: seq<Event>, backfill: nat, requests: seq<Request>, source: Source)
    requires alone ==> forall e | e in trace :: IsDbt(e)
    ensures ConfinedTrace(alone, trace, backfill, requests, source)
  {
  }

  method RunUnits(w: Warehouse, units: seq<Unit>, backfill: nat, ghost requests: seq<Request>, source: Source,
                  runDbt: bool, c: Conditions, ghost k: nat)
    returns (r: Result<Report, BackfillError>, ghost trace: seq<Event>)
    requires w.Valid() && FactsOk(w.x, w.Now()) && Planned(units, backfill, requests)
    modifies w
    ensures w.Valid() && w.Now() == Play(w.x, old(w.Now()), trace)
    ensures ConfinedTrace(c.alone, trace, backfill, requests, source)
    ensures r.Err? ==> r.error.UnitFailed? || r.error == BuildFailed || r.error == CheckUnavailable
    ensures r.Err? && r.error.UnitFailed? ==> DoneBefore(w.Now(), units, r.error.index)
    ensures c.alone && r.Err? && r.error.UnitFailed? ==>
              FailedFast(w.x, old(w.Now()), w.Now(), units, source, r.error.index, k)
    ensures r.Ok? ==> Completed(old(w.Now()), w.Now(), units, r.value, runDbt)
    ensures c.alone && r.Ok? && runDbt ==>
              && FactsCurrent(w.Now())
              && AllTallied(w.Now(), w.Now(), units, r.value.results, r.value.counts.value)
    ensures c.Undisturbed() && Resumable(w.x, old(w.Now()), units, source, k) ==>
              (r.Ok? <==> Promising(w.x, old(w.Now()), units, source, k))
  {
    ghost var s := w.Now();
    var results;
    results, trace := IngestUnits(w, units, backfill, requests, source, c, k);
    if |results| < |units| {
      assert forall i | 0 <= i < |results| :: Reported(w.Now(), results[i], units[i]);
      return Err(UnitFailed(|results|)), trace;
    }
    FactsHoldFrom(w.x, s, trace);
    PlayExtends(w.x, s, trace);
    ghost var done := w.Now();
    ghost var more;
    r, more := Finish(w, units, results, runDbt, c);
    PlayConcat(w.x, s, trace, more);
    DbtIsConfined(c.alone, more, backfill, requests, source);
    ConfinedConcat(c.alone, trace, more, backfill, requests, source);
    trace := trace + more;
    if r.Ok? {
      CompletedEarlier(s, done, w.Now(), units, r.value, runDbt);
    }
  }

  /** backfill: plan, ingest serially and fail fast, then build and verify. `k` is where an earlier attempt
      under this backfill ID stopped. */
  method RunBackfill(w: Warehouse, today: int, spec: Spec, source: Source, runDbt: bool, c: Conditions, ghost k: nat)
    returns (r: Result<Report, BackfillError>, ghost trace: seq<Event>)
    requires w.Valid() && FactsOk(w.x, w.Now())
    modifies w
    ensures w.Valid() && w.Now() == Play(w.x, old(w.Now()), trace)
    ensures ConfinedTrace(c.alone, trace, spec.backfill, RequestsOfSpec(spec), source)
    ensures r.Err? && r.error.BadPlan? <==> !Acceptable(w.x, today, spec)
    ensures !Acceptable(w.x, today, spec) ==> w.Now() == old(w.Now())
    ensures r.Err? ==> !r.error.CheckFailed?
    ensures r.Err? && r.error.UnitFailed? ==> DoneBefore(w.Now(), UnitsOfSpec(spec), r.error.index)
    ensures c.alone && r.Err? && r.error.UnitFailed? ==>
              FailedFast(w.x, old(w.Now()), w.Now(), UnitsOfSpec(spec), source, r.error.index, k)
    ensures r.Ok? ==> Completed(old(w.Now()), w.Now(), UnitsOfSpec(spec), r.value, runDbt)
    ensures c.alone && r.Ok? && runDbt ==>
              && FactsCurrent(w.Now())
              && AllTallied(w.Now(), w.Now(), UnitsOfSpec(spec), r.value.results, r.value.counts.value)
    ensures c.Undisturbed() && Acceptable(w.x, today, spec) ==>
              Resumable(w.x, old(w.Now()), UnitsOfSpec(spec), source, k) ==>
                (r.Ok? <==> Promising(w.x, old(w.Now()), UnitsOfSpec(spec), source, k))
  {
    trace := [];
    var plan := Expand(w.x, today, spec);
    if plan.Err? {
      return Err(BadPlan(plan.error)), trace;
    }
    PlanIsPlanned(spec, spec.end - spec.start + 1);
    r, trace := RunUnits(w, plan.value, spec.backfill, RequestsOfSpec(spec), source, runDbt, c, k);
  }

  /** Resume equals uninterrupted: any number of interrupted attempts followed by one that reports success
      leave the same contents and revisions as any other successful backfill of the same requests, in
      particular an uninterrupted one under another backfill ID. */
  lemma ResumeEqualsUninterrupted(x: Externals, s0: State, requests: seq<Request>, source: Source,
                                  e1: seq<Event>, b1: nat, r1: seq<UnitResult>, e2: seq<Event>, b2: nat,
                                  r2: seq<UnitResult>, key: Key)
    requires x.Valid() && Inv(x, s0) && Quiet(s0)
    requires forall q | q in requests :: Derived(b1, q) !in CommittedRuns(s0) && Derived(b2, q) !in CommittedRuns(s0)
    requires forall e | e in e1 :: Confined(e, b1, requests, Records(source))
    requires forall e | e in e2 :: Confined(e, b2, requests, Records(source))
    requires ReportedUpTo(Play(x, s0, e1), UnitsOf(b1, requests), r1, |requests|)
    requires ReportedUpTo(Play(x, s0, e2), UnitsOf(b2, requests), r2, |requests|)
    ensures SameHistory(Play(x, s0, e1), Play(x, s0, e2), key)
  {
    ReportsMeanCommitted(Play(x, s0, e1), b1, requests, r1);
    ReportsMeanCommitted(Play(x, s0, e2), b2, requests, r2);
    BackfillConfluence(x, s0, requests, Records(source), e1, b1, e2, b2, key);
  }

  lemma ReportsMeanCommitted(s: State, backfill: nat, requests: seq<Request>, results: seq<UnitResult>)
    requires ReportedUpTo(s, UnitsOf(backfill, requests), results, |requests|)
    ensures AllCommitted(s, backfill, requests)
  {
    forall q | q in requests
      ensures Derived(backfill, q) in CommittedRuns(s)
    {
      var i :| 0 <= i < |requests| && requests[i] == q;
      assert Reported(s, results[i], UnitsOf(backfill, requests)[i]);
    }
  }
}
