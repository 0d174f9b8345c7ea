// How an undisturbed call turns out (warehouse/bigquery.py and ingestion.py): the exact outcome of
// reconcile, persist and ingest from any state that crashes and lost answers may have left behind.
module Fates {
  import opened Base
  import opened Batches
  import opened Facts
  import opened Protocol
  import opened Safety
  import opened Guarantees

  /** The exceptions a caller can tell apart; JobError is a job that the server itself reports as failed. */
  datatype Error = WarehouseError | CommitUnconfirmed | TransportError | JobError

  datatype Fate = Succeeds | Fails | Stuck | Refused | Open | Pinned

  // ---------- begin ----------

  /** The begin job of this run ID has failed, and every submission attaches to it. */
  predicate BeginPinned(s: State, run: RunId) {
    run in s.begins && s.begins[run].BeginErrored?
  }

  /** What a healthy server makes of one more begin. */
  function BeginSettled(s: State, run: RunId, request: Request): State {
    ExecuteBegin(SubmitBegin(s, run, request), run)
  }

  // ---------- reconcile, persist, ingest ----------

  /** A job that landed, or ended well, can still finalize its run. */
  predicate Usable(s: State, run: RunId) {
    run in s.jobs && (s.jobs[run].Landed? || s.jobs[run].Done?)
  }

  function ReconcileFate(s: State, run: RunId): Fate {
    if run !in s.runs then Refused
    else
      match s.runs[run].status
      case Succeeded => Succeeds
      case Failed => Fails
      case Committed => if Usable(s, run) then Succeeds else Stuck
      case Started =>
        if run !in s.jobs then Open
        else if s.jobs[run].Pending? && CommitBatch(s, run, s.jobs[run].submission).Some? then Succeeds
        else Fails
  }

  function PersistFate(x: Externals, s: State, run: RunId, request: Request, records: seq<Observation>): Fate {
    if run !in s.runs || s.runs[run].request != request then Refused
    else if ReconcileFate(s, run) != Open then ReconcileFate(s, run)
    else if BatchOf(x, request, records).Err? || s.active.Some? then Fails
    else Succeeds
  }

  /** The fate of an ingest that got past begin. */
  function BegunFate(x: Externals, s: State, run: RunId, request: Request, source: Result<seq<Observation>, ()>): Fate {
    if ReconcileFate(s, run) != Open then ReconcileFate(s, run)
    else if source.Err? then Fails
    else PersistFate(x, s, run, request, source.value)
  }

  /** The exact outcome of an undisturbed ingest. */
  function IngestFate(x: Externals, s: State, run: RunId, request: Request,
                      source: Result<seq<Observation>, ()>): Fate
  {
    var begun := BeginSettled(s, run, request);
    if BeginPinned(begun, run) then Pinned
    else if run !in begun.runs || begun.runs[run].request != request then Refused
    else BegunFate(x, begun, run, request, source)
  }

  /** What each fate means for the answer and the state afterwards. */
  ghost predicate Met(fate: Fate, s: State, s': State, run: RunId, r: Result<Option<Run>, Error>) {
    match fate
    case Succeeds =>
      && run in s'.runs && s'.runs[run].status == Succeeded
      && r == Ok(Some(s'.runs[run])) && s'.active != Some(run)
    case Fails => run in s'.runs && s'.runs[run].status == Failed && r.Err?
    case Stuck => run in s'.runs && s'.runs[run].status == Committed && s'.active == Some(run) && r.Err?
    case Refused => s' == s && r.Err?
    case Open => s' == s && r == Ok(None)
    case Pinned => s' == s && BeginPinned(s', run) && r.Err?
  }

  // ---------- watching the commit job to its end ----------

  /** What a healthy server makes of a job: it executes, and if it lands it ends at `clock`. */
  function Settled(s: State, run: RunId, clock: nat): State {
    var executed := ExecuteJob(s, run).(clock := clock);
    if run in executed.jobs && executed.jobs[run].Landed? then EndJob(executed, run, true) else executed
  }

  lemma FateWhenCommitted(x: Externals, s: State, run: RunId, clock: nat)
    requires Inv(x, s) && run in s.jobs && run in s.runs && s.runs[run].status == Committed
    ensures FateShown(s, Settled(s, run, clock), run)
  {
    assert RunOk(s.log, run, s.runs[run]) && JobOk(x, s, run, s.jobs[run]);
    UnfinalizedIsNewest(x, s, run);
  }

  lemma FateWhenStarted(x: Externals, s: State, run: RunId, clock: nat)
    requires Inv(x, s) && run in s.jobs && run in s.runs && s.runs[run].status == Started
    ensures FateShown(s, Settled(s, run, clock), run)
  {
    assert RunOk(s.log, run, s.runs[run]) && JobOk(x, s, run, s.jobs[run]);
    assert s.jobs[run].Done? ==> EndOk(s.active, s.runs, s.log, s.clock, run, s.jobs[run].ended);
    if s.jobs[run].Pending? && CommitBatch(s, run, s.jobs[run].submission).Some? {
      FateOfLanding(s, run, clock, s.jobs[run].submission);
    } else {
      FateOfRefusal(s, run, clock);
    }
  }

  lemma FateOfLanding(s: State, run: RunId, clock: nat, sub: Submission)
    requires run in s.jobs && s.jobs[run] == Pending(sub) && CommitBatch(s, run, sub).Some?
    ensures FateShown(s, Settled(s, run, clock), run)
  {
  }

  lemma FateOfRefusal(s: State, run: RunId, clock: nat)
    requires run in s.runs && s.runs[run].status == Started && !s.runs[run].commitCompleted && run in s.jobs
    requires s.jobs[run].Errored? || (s.jobs[run].Pending? && CommitBatch(s, run, s.jobs[run].submission).None?)
    ensures FateShown(s, Settled(s, run, clock), run)
  {
  }

  /** The fate is met by finalizing a job that ended well, and by recording a failure otherwise. */
  ghost predicate FateShown(s: State, after: State, run: RunId) {
    && run in after.jobs && run in after.runs
    && (after.jobs[run].Done? ==>
          var end := FinalizeRun(after, run, after.jobs[run].ended);
          && end.Some? && run in end.value.runs
          && Met(ReconcileFate(s, run), s, end.value, run, Ok(Some(end.value.runs[run]))))
    && (!after.jobs[run].Done? ==> Met(ReconcileFate(s, run), s, FailRun(after, run), run, Err(WarehouseError)))
  }

  /** What watching a job to its end leaves to do: record a failure, or finalize. */
  lemma FateAfterwards(x: Externals, s: State, run: RunId, clock: nat)
    requires Inv(x, s) && run in s.jobs && run in s.runs
             && (s.runs[run].status == Started || s.runs[run].status == Committed)
    ensures FateShown(s, Settled(s, run, clock), run)
  {
    if s.runs[run].status == Committed {
      FateWhenCommitted(x, s, run, clock);
    } else {
      FateWhenStarted(x, s, run, clock);
    }
  }

  /** A plan submitted on the current sequence while the gate is free is going to commit. */
  lemma FateOfSubmitted(s: State, run: RunId, sub: Submission)
    requires ReconcileFate(s, run) == Open && s.active.None? && sub.plan.expected == s.sequence
    ensures ReconcileFate(SubmitJob(s, run, sub), run) == Succeeds
  {
  }

  /** Progress: a reconcile that meets the fate of the run holding the gate releases it exactly when the
      run's job landed or ended well and its metadata is still there. */
  lemma GateReleasedExactly(x: Externals, s: State, s': State, run: RunId, r: Result<Option<Run>, Error>)
    requires Inv(x, s) && Inv(x, s') && s.active == Some(run)
    requires Met(ReconcileFate(s, run), s, s', run, r)
    ensures s'.active != Some(run) <==> Usable(s, run)
    ensures r.Ok? <==> Usable(s, run)
  {
    assert RunOk(s.log, run, s.runs[run]);
  }
}
