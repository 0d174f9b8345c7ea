# CAISO warehouse, dispatch and backtest: a Dafny model

This project models the parts of a CAISO market-data repository whose correctness depends on many functions and on
interleavings, and proves what they promise.

**The warehouse protocol and its fact tables.** `Batches` and `Planner` turn observations and a one-day snapshot into
new contents and numbered state transitions. `Protocol` is the warehouse as a state machine: the begin, commit,
finalize and failure transactions, one stable begin job and one stable commit job per run ID, lost, late and failed
jobs, expiring job metadata, the server clock and dbt builds that select first and merge later, in any interleaving of any
number of clients. `Facts` holds the dbt staging filters, the
history join, the ranking and the incremental merge behind `max(commit_sequence)`. `Replay` is the independent
reference: one writer that applies the accepted batches one after another and always sees the whole tables, and the
revision trace of one key. `Safety` carries the global invariant through every event. `Progress`, `Refinement`,
`Theorems`, `Guarantees` and `Health` prove what follows from it, and `Overlap` what two overlapping dbt writers would do
to a fact. `Client` is the imperative side: a `Warehouse` object
whose methods begin, snapshot, persist, reconcile and fail over an unreliable network, with any events of anybody else
between any two of their steps (`Others`), each tied to the events it saw. `Fates` gives the exact outcome of an
undisturbed call, and `Recovery` says what a repeated call reaches after a crash, and when repeating it never helps.

**Backfills.** `Fetches` says what fetching the same data again can change. `Backfill` plans ordered units with stable run
IDs and proves confluence over sources whose data is fetched again at any time. `Transience` is the walk that
decides which failures may be retried. `Verification` is the bounded verification after a build. `Orchestration` is the
serial fail-fast loop over ingestion tasks with at most one retry, then the builds, then that verification.

**Dispatch and backtest.** `Dispatch` is the validation of a battery schedule with its tolerances, over reals and any
horizon; `Backtest` the coverage check and daily grouping across 23- and 25-hour days; `Metrics` the daily and
aggregate metrics, with the median of `Statistics`. `Decimals` is the canonical decimal text and the exact NUMERIC guard. `Base` and `Sorting` hold the
filter and the stable sort the rest is written with.

Run `dafny verify dfyconfig.toml`.

## Assumptions

- SHA-256 digests and UUIDv5 are injective: a digest is modelled by the fields it hashes, a derived run ID by its
  backfill and request. Digests that only order rows (`Externals.digestOrder`, `Externals.stateOrder`) are arbitrary.
- Pacific midnights are an arbitrary function whose consecutive differences are 23, 24 or 25 hours.
- Each SQL script is one atomic transaction; an aborted one has no effect. Manifests and facts are maps on their key,
  because begin_run never inserts a second row for a run ID and dbt merges on `unique_key = logical_key`.
- A client is the snapshots it has read and may still plan on and the job ends it has seen and may still finalize with,
  so a crash needs no event of its own: it is a client that takes no further step. `Step` is total; an event that cannot
  happen changes nothing.
- A method's `Conditions` say what surrounds a call: `online` loses no call or answer, `healthy` fails no job, `alone`
  lets nobody else act between the call's steps. Promises without a condition hold under all of them.
- One dbt writer works on a fact at a time (docs/adr/006-dbt-analytical-state.md:91): whoever starts a build or a refresh
  knows that no earlier build is going to merge. Everything else may happen between the select and the merge of a build.
- A source's data does not change during the runs that are compared; each fetch stamps it with a new retrieval time, may
  order and spell it differently (`Fetches.SameData`), and may fail.
- A job's `ended` is the server clock when it ended, and the server clock never runs backwards.
- Python floats and `math.fsum` are real numbers; the stated tolerances are kept.

## What the proofs show about limits of the code

- A begin job that fails without effect pins its run ID. A later begin attaches to the failed job and raises, although
  no manifest exists, until the job's metadata expires (`Recovery.FailedBeginPins`; `Recovery.PinnedIsReachable` is the
  two-event run that gets there). A failed update of a manifest avoids this by using a fresh job ID
  (src/power_market_data/warehouse/bigquery.py:256-257); begin does not (line 203).
- A COMMITTED run keeps the gate for ever when its commit landed but its job was reported as failed: no event of any
  client finalizes it and no batch of any run is accepted again (`Recovery.StuckIsReachable`,
  `Recovery.LostGateStaysLost`, and `Recovery.LostGateIsExact` for the exact condition). When the job ended well but
  its metadata expired first, only a client that had already seen the end can still finalize it; every reconcile and
  ingest raises (`Recovery.ExpiredJobIsStuck`).
- `Recovery.RepeatedIngestSettles` says exactly when a repeated ingest meets one of these, is refused, succeeds or fails
  for good, in terms of what can be looked up beforehand.
- While another run holds the gate, ingesting a run with nothing submitted does not wait: `persist` records that run as
  FAILED, because the refused snapshot is one of the exceptions it records (`Recovery.GateHeldFailsOthers` reaches the
  state, `Client.Warehouse.Persist` gives the outcome there).
- Two overlapping dbt builds of one fact, which the code leaves to its operators to avoid, can leave a key with an outdated
  row under a watermark that has passed it (`Overlap.OverlapDamages`). The next build repairs a late merge exactly when no
  key is left so (`Overlap.OverlappingBuilds`); otherwise no later build does until the key gets a new revision
  (`Overlap.DamageStays`).
- `Dispatch.SpreadPays`: the price condition under which accepted dispatches cannot earn more than their tolerances is
  the right one; past it a two-hour round trip is accepted and profitable.

## Model

| member | source | states |
|---|---|---|
| Decimals.TextRoundTrip | src/power_market_data/identity.py:9-16 | reading the canonical text of any finite decimal gives that number back |
| Decimals.TextIsCanonical | src/power_market_data/identity.py:9-16 | two decimals have the same text if and only if they are numerically equal, however they are written |
| Decimals.NumericIsExact | src/power_market_data/warehouse/model.py:130-136 | exactly the values k/10^9 with k below 10^38 in magnitude are accepted, and they are returned unchanged |
| Batches.DayIsUnique | src/power_market_data/warehouse/model.py:89-94 | an instant lies within the bounds of at most one Pacific day |
| Batches.HashIsNumerical | src/power_market_data/identity.py:9-23 | for one logical key, the content hash is equal exactly when all values are numerically equal |
| Batches.BatchRows | src/power_market_data/warehouse/model.py:139-178 | the early-exit loop over observations returns the specified batch, or the first problem in source order |
| Batches.BatchAccepts | src/power_market_data/warehouse/model.py:139-178 | a batch is accepted if and only if it is small, has distinct keys, and every observation has the product, day and hub asked for and exact values |
| Batches.BatchIsOk | src/power_market_data/warehouse/model.py:139-178 | an accepted batch is a permutation of its observations with unique keys, all on the requested day, product and hub |
| Batches.BatchOrderFree | src/power_market_data/warehouse/model.py:178 | the order in which the source returned the observations has no effect on the batch |
| Fetches.RowsCarryData | src/power_market_data/warehouse/model.py:139-178 | the rows of an accepted batch carry exactly the content hashes of its observations |
| Fetches.RetrievalKeepsData | src/power_market_data/sources/caiso.py:203-209 | fetching the same observations at another time changes no content hash |
| Fetches.RetrievalKeepsAcceptance | src/power_market_data/sources/caiso.py:203-209 | whether a batch is accepted does not depend on when it was retrieved |
| Planner.PlanWrite | src/power_market_data/warehouse/model.py:203-239 | the loop computes the specified contents, transitions, fingerprint, count and expected sequence |
| Planner.PlanAgrees | src/power_market_data/warehouse/model.py:203-239 | a plan depends on its snapshot only through the sequence and the keys and contents of its own rows |
| Planner.NewContentMember | src/power_market_data/warehouse/model.py:212-213 | the planned contents are exactly those of rows whose content the snapshot lacks |
| Planner.NewTransitionMember | src/power_market_data/warehouse/model.py:214-232 | the planned transitions are exactly those of rows that differ from the latest state of their key, with the next ordinal and sequence |
| Facts.Watermark | dbt/models/marts/facts/fct_hourly_lmp.sql:7-9 | the watermark bounds every sequence in the fact, is reached by one, and is 0 for an empty fact |
| Replay.SerialIsTrace | src/power_market_data/warehouse/model.py:203-239 | the transitions a lone writer stores for a key are its revision trace, numbered 1..n |
| Replay.TraceIsStutterFree | src/power_market_data/warehouse/model.py:214-232 | the trace of a key is its accepted contents in commit order with consecutive repeats removed |
| Replay.TraceIsOrdered | src/power_market_data/warehouse/model.py:214-232 | neighbouring revisions differ, and sequences increase strictly along a trace |
| Replay.SerialContentsUnique | src/power_market_data/warehouse/sql.py:51-58 | no content is stored twice, without a key constraint |
| Replay.SerialContentsAccepted | src/power_market_data/warehouse/model.py:212-213 | a content is stored if and only if some accepted batch carried it |
| Replay.ContentOrigin | src/power_market_data/warehouse/model.py:212-213 | a stored content was stored by the first batch that carried it |
| Replay.TransitionsHaveContents | dbt/models/intermediate/int_lmp_revision_history.sql:33-34 | every stored transition refers to a stored content |
| Safety.SnapshotIsExact | src/power_market_data/warehouse/sql.py:37-48 | the one-day snapshot agrees with the whole tables, and with the serial reference, on every key and content of a batch for that day |
| Safety.CommitIsSerial | src/power_market_data/warehouse/sql.py:61-84 | when the guards of a commit pass, its plan is the one a lone writer would have made |
| Safety.MergeInsertsAll | src/power_market_data/warehouse/sql.py:51-58 | the two MERGE statements of a passing commit insert every planned row |
| Safety.StepKeeps | src/power_market_data/warehouse/sql.py:61-120 | every event of every client, server or dbt build keeps the global invariant |
| Safety.InvariantHolds | src/power_market_data/warehouse/sql.py:17-120 | the invariant holds after every sequence of events from a bootstrapped warehouse |
| Progress.PlayExtends | src/power_market_data/warehouse/sql.py:61-120 | whatever happens, accepted batches stay accepted in order, SUCCEEDED and FAILED manifests never change, and a COMMITTED one can only succeed |
| Refinement.SucceededIsPrefix | src/power_market_data/warehouse/sql.py:66-83 | the SUCCEEDED batches are a prefix of the accepted ones |
| Refinement.StagedIsSerial | dbt/models/staging/stg_lmp_contents.sql:27-29 | the staged rows are exactly the serial rows of the SUCCEEDED batches under their clocks |
| Refinement.HistoryIsComplete | dbt/models/intermediate/int_lmp_revision_history.sql:33-34 | the join yields one row per eligible transition, in order, each with its own content |
| Refinement.RankSelectsWinners | dbt/models/marts/facts/fct_hourly_lmp.sql:12-20 | a row is current if and only if it is in the history and ahead of every other row of its key |
| Refinement.IncrementalIsFull | dbt/models/marts/facts/fct_hourly_lmp.sql:3-11 | merging the history above the fact's own watermark gives the ranking of all of it |
| Theorems.LastWriterEndsTrace | src/power_market_data/warehouse/model.py:203-239 | the last-writer-wins map of accepted contents holds, for each key, the end of its revision trace |
| Theorems.FactRefinesLastWriter | dbt/models/marts/facts/fct_hourly_lmp.sql:3-53 | after a build in any run, the fact is the last-writer-wins map of the SUCCEEDED batches in commit order, with the ordinal of the latest revision |
| Theorems.IncrementalEqualsFullRefresh | dbt/models/marts/facts/fct_hourly_lmp.sql:3-11 | at any build in any run, the incremental merge and a full refresh give the same state, field for field |
| Theorems.FactIsAlwaysAPrefix | dbt/models/marts/facts/fct_system_load_5min.sql:3-20 | between builds and while one is in flight each fact is the last-writer-wins map of the batches up to its own watermark, even though both products share one sequence |
| Theorems.LateMergeIsRefresh | dbt/models/marts/facts/fct_hourly_lmp.sql:3-20 | whatever happens between the select and the merge of a build, except another build of the same fact, leaves the full refresh of the moment it selected |
| Theorems.LateMergeRefinesLastWriter | dbt/models/marts/facts/fct_hourly_lmp.sql:3-53 | in every run with a build in flight, the merged fact is the last-writer-wins map of the batches that had SUCCEEDED when it selected |
| Overlap.LateMergeRepaired | dbt/models/marts/facts/fct_hourly_lmp.sql:3-11 | after a merge of old candidates the next incremental build gives the full refresh if and only if no key is left with an outdated row below the watermark |
| Overlap.OverlappingBuilds | docs/adr/006-dbt-analytical-state.md:91 | the same in every run in which one build selects, a second one selects and merges, and the first then merges |
| Overlap.DamageStays | dbt/models/marts/facts/fct_hourly_lmp.sql:7-9 | an outdated row below the watermark survives every later incremental build until its key has a row above the watermark |
| Overlap.OverlapDamages | docs/adr/006-dbt-analytical-state.md:91 | two revisions of a key and one of another, with overlapping builds, leave such a row |
| Guarantees.SequenceIsBijection | src/power_market_data/warehouse/sql.py:72-83 | commit sequences are a bijection from the COMMITTED and SUCCEEDED runs onto 1..sequence |
| Guarantees.GateHoldsNewest | src/power_market_data/warehouse/sql.py:70-72 | the gate is held exactly by the one COMMITTED run, which has the highest sequence, and every earlier run has SUCCEEDED |
| Guarantees.CommittedPlanIsExact | src/power_market_data/warehouse/sql.py:68-74 | a commit that succeeds applies the plan made from the whole tables, appends exactly its rows and logs exactly its batch |
| Guarantees.StaleNeverCommits | src/power_market_data/warehouse/sql.py:68-69 | a plan made on a passed sequence never commits in any continuation, so of the plans of one sequence at most one commits |
| Guarantees.FailedIsFinal | src/power_market_data/warehouse/sql.py:114-118 | in every continuation a FAILED run stays FAILED with zero accepted rows and owns no batch, content or transition |
| Guarantees.CommittedOnce | src/power_market_data/warehouse/bigquery.py:287-303 | a committed run is never recorded as FAILED, keeps its sequence, and its batch is applied exactly once |
| Guarantees.SucceededIsFinal | src/power_market_data/warehouse/sql.py:92-105 | a SUCCEEDED manifest is the same in every continuation |
| Guarantees.RowsAreImmutable | src/power_market_data/warehouse/sql.py:97-100 | no stored row is removed or changed, except that a NULL clock is set once |
| Guarantees.StoredTraceIsStutterFree | src/power_market_data/warehouse/sql.py:68-74 | in every run the stored transitions of a key are its accepted contents without consecutive repeats, numbered 1..n with increasing sequences |
| Guarantees.ClocksFollowTheRun | src/power_market_data/warehouse/sql.py:97-103 | first_seen_at and known_at are NULL exactly while the owning run is COMMITTED and are its knowledge time afterwards |
| Guarantees.KnowledgeFollowsAcceptance | src/power_market_data/warehouse/bigquery.py:304-317 | knowledge time is non-decreasing in commit sequence |
| Guarantees.OrdinalsFollowKnowledge | dbt/models/intermediate/int_lmp_revision_history.sql:18-34 | in the history first_seen_at is never after known_at, and known_at follows ordinals for each key |
| Guarantees.JoinLosesNothing | dbt/models/intermediate/int_load_revision_history.sql:29-30 | every transition of a SUCCEEDED run finds a content whose first run SUCCEEDED, so the join drops and duplicates nothing |
| Health.HealthGroupCounts | dbt/models/marts/mart_ingestion_health.sql:14-17 | a group's successful sums are the numbers of eligible contents and transitions its runs own |
| Health.HealthTotals | dbt/models/marts/mart_ingestion_health.sql:13-17 | the successful sums of all groups of a product add up to the numbers of its eligible contents and transitions: nothing is lost or counted twice |
| Health.IdsStayUnique | src/power_market_data/warehouse/sql.py:51-58 | content and transition IDs stay unique in every run |
| Client.SnapshotSucceeds | src/power_market_data/warehouse/bigquery.py:211-238 | a snapshot is refused exactly while the gate is held; its duplicate check never fires |
| Client.Warehouse.BeginTransaction | src/power_market_data/warehouse/sql.py:24-34 | creates the manifest at most once and aborts without effect on another request's run ID |
| Client.Warehouse.CommitTransaction | src/power_market_data/warehouse/sql.py:63-84 | step-by-step updates reach the specified committed state, or abort without effect |
| Client.Warehouse.FinalizeTransaction | src/power_market_data/warehouse/sql.py:89-107 | step-by-step updates reach the specified finalized state, or abort without effect; repeating it changes nothing |
| Client.Warehouse.FailTransaction | src/power_market_data/warehouse/sql.py:110-120 | marks only a STARTED, uncommitted run as FAILED |
| Client.Warehouse.Begin | src/power_market_data/warehouse/bigquery.py:181-209 | whatever is lost and whoever else acts, success means the manifest exists and is bound to this request; alone, nothing but this run changes; undisturbed, it succeeds exactly when the begin job, perhaps an earlier one, has not failed and the run is bound to this request |
| Client.Warehouse.SubmitBeginQuery | src/power_market_data/warehouse/bigquery.py:86-112 | a second submission under the begin job ID attaches to the first job, whatever request it names |
| Client.Warehouse.Others | src/power_market_data/warehouse/bigquery.py:86-117 | between the steps of a call any events of anybody may happen; they keep the invariant and only extend the state |
| Client.Warehouse.ReadSnapshot | src/power_market_data/warehouse/bigquery.py:211-238 | returns the day's snapshot of the current sequence, only with the gate free, and changes nothing else |
| Client.Warehouse.Fail | src/power_market_data/warehouse/bigquery.py:240-259 | a recorded failure had the effect of the guarded update |
| Client.Warehouse.Reconcile | src/power_market_data/warehouse/bigquery.py:272-325 | whoever acts meanwhile, returns a manifest only if it SUCCEEDED; alone, returns nothing only if nothing was submitted, reports a plain failure only if the run is FAILED or unknown or its commit job is reported as failed (its manifest may then still be COMMITTED), and never touches a SUCCEEDED run; undisturbed, reaches the exact fate of the run and releases the gate exactly when the job is usable |
| Client.Warehouse.Persist | src/power_market_data/warehouse/bigquery.py:327-360 | whoever acts between any two of its steps, returns only SUCCEEDED manifests; alone, acts only through its own run; undisturbed, reaches the exact fate of run and batch, and with the gate held by another run records its own as FAILED and changes nothing else |
| Client.Warehouse.SubmitQuery | src/power_market_data/warehouse/bigquery.py:349-354 | a second submission under the run's job ID attaches to the first |
| Client.Warehouse.BuildFact | dbt/models/marts/facts/fct_hourly_lmp.sql:3-20 | selects the candidates, lets anything happen except another build of this fact, and merges them in place; with nothing in between it is one build |
| Client.Warehouse.Ingest | src/power_market_data/ingestion.py:11-37 | whoever acts between its steps, also while the source is being fetched, any success is a SUCCEEDED manifest of this request; alone, replaying a SUCCEEDED run changes nothing but its begin job; undisturbed, it reaches the exact fate of the run from any interrupted state, a failed begin job included |
| Fates.FateAfterwards | src/power_market_data/warehouse/bigquery.py:287-325 | finalizing a job that ended well, or recording the failure otherwise, brings about the predicted fate |
| Recovery.PlayUnstuck | src/power_market_data/warehouse/bigquery.py:280-286 | a run none of whose jobs is lost or misreported is never stuck |
| Recovery.BeginOutcome | src/power_market_data/warehouse/bigquery.py:181-209 | begin attaches to a failed job, or gets past, exactly under conditions on the begin job and the manifest that can be looked up |
| Recovery.RepeatedIngestSettles | src/power_market_data/ingestion.py:17-37 | after any interleaving one undisturbed ingest raises at a failed begin job, is refused for another request, is stuck behind an unusable commit job, succeeds, or fails for good, each exactly under a condition a caller can look up |
| Recovery.HealthyRunsRecover | src/power_market_data/ingestion.py:17-37 | for a run ID used with one request whose begin job does not fail and whose commit job is neither lost nor misreported, a repeated ingest succeeds or fails for good |
| Recovery.FailedBeginPins | src/power_market_data/warehouse/bigquery.py:86-117 | a failed begin job makes every later ingest under its ID raise at begin, and an absent run stay absent, until the job metadata expires |
| Recovery.PinnedIsReachable | src/power_market_data/warehouse/bigquery.py:199-205 | one submitted and failed begin job reaches such a state with the gate free, no commit job and no manifest |
| Recovery.StuckIsReachable | src/power_market_data/warehouse/bigquery.py:287-303 | a commit that lands and whose job is reported as failed leaves a COMMITTED run at the gate that no reconcile or ingest gets past |
| Recovery.LostGateStaysLost | src/power_market_data/warehouse/bigquery.py:280-317 | from such a state, in every continuation, the run stays COMMITTED at the gate and no batch of any run is accepted |
| Recovery.LostGateIsExact | src/power_market_data/warehouse/bigquery.py:280-317 | in every run, the holder of the gate keeps it in every continuation if and only if its commit job is absent, pending or failed and no client has seen it end |
| Recovery.ExpiredJobIsStuck | src/power_market_data/warehouse/bigquery.py:280-286 | when the job of a COMMITTED run ends well but its metadata expires before anybody finalizes, every reconcile and ingest raises |
| Recovery.GateHeldFailsOthers | src/power_market_data/warehouse/bigquery.py:327-348 | a reachable state in which one run holds the gate and another has just begun; persist ends there by recording the other as FAILED while the first is still COMMITTED at the gate |
| Backfill.DistinctBySet | orchestration/plan.py:58-59 | comparing the sizes of list and set detects exactly the repeated hubs |
| Backfill.Expand | orchestration/plan.py:41-77 | a plan is made if and only if the request is acceptable on every day, and it lists each day's hubs in order, then load; a refusal names the first violated rule |
| Backfill.PlanIsOrdered | orchestration/plan.py:62-77 | units are valid, pairwise different, within the range and in ascending day order |
| Backfill.PlanIgnoresHubOrder | orchestration/plan.py:65-67 | the order in which hubs are given changes no unit and no run ID |
| Fetches.SameDataReads | src/power_market_data/warehouse/model.py:139-178 | two acceptable batches with the same data, whenever they were fetched and however ordered, give the same reading of every key |
| Backfill.PlayConfined | orchestration/flyte_pipeline.py:49-57 | with interruptions of any kind a backfill adds nothing but its own units' batches |
| Backfill.BackfillConfluence | orchestration/ingestion.py:85-121 | two finished backfills of unchanged data leave the same contents and numbered revisions of every key, whatever their interruptions, order, IDs, retries and times of retrieval |
| Backfill.FreshRepeatAddsNothing | orchestration/plan.py:74-76 | fetching the units again later and running them under a fresh ID changes no content and no revision of any key |
| Backfill.FreshRepeatAddsNoRow | orchestration/plan.py:74-76 | such a repeat adds no row to either table |
| Transience.ChainEnds | orchestration/ingestion.py:38-40 | once the walk repeats or runs out it has seen the whole chain of causes |
| Transience.Transient | orchestration/ingestion.py:34-72 | the walk ends on every chain, cyclic or not, and answers yes exactly when no cause is fatal and some cause is passing |
| Verification.CountProduct | orchestration/operations.py:111-148 | passes exactly when every fact in the product's range comes from a SUCCEEDED run, and counts every group |
| Verification.Verify | orchestration/operations.py:107-152 | with anything happening between its two queries, passes exactly when each product was eligible when it was asked about and no unit then had fewer facts than it accepted |
| Verification.FactRowSound | dbt/models/marts/facts/fct_hourly_lmp.sql:3-20 | at any moment every fact row comes from a SUCCEEDED run and lies on the market date of its interval |
| Verification.VerificationNeverRejects | orchestration/operations.py:111-152 | once every unit SUCCEEDED and both facts were built, verification passes, whatever happens before it runs and between its queries |
| Orchestration.PlayLocal | orchestration/ingestion.py:85-121 | ingesting one unit, with whichever fetches, touches no other run, begin or commit job or fact, and a gate free for it stays free for it |
| Orchestration.ExecuteUnit | orchestration/ingestion.py:75-121 | a result is the SUCCEEDED manifest's, with zero new counts when it was reused, which is exactly when the unit had SUCCEEDED before; with calls answered, a retry is offered if and only if some cause of the failure is passing and none fatal, the commit is not unconfirmed, and the run is absent or STARTED; undisturbed, it succeeds exactly when the fate of the unit is to |
| Orchestration.IngestDay | orchestration/flyte_pipeline.py:25-33 | with at most one retry, which fetches anew, an undisturbed unit succeeds if and only if its fate is to succeed; a retry behind a failed begin job fails again |
| Orchestration.IngestUnits | orchestration/flyte_pipeline.py:51-57 | stops at the first failure with earlier units SUCCEEDED and, if nobody else acted, later ones untouched and no fact built; undisturbed it finishes if and only if every unit up to the one it resumes at is going to succeed |
| Orchestration.ResumesWhen | orchestration/flyte_pipeline.py:51-57 | what to look up before resuming: begin still works for every unit up to the one to resume at, and that one will succeed |
| Orchestration.Analyze | orchestration/flyte_pipeline.py:60-62 | whatever others do during and between the builds and the queries, verification never rejects and counts every unit in full; alone, both facts are current |
| Orchestration.RunUnits | orchestration/flyte_pipeline.py:51-67 | a failed unit leaves a backfill that can be resumed there; undisturbed, a resumed backfill succeeds if and only if every unit up to the one it stopped at is going to succeed |
| Orchestration.RunBackfill | orchestration/flyte_pipeline.py:46-67 | refuses exactly unacceptable plans; success means every unit SUCCEEDED as reported and, with dbt, current facts; an interrupted backfill can be resumed where it stopped |
| Orchestration.ResumeEqualsUninterrupted | orchestration/flyte_pipeline.py:49-57 | interrupted attempts ending in success leave the same contents and revisions as an uninterrupted backfill, although each attempt fetched at its own time |
| Dispatch.ValidateDispatch | src/power_market_data/optimization/model.py:101-165 | accepts exactly the dispatches within all tolerances and otherwise names the first violation |
| Dispatch.EnergyConserved | src/power_market_data/optimization/model.py:124-149 | an accepted dispatch of n intervals conserves energy up to n+2 tolerances |
| Dispatch.ModesExclude | src/power_market_data/optimization/model.py:131-142 | an interval charging beyond the tolerance is in charging mode and does not discharge beyond it, and conversely |
| Dispatch.NoFreeMoney | src/power_market_data/optimization/model.py:150-165 | with equal boundary states of charge and prices whose spread does not cover the round-trip losses, the value, recomputed or as reported, is at most an explicit multiple of the tolerances |
| Dispatch.SpreadPays | src/power_market_data/optimization/model.py:101-165 | past that price condition an accepted round trip earns exactly the spread after losses |
| Backtest.GroupDays | src/power_market_data/backtesting/engine.py:74-98 | the loop over days returns the specified groups, or the first reason to refuse |
| Backtest.GroupsPermute | src/power_market_data/backtesting/engine.py:82-98 | groups and refusals are the same for every order of the inputs |
| Backtest.AcceptedInputsTile | src/power_market_data/backtesting/engine.py:82-98 | the groups concatenate to one gap-free hourly sequence over the whole range that uses every input once, across 23- and 25-hour days |
| Backtest.AcceptanceIsTiling | src/power_market_data/backtesting/engine.py:77-98 | inputs are accepted if and only if they are of the hub, have distinct keys and in some order tile the range hour by hour |
| Metrics.ActivityIsDisjoint | src/power_market_data/backtesting/engine.py:105-119 | charging and discharging intervals are disjoint and leave idle non-negative |
| Metrics.MeasureDay | src/power_market_data/backtesting/engine.py:102-120 | one pass computes energies, cycles, extreme states of charge and the numbers of active intervals |
| Metrics.DayMetricsSound | src/power_market_data/backtesting/engine.py:102-120 | of every accepted dispatch: the three interval counts add up, states of charge stay within bounds, and cycles differ from charge efficiency times charged energy over capacity by at most n+2 tolerances over twice the capacity |
| Metrics.GroupIsHorizon | src/power_market_data/optimization/battery.py:23-30 | every accepted group is a horizon the optimizer takes |
| Metrics.Solve | src/power_market_data/optimization/battery.py:20-30 | whatever the solver returns counts only if it validates |
| Metrics.BestAndWorst | src/power_market_data/backtesting/engine.py:140-141 | best and worst day are the first of largest and of smallest value |
| Metrics.Summarize | src/power_market_data/backtesting/engine.py:134-150 | totals, mean, median, best and worst day and percentages are those of all days |
| Metrics.MiddleSound | src/power_market_data/backtesting/engine.py:138-141 | the average daily value lies between those of the worst and the best day, and at most half of the days lie on either side of the median |
| Statistics.MedianSplits | src/power_market_data/backtesting/engine.py:139 | at most half of the values lie under the median and at most half over it, for odd and even numbers of values |
| Metrics.AggregateSound | src/power_market_data/backtesting/engine.py:136-150 | over days of unequal length the percentages sum to 100, each within 0 and 100, and total cycles differ from charge efficiency times total charged energy over capacity by at most the accumulated tolerances over twice the capacity |
| Metrics.BacktestDaily | src/power_market_data/backtesting/engine.py:71-151 | fails exactly when the inputs do not cover the range or some day's answer does not validate; otherwise every day is solved, validated and measured |

## Left out

- ExecuteUnit: an error may be raised from any chain of causes; which library exception a lost call raises is not modelled.
- Expand: ISO date text and UUID syntax are not parsed; dates are day numbers and hubs are the three supported ones.
- Begin: the completed-day check of `Request` is not part of the protocol, only of `Expand` and `GroupsOf`.
- CountProduct: a fact table is a map on logical_key, so the comparison of row and key counts always holds; a missing fact table is not modelled.
- RunBackfill: `k`, the unit an earlier attempt stopped at, is a specification-only argument; environment validation and the printed report are not modelled.
- ValidateDispatch: non-finite numbers do not occur, because floats are reals.
- SolveDays: the day's minimum and maximum price are numbers here; their text is `Decimals` and is not repeated.
- BuildFact: each statement of a dbt model run is one step, a full refresh is a single one; schema changes are not modelled.
- BigQuery authentication, clients, job metrics and byte caps, the bootstrap schema checks and the control-row guard: external calls.
- started_at, completed_at, error class and message, and the other descriptive columns: carried nowhere in the protocol.
- Solving with CVXPY and HiGHS: a solver is an arbitrary function.
- gridstatus fetching and normalization, time-zone tables: a source is an arbitrary function of the request.
- The Flyte engine, the CLI, figures and subprocess handling: plumbing.
- The in-memory planner of orchestration_checks/fixtures.py: `Replay.Serial` plays that part.
