// Backfill planning (orchestration/plan.py) and confluence: whatever the interruptions, the order, the
// run IDs or the times of retrieval, the same units of a source whose data does not change leave the same
// history.
module Backfill {
  import opened Base
  import opened Sorting
  import opened Batches
  import opened Planner
  import opened Fetches
  import opened Protocol
  import opened Replay
  import opened Safety
  import opened Progress
  import opened Refinement
  import opened Guarantees
  import opened Client

  const MAX_DAYS := 7

  /** A validated-date view of the Backfill dataclass. */
  datatype Spec = Spec(backfill: nat, start: int, end: int, lmp: bool, load: bool, locations: seq<Hub>,
                       concurrency: int)

  datatype Unit = Unit(request: Request, run: RunId)

  function HubRank(hub: Hub): real {
    match hub case NP15 => 0.0 case SP15 => 1.0 case ZP26 => 2.0
  }

  function SortedHubs(spec: Spec): seq<Hub> {
    SortBy(HubRank, spec.locations)
  }

  ghost predicate DistinctHubs(hubs: seq<Hub>) {
    forall i, j | 0 <= i < j < |hubs| :: hubs[i] != hubs[j]
  }

  /** Selected hubs in sorted order, then load. */
  function DayRequests(spec: Spec, day: int): seq<Request> {
    var hubs := SortedHubs(spec);
    (if spec.lmp then seq(|hubs|, i requires 0 <= i < |hubs| => Request(Lmp, day, Some(hubs[i]))) else [])
    + (if spec.load then [Request(Load, day, None)] else [])
  }

  /** The requests of the first n days. */
  function PlanRequests(spec: Spec, n: nat): seq<Request> {
    if n == 0 then [] else PlanRequests(spec, n - 1) + DayRequests(spec, spec.start + n - 1)
  }

  function UnitOf(backfill: nat, request: Request): Unit {
    Unit(request, Derived(backfill, request))
  }

  function UnitsOf(backfill: nat, requests: seq<Request>): (r: seq<Unit>)
    ensures |r| == |requests|
  {
    seq(|requests|, i requires 0 <= i < |requests| => UnitOf(backfill, requests[i]))
  }

  /** A completed day, and for load one of at most 24 hours. */
  predicate DayOk(x: Externals, today: int, spec: Spec, day: int) {
    day < today && (spec.load ==> x.DayLength(day) <= 24 * HOUR)
  }

  predicate DaysOk(x: Externals, today: int, spec: Spec, n: nat) {
    forall day | spec.start <= day < spec.start + n :: DayOk(x, today, spec, day)
  }

  ghost predicate Acceptable(x: Externals, today: int, spec: Spec) {
    && spec.start <= spec.end < spec.start + MAX_DAYS
    && spec.concurrency == 1
    && (spec.lmp || spec.load)
    && DistinctHubs(spec.locations)
    && (spec.lmp ==> spec.locations != [])
    && DaysOk(x, today, spec, spec.end - spec.start + 1)
  }

  datatype PlanError = BadRange | BadConcurrency | NoProduct | DuplicateHub | NoHub | IncompleteDay | FallBackLoad

  function HubSet(hubs: seq<Hub>): set<Hub> {
    set i | 0 <= i < |hubs| :: hubs[i]
  }

  lemma HubSetGrows(hubs: seq<Hub>)
    requires hubs != []
    ensures HubSet(hubs) == HubSet(hubs[..|hubs| - 1]) + {hubs[|hubs| - 1]}
  {
    var front := hubs[..|hubs| - 1];
    forall h | h in HubSet(front)
      ensures h in HubSet(hubs)
    {
      var i :| 0 <= i < |front| && front[i] == h;
      assert hubs[i] == h;
    }
  }

  lemma DistinctGrows(hubs: seq<Hub>)
    requires hubs != []
    ensures DistinctHubs(hubs) <==> DistinctHubs(hubs[..|hubs| - 1]) && hubs[|hubs| - 1] !in HubSet(hubs[..|hubs| - 1])
  {
    var front, last := hubs[..|hubs| - 1], hubs[|hubs| - 1];
    assert forall i | 0 <= i < |front| :: front[i] == hubs[i];
    if last in HubSet(front) {
      var i :| 0 <= i < |front| && front[i] == last;
      assert hubs[i] == hubs[|front|];
    } else {
      assert forall i | 0 <= i < |front| :: front[i] in HubSet(front);
    }
  }

  /** The set of the hubs is as large as their list exactly when no hub repeats. */
  lemma {:induction false} DistinctBySet(hubs: seq<Hub>)
    ensures |HubSet(hubs)| <= |hubs|
    ensures |HubSet(hubs)| == |hubs| <==> DistinctHubs(hubs)
  {
    if hubs != [] {
      DistinctBySet(hubs[..|hubs| - 1]);
      HubSetGrows(hubs);
      DistinctGrows(hubs);
    }
  }

  /** One day's units after those of the days before. */
  method AppendUnits(before: seq<Unit>, backfill: nat, ghost earlier: seq<Request>, requests: seq<Request>)
    returns (units: seq<Unit>)
    requires before == UnitsOf(backfill, earlier)
    ensures units == UnitsOf(backfill, earlier + requests)
  {
    units := before;
    for i := 0 to |requests|
      invariant units == UnitsOf(backfill, earlier + requests[..i])
    {
      units := units + [UnitOf(backfill, requests[i])];
    }
    assert requests[..|requests|] == requests;
  }

  /** What each refusal says about the request; the first violated rule is the one reported. */
  ghost predicate Refuses(x: Externals, today: int, spec: Spec, error: PlanError) {
    var ranged := spec.start <= spec.end < spec.start + MAX_DAYS;
    var single := ranged && spec.concurrency == 1;
    var selected := single && (spec.lmp || spec.load);
    var hubs := selected && DistinctHubs(spec.locations) && (spec.lmp ==> spec.locations != []);
    match error
    case BadRange => !ranged
    case BadConcurrency => ranged && spec.concurrency != 1
    case NoProduct => single && !spec.lmp && !spec.load
    case DuplicateHub => selected && !DistinctHubs(spec.locations)
    case NoHub => selected && DistinctHubs(spec.locations) && spec.lmp && spec.locations == []
    case IncompleteDay =>
      && hubs
      && exists n: nat :: spec.start + n <= spec.end && DaysOk(x, today, spec, n) && spec.start + n >= today
    case FallBackLoad =>
      && hubs && spec.load
      && exists n: nat :: spec.start + n <= spec.end && DaysOk(x, today, spec, n)
                          && spec.start + n < today && x.DayLength(spec.start + n) > 24 * HOUR
  }

  /** expand: validate the whole plan, then list its units day by day. */
  method Expand(x: Externals, today: int, spec: Spec) returns (r: Result<seq<Unit>, PlanError>)
    ensures r.Ok? <==> Acceptable(x, today, spec)
    ensures r.Ok? ==> r.value == UnitsOf(spec.backfill, PlanRequests(spec, spec.end - spec.start + 1))
    ensures r.Err? ==> Refuses(x, today, spec, r.error)
  {
    if spec.start > spec.end || spec.end - spec.start >= MAX_DAYS {
      return Err(BadRange);
    }
    if spec.concurrency != 1 {
      return Err(BadConcurrency);
    }
    if !spec.lmp && !spec.load {
      return Err(NoProduct);
    }
    DistinctBySet(spec.locations);
    if |HubSet(spec.locations)| != |spec.locations| {
      return Err(DuplicateHub);
    }
    if spec.lmp && spec.locations == [] {
      return Err(NoHub);
    }
    var units: seq<Unit> := [];
    var days := spec.end - spec.start + 1;
    var offset := 0;
    while offset < days
      invariant 0 <= offset <= days
      invariant DaysOk(x, today, spec, offset)
      invariant units == UnitsOf(spec.backfill, PlanRequests(spec, offset))
    {
      var day := spec.start + offset;
      var requests := DayRequests(spec, day);
      assert DayOk(x, today, spec, day) <==> day < today && (spec.load ==> x.DayLength(day) <= 24 * HOUR);
      if day >= today {
        return Err(IncompleteDay);
      }
      if spec.load && x.DayLength(day) > 24 * HOUR {
        return Err(FallBackLoad);
      }
      units := AppendUnits(units, spec.backfill, PlanRequests(spec, offset), requests);
      offset := offset + 1;
    }
    r := Ok(units);
  }

  // ---------- what a plan guarantees ----------

  lemma SortedHubsDistinct(spec: Spec)
    requires DistinctHubs(spec.locations)
    ensures DistinctHubs(SortedHubs(spec)) && |SortedHubs(spec)| == |spec.locations|
  {
    SortByCorrect(HubRank, spec.locations);
    MultisetDistinct(HubRank, spec.locations, SortedHubs(spec));
    SameLength(spec.locations, SortedHubs(spec));
    var hubs := SortedHubs(spec);
    forall i, j | 0 <= i < j < |hubs|
      ensures hubs[i] != hubs[j]
    {
      assert HubRank(hubs[i]) < HubRank(hubs[j]);
    }
  }

  ghost predicate DistinctRequests(requests: seq<Request>) {
    forall i, j | 0 <= i < j < |requests| :: requests[i] != requests[j]
  }

  lemma DayRequestsOk(spec: Spec, day: int)
    requires DistinctHubs(spec.locations)
    ensures DistinctRequests(DayRequests(spec, day))
    ensures forall q | q in DayRequests(spec, day) :: ValidRequest(q) && q.day == day
  {
    SortedHubsDistinct(spec);
  }

  /** Valid, pairwise different requests in ascending day order, all in [from, until). */
  ghost predicate InOrder(requests: seq<Request>, from: int, until: int) {
    && DistinctRequests(requests)
    && (forall i | 0 <= i < |requests| :: ValidRequest(requests[i]) && from <= requests[i].day < until)
    && (forall i, j | 0 <= i < j < |requests| :: requests[i].day <= requests[j].day)
  }

  lemma InOrderConcat(a: seq<Request>, b: seq<Request>, from: int, day: int)
    requires InOrder(a, from, day) && InOrder(b, day, day + 1) && from <= day
    ensures InOrder(a + b, from, day + 1)
  {
    var all: seq<Request> := a + b;
    forall i, j | 0 <= i < j < |all|
      ensures all[i] != all[j] && all[i].day <= all[j].day
    {
      if i < |a| <= j {
        assert a[i].day < day && b[j - |a|].day >= day;
      }
    }
  }

  lemma DayInOrder(spec: Spec, day: int)
    requires DistinctHubs(spec.locations)
    ensures InOrder(DayRequests(spec, day), day, day + 1)
  {
    DayRequestsOk(spec, day);
    var requests := DayRequests(spec, day);
    forall i | 0 <= i < |requests|
      ensures ValidRequest(requests[i]) && requests[i].day == day
    {
      assert requests[i] in requests;
    }
  }

  lemma PlanGrowsInOrder(spec: Spec, n: nat)
    requires DistinctHubs(spec.locations) && InOrder(PlanRequests(spec, n), spec.start, spec.start + n)
    ensures InOrder(PlanRequests(spec, n + 1), spec.start, spec.start + n + 1)
  {
    DayInOrder(spec, spec.start + n);
    InOrderConcat(PlanRequests(spec, n), DayRequests(spec, spec.start + n), spec.start, spec.start + n);
  }

  /** The units of a plan are valid, pairwise different, in ascending day order. */
  lemma {:induction false} PlanIsOrdered(spec: Spec, n: nat)
    requires DistinctHubs(spec.locations)
    ensures InOrder(PlanRequests(spec, n), spec.start, spec.start + n)
  {
    if n > 0 {
      PlanIsOrdered(spec, n - 1);
      PlanGrowsInOrder(spec, n - 1);
    }
  }

  /** The order in which the hubs were named changes no unit and no run ID. */
  lemma PlanIgnoresHubOrder(spec: Spec, locations: seq<Hub>, n: nat)
    requires multiset(spec.locations) == multiset(locations) && DistinctHubs(spec.locations)
    ensures PlanRequests(spec.(locations := locations), n) == PlanRequests(spec, n)
    decreases n
  {
    if n > 0 {
      PlanIgnoresHubOrder(spec, locations, n - 1);
      assert DistinctKeys(HubRank, spec.locations);
      SortByOrderFree(HubRank, spec.locations, locations);
      assert SortedHubs(spec.(locations := locations)) == SortedHubs(spec);
    }
  }

  // ---------- a backfill as a set of events ----------

  /** Only units of the plan are ever submitted, always with the data the source has for their request,
      however often and whenever it was fetched. Everything else may happen: crashes, lost answers, failed
      jobs, other manifests, builds, time. */
  predicate Confined(e: Event, backfill: nat, units: seq<Request>, source: Request -> seq<Observation>) {
    e.Submit? ==>
      e.request in units && e.run == Derived(backfill, e.request) && SameData(e.records, source(e.request))
  }

  ghost predicate UnitBatch(x: Externals, backfill: nat, units: seq<Request>, source: Request -> seq<Observation>,
                            batch: Batch)
  {
    && batch.request in units
    && batch.run == Derived(backfill, batch.request)
    && exists records ::
         SameData(records, source(batch.request)) && BatchOf(x, batch.request, records) == Ok(batch.rows)
  }

  lemma UnitsReadTheSame(x: Externals, ba: nat, a: Batch, bb: nat, b: Batch, units: seq<Request>,
                         source: Request -> seq<Observation>, key: Key)
    requires UnitBatch(x, ba, units, source, a) && UnitBatch(x, bb, units, source, b) && a.request == b.request
    requires RowsOk(x, a.request, a.rows) && RowsOk(x, b.request, b.rows)
    ensures RowFor(a.rows, key).Some? <==> RowFor(b.rows, key).Some?
    ensures RowFor(a.rows, key).Some? ==> RowFor(a.rows, key).value.hash == RowFor(b.rows, key).value.hash
  {
    var mine :| SameData(mine, source(a.request)) && BatchOf(x, a.request, mine) == Ok(a.rows);
    var theirs :| SameData(theirs, source(b.request)) && BatchOf(x, b.request, theirs) == Ok(b.rows);
    SameDataReads(x, a.request, mine, theirs, key);
  }

  /** Nothing of another writer is waiting to commit. */
  ghost predicate Quiet(s: State) {
    forall run | run in s.jobs :: !s.jobs[run].Pending?
  }

  ghost predicate OnlyUnits(x: Externals, s0: State, s: State, backfill: nat, units: seq<Request>,
                            source: Request -> seq<Observation>)
  {
    && s0.log <= s.log
    && (forall i | |s0.log| <= i < |s.log| :: UnitBatch(x, backfill, units, source, s.log[i]))
    && (forall run | run in s.jobs && s.jobs[run].Pending? ::
          UnitBatch(x, backfill, units, source,
                    Batch(run, s.jobs[run].submission.request, s.jobs[run].submission.rows)))
  }

  lemma SubmitConfined(x: Externals, s0: State, s: State, e: Event, backfill: nat, units: seq<Request>,
                       source: Request -> seq<Observation>)
    requires OnlyUnits(x, s0, s, backfill, units, source) && Confined(e, backfill, units, source) && e.Submit?
    ensures OnlyUnits(x, s0, SubmitOnce(x, s, e.run, e.request, e.records, e.snap), backfill, units, source)
  {
  }

  lemma ExecuteConfined(x: Externals, s0: State, s: State, run: RunId, backfill: nat, units: seq<Request>,
                        source: Request -> seq<Observation>)
    requires OnlyUnits(x, s0, s, backfill, units, source)
    ensures OnlyUnits(x, s0, ExecuteJob(s, run), backfill, units, source)
  {
  }

  lemma QuietConfined(x: Externals, s0: State, s: State, s': State, backfill: nat, units: seq<Request>,
                      source: Request -> seq<Observation>)
    requires OnlyUnits(x, s0, s, backfill, units, source) && s'.log == s.log
    requires forall run | run in s'.jobs && s'.jobs[run].Pending? :: run in s.jobs && s.jobs[run] == s'.jobs[run]
    ensures OnlyUnits(x, s0, s', backfill, units, source)
  {
  }

  lemma OtherwiseQuiet(x: Externals, s: State, e: Event)
    requires !e.Submit? && !e.Execute?
    ensures Step(x, s, e).log == s.log
    ensures forall run | run in Step(x, s, e).jobs && Step(x, s, e).jobs[run].Pending? ::
              run in s.jobs && s.jobs[run] == Step(x, s, e).jobs[run]
  {
    if e.Finalize? {
      FinalizeQuiet(s, e.run, e.at);
    } else if IsDbt(e) {
      DbtIsLocal(x, s, e);
    } else {
      JobsQuiet(x, s, e);
    }
  }

  lemma JobsQuiet(x: Externals, s: State, e: Event)
    requires !e.Submit? && !e.Execute? && !e.Finalize? && !IsDbt(e)
    ensures Step(x, s, e).log == s.log
    ensures forall run | run in Step(x, s, e).jobs && Step(x, s, e).jobs[run].Pending? ::
              run in s.jobs && s.jobs[run] == Step(x, s, e).jobs[run]
  {
    if e.Abort? || e.End? || e.Forget? {
      EndedQuiet(x, s, e);
    } else {
      RestQuiet(x, s, e);
    }
  }

  lemma EndedQuiet(x: Externals, s: State, e: Event)
    requires e.Abort? || e.End? || e.Forget?
    ensures Step(x, s, e).log == s.log
    ensures forall run | run in Step(x, s, e).jobs && Step(x, s, e).jobs[run].Pending? ::
              run in s.jobs && s.jobs[run] == Step(x, s, e).jobs[run]
  {
    match e
    case Abort(_) =>
    case End(_, _) =>
    case Forget(_) =>
  }

  lemma RestQuiet(x: Externals, s: State, e: Event)
    requires e.Begin? || e.BeginRuns? || e.BeginFails? || e.BeginExpires? || e.Read? || e.MarkFailed? || e.Tick?
    ensures Step(x, s, e).log == s.log && Step(x, s, e).jobs == s.jobs
  {
  }

  lemma FinalizeQuiet(s: State, run: RunId, at: nat)
    ensures FinalizeJob(s, run, at).log == s.log && FinalizeJob(s, run, at).jobs == s.jobs
  {
  }

  lemma StepConfined(x: Externals, s0: State, s: State, e: Event, backfill: nat, units: seq<Request>,
                     source: Request -> seq<Observation>)
    requires OnlyUnits(x, s0, s, backfill, units, source) && Confined(e, backfill, units, source)
    ensures OnlyUnits(x, s0, Step(x, s, e), backfill, units, source)
  {
    if e.Submit? {
      SubmitConfined(x, s0, s, e, backfill, units, source);
    } else if e.Execute? {
      ExecuteConfined(x, s0, s, e.run, backfill, units, source);
    } else {
      OtherwiseQuiet(x, s, e);
      QuietConfined(x, s0, s, Step(x, s, e), backfill, units, source);
    }
  }

  /** A backfill adds nothing but its own units' batches. */
  lemma {:induction false} PlayConfined(x: Externals, s0: State, events: seq<Event>, backfill: nat,
                                        units: seq<Request>, source: Request -> seq<Observation>)
    requires Quiet(s0) && forall e | e in events :: Confined(e, backfill, units, source)
    ensures OnlyUnits(x, s0, Play(x, s0, events), backfill, units, source)
  {
    if events != [] {
      var front, last := events[..|events| - 1], events[|events| - 1];
      PlayConfined(x, s0, front, backfill, units, source);
      StepConfined(x, s0, Play(x, s0, front), last, backfill, units, source);
    }
  }

  // ---------- units have disjoint keys ----------

  lemma KeyNamesRequest(x: Externals, a: Batch, b: Batch, key: Key)
    requires x.Valid() && RowsOk(x, a.request, a.rows) && RowsOk(x, b.request, b.rows)
    requires RowFor(a.rows, key).Some? && RowFor(b.rows, key).Some?
    ensures a.request == b.request
  {
    assert RowOk(x, a.request, RowFor(a.rows, key).value) && RowOk(x, b.request, RowFor(b.rows, key).value);
    DayIsUnique(x, key.start, a.request.day, b.request.day);
  }

  lemma {:induction false} ReadingsConcat(a: seq<Batch>, b: seq<Batch>, key: Key)
    ensures Readings(a + b, key) == Readings(a, key) + Readings(b, key)
  {
    if b == [] {
      assert a + b == a;
    } else {
      assert (a + b)[..|a + b| - 1] == a + b[..|b| - 1];
      ReadingsConcat(a, b[..|b| - 1], key);
    }
  }

  lemma {:induction false} NoReadings(log: seq<Batch>, key: Key)
    requires forall i | 0 <= i < |log| :: RowFor(log[i].rows, key).None?
    ensures Readings(log, key) == []
  {
    if log != [] {
      NoReadings(log[..|log| - 1], key);
    }
  }

  lemma NoOtherReading(x: Externals, log: seq<Batch>, key: Key, i: nat, j: nat)
    requires x.Valid() && LogOk(x, log) && i < |log| && j < |log| && RowFor(log[i].rows, key).Some?
    requires log[i].request != log[j].request
    ensures RowFor(log[j].rows, key).None?
  {
    assert RowsOk(x, log[i].request, log[i].rows) && RowsOk(x, log[j].request, log[j].rows);
    if RowFor(log[j].rows, key).Some? {
      KeyNamesRequest(x, log[i], log[j], key);
    }
  }

  lemma ReadingsSplit(log: seq<Batch>, key: Key, i: nat)
    requires i < |log| && RowFor(log[i].rows, key).Some?
    ensures Readings(log, key) == Readings(log[..i], key) + [RowFor(log[i].rows, key).value.hash]
            + Readings(log[i + 1..], key)
  {
    assert log == log[..i] + [log[i]] + log[i + 1..];
    ReadingsConcat(log[..i] + [log[i]], log[i + 1..], key);
    assert (log[..i] + [log[i]])[..i] == log[..i];
  }

  /** Batches of different requests: at most one of them speaks about a key. */
  lemma OneReading(x: Externals, log: seq<Batch>, key: Key, i: nat)
    requires x.Valid() && LogOk(x, log) && i < |log| && RowFor(log[i].rows, key).Some?
    requires forall a, b | 0 <= a < b < |log| :: log[a].request != log[b].request
    ensures Readings(log, key) == [RowFor(log[i].rows, key).value.hash]
  {
    forall j | 0 <= j < |log| && j != i
      ensures RowFor(log[j].rows, key).None?
    {
      NoOtherReading(x, log, key, i, j);
    }
    ReadingsSplit(log, key, i);
    NoReadings(log[..i], key);
    NoReadings(log[i + 1..], key);
  }

  // ---------- confluence ----------

  /** The batches a finished backfill added: one per unit, in some order. */
  ghost predicate Complete(x: Externals, tail: seq<Batch>, backfill: nat, units: seq<Request>,
                           source: Request -> seq<Observation>)
  {
    && LogOk(x, tail)
    && (forall i | 0 <= i < |tail| :: UnitBatch(x, backfill, units, source, tail[i]))
    && (forall q | q in units :: exists i :: 0 <= i < |tail| && tail[i].request == q)
  }

  lemma CompleteDistinct(x: Externals, tail: seq<Batch>, backfill: nat, units: seq<Request>,
                         source: Request -> seq<Observation>)
    requires Complete(x, tail, backfill, units, source)
    ensures forall a, b | 0 <= a < b < |tail| :: tail[a].request != tail[b].request
  {
    forall a, b | 0 <= a < b < |tail|
      ensures tail[a].request != tail[b].request
    {
      assert UnitBatch(x, backfill, units, source, tail[a]) && UnitBatch(x, backfill, units, source, tail[b]);
      assert tail[a].run != tail[b].run;
    }
  }

  /** Two complete backfills of the same units read the same for every key. */
  lemma SameReadings(x: Externals, a: seq<Batch>, ba: nat, b: seq<Batch>, bb: nat, units: seq<Request>,
                     source: Request -> seq<Observation>, key: Key)
    requires x.Valid() && Complete(x, a, ba, units, source) && Complete(x, b, bb, units, source)
    ensures Readings(a, key) == Readings(b, key)
    ensures |Readings(a, key)| <= 1
  {
    CompleteDistinct(x, a, ba, units, source);
    CompleteDistinct(x, b, bb, units, source);
    if i :| 0 <= i < |a| && RowFor(a[i].rows, key).Some? {
      assert UnitBatch(x, ba, units, source, a[i]);
      var j :| 0 <= j < |b| && b[j].request == a[i].request;
      assert UnitBatch(x, bb, units, source, b[j]);
      UnitsReadTheSame(x, ba, a[i], bb, b[j], units, source, key);
      OneReading(x, a, key, i);
      OneReading(x, b, key, j);
    } else {
      NoReadings(a, key);
      forall j | 0 <= j < |b|
        ensures RowFor(b[j].rows, key).None?
      {
        assert UnitBatch(x, bb, units, source, b[j]);
        var i :| 0 <= i < |a| && a[i].request == b[j].request;
        assert UnitBatch(x, ba, units, source, a[i]);
        UnitsReadTheSame(x, ba, a[i], bb, b[j], units, source, key);
      }
      NoReadings(b, key);
    }
  }

  /** Every unit of the plan has committed under this backfill's run IDs. */
  ghost predicate AllCommitted(s: State, backfill: nat, units: seq<Request>) {
    forall q | q in units :: Derived(backfill, q) in CommittedRuns(s)
  }

  lemma NotYetLogged(x: Externals, s: State, run: RunId)
    requires Inv(x, s) && run !in CommittedRuns(s)
    ensures forall i | 0 <= i < |s.log| :: s.log[i].run != run
  {
    forall i | 0 <= i < |s.log|
      ensures s.log[i].run != run
    {
      LoggedIsCommitted(x, s, i);
    }
  }

  lemma PastPrefix(log: seq<Batch>, more: seq<Batch>, i: nat)
    requires log <= more && i < |more| && more[i] !in log
    ensures i >= |log| && more[|log|..][i - |log|] == more[i]
  {
    assert forall j | 0 <= j < |log| :: more[j] == log[j] && log[j] in log;
  }

  lemma TailBatch(x: Externals, s0: State, s: State, backfill: nat, units: seq<Request>,
                  source: Request -> seq<Observation>, i: nat)
    requires OnlyUnits(x, s0, s, backfill, units, source) && |s0.log| <= i < |s.log|
    ensures UnitBatch(x, backfill, units, source, s.log[i])
  {
  }

  lemma RunNamesRequest(x: Externals, batch: Batch, backfill: nat, units: seq<Request>,
                        source: Request -> seq<Observation>, q: Request)
    requires UnitBatch(x, backfill, units, source, batch) && batch.run == Derived(backfill, q)
    ensures batch.request == q
  {
  }

  lemma UnitInTail(x: Externals, s0: State, s: State, backfill: nat, units: seq<Request>,
                   source: Request -> seq<Observation>, q: Request, n: nat)
    returns (i: nat)
    requires s0.log <= s.log && OnlyUnits(x, s0, s, backfill, units, source)
    requires n < |s.log| && s.log[n].run == Derived(backfill, q)
    requires forall j | 0 <= j < |s0.log| :: s0.log[j].run != Derived(backfill, q)
    ensures i < |s.log[|s0.log|..]| && s.log[|s0.log|..][i].request == q
  {
    PastPrefix(s0.log, s.log, n);
    TailBatch(x, s0, s, backfill, units, source, n);
    RunNamesRequest(x, s.log[n], backfill, units, source, q);
    i := n - |s0.log|;
  }

  lemma BackfillTail(x: Externals, s0: State, events: seq<Event>, backfill: nat, units: seq<Request>,
                     source: Request -> seq<Observation>)
    requires x.Valid() && Inv(x, s0) && Quiet(s0) && forall e | e in events :: Confined(e, backfill, units, source)
    requires forall q | q in units :: Derived(backfill, q) !in CommittedRuns(s0)
    requires AllCommitted(Play(x, s0, events), backfill, units)
    ensures var s := Play(x, s0, events);
            s0.log <= s.log && Complete(x, s.log[|s0.log|..], backfill, units, source)
  {
    var s := Play(x, s0, events);
    PlayConfined(x, s0, events, backfill, units, source);
    PlayKeeps(x, s0, events);
    var n, tail := |s0.log|, s.log[|s0.log|..];
    TailOk(x, s.log, n);
    forall q | q in units
      ensures exists i :: 0 <= i < |tail| && tail[i].request == q
    {
      NotYetLogged(x, s0, Derived(backfill, q));
      var at := CommittedIsLogged(x, s, Derived(backfill, q));
      var i := UnitInTail(x, s0, s, backfill, units, source, q, at);
    }
    forall i | 0 <= i < |tail|
      ensures UnitBatch(x, backfill, units, source, tail[i])
    {
      assert tail[i] == s.log[n + i];
    }
  }

  lemma TailOk(x: Externals, log: seq<Batch>, n: nat)
    requires LogOk(x, log) && n <= |log|
    ensures LogOk(x, log[n..])
  {
    var tail := log[n..];
    forall i | 0 <= i < |tail|
      ensures RowsOk(x, tail[i].request, tail[i].rows)
    {
      assert tail[i] == log[n + i];
    }
    forall i, j | 0 <= i < j < |tail|
      ensures tail[i].run != tail[j].run
    {
      assert tail[i] == log[n + i] && tail[j] == log[n + j];
    }
  }

  /** What a reader without run IDs, sequences or clocks sees: the contents of a key, and its numbered
      revisions. */
  ghost predicate SameHistory(a: State, b: State, key: Key) {
    var ts, us := OfKey(a.Of(key.product).transitions, key), OfKey(b.Of(key.product).transitions, key);
    && |ts| == |us|
    && (forall i | 0 <= i < |ts| :: ts[i].hash == us[i].hash && ts[i].ordinal == us[i].ordinal)
    && (forall hash :: ContentId(key, hash) in IdsOf(a.Of(key.product).contents) <==>
          ContentId(key, hash) in IdsOf(b.Of(key.product).contents))
  }

  lemma {:induction false} ReadingsMember(x: Externals, log: seq<Batch>, key: Key, hash: ContentHash)
    requires LogOk(x, log)
    ensures hash in Readings(log, key) <==>
            exists i, row ::
              && 0 <= i < |log| && log[i].request.product == key.product
              && row in log[i].rows && row.Id() == ContentId(key, hash)
  {
    if log != [] {
      var n := |log| - 1;
      LogOkFront(x, log, n);
      ReadingsMember(x, log[..n], key, hash);
      ReadingOfBatch(x, log[n], key, hash);
      if i, row :| 0 <= i < |log| && log[i].request.product == key.product && row in log[i].rows
                   && row.Id() == ContentId(key, hash)
      {
        if i < n {
          assert log[..n][i] == log[i] && row in log[..n][i].rows;
        }
      }
      if i, row :| 0 <= i < n && log[..n][i].request.product == key.product && row in log[..n][i].rows
                   && row.Id() == ContentId(key, hash)
      {
        assert log[i] == log[..n][i] && row in log[i].rows;
      }
    }
  }

  lemma ReadingOfBatch(x: Externals, batch: Batch, key: Key, hash: ContentHash)
    requires RowsOk(x, batch.request, batch.rows)
    ensures (RowFor(batch.rows, key).Some? && RowFor(batch.rows, key).value.hash == hash) <==>
            && batch.request.product == key.product
            && exists row :: row in batch.rows && row.Id() == ContentId(key, hash)
  {
    if row :| row in batch.rows && row.Id() == ContentId(key, hash) {
      RowForFinds(batch.rows, key, row);
    }
    if RowFor(batch.rows, key).Some? {
      assert RowOk(x, batch.request, RowFor(batch.rows, key).value);
    }
  }

  /** The contents stored for a key are exactly the accepted readings of it. */
  lemma ContentsAreReadings(x: Externals, s: State, key: Key, hash: ContentHash)
    requires Inv(x, s)
    ensures ContentId(key, hash) in IdsOf(s.Of(key.product).contents) <==> hash in Readings(s.log, key)
  {
    assert TablesOk(s.Of(key.product), s.runs, s.log, key.product);
    StampedIds(Serial(s.log, key.product).contents, s.runs);
    SerialContentsAccepted(x, s.log, key.product, ContentId(key, hash));
    ReadingsMember(x, s.log, key, hash);
  }

  /** Two warehouses show the same history of a key when their readings differ only by repeats. */
  lemma ReadingsDecide(x: Externals, a: State, b: State, key: Key)
    requires Inv(x, a) && Inv(x, b)
    requires Destutter(Readings(a.log, key)) == Destutter(Readings(b.log, key))
    requires forall hash :: hash in Readings(a.log, key) <==> hash in Readings(b.log, key)
    ensures SameHistory(a, b, key)
  {
    StoredTrace(x, a, key);
    StoredTrace(x, b, key);
    var ts, us := OfKey(a.Of(key.product).transitions, key), OfKey(b.Of(key.product).transitions, key);
    assert |HashesOf(ts)| == |HashesOf(us)|;
    forall i | 0 <= i < |ts|
      ensures ts[i].hash == us[i].hash && ts[i].ordinal == us[i].ordinal
    {
      assert HashesOf(ts)[i] == HashesOf(us)[i];
    }
    forall hash
      ensures ContentId(key, hash) in IdsOf(a.Of(key.product).contents) <==>
                ContentId(key, hash) in IdsOf(b.Of(key.product).contents)
    {
      ContentsAreReadings(x, a, key, hash);
      ContentsAreReadings(x, b, key, hash);
    }
  }

  /** A finished backfill: every unit committed under its own run ID, by events of this backfill alone. */
  ghost predicate Finished(x: Externals, s0: State, events: seq<Event>, backfill: nat, units: seq<Request>,
                           source: Request -> seq<Observation>)
  {
    && Inv(x, s0) && Quiet(s0)
    && (forall e | e in events :: Confined(e, backfill, units, source))
    && (forall q | q in units :: Derived(backfill, q) !in CommittedRuns(s0))
    && AllCommitted(Play(x, s0, events), backfill, units)
  }

  lemma FinishedReadings(x: Externals, s0: State, events: seq<Event>, backfill: nat, units: seq<Request>,
                         source: Request -> seq<Observation>, key: Key)
    returns (tail: seq<Batch>)
    requires x.Valid() && Finished(x, s0, events, backfill, units, source)
    ensures Inv(x, Play(x, s0, events)) && Complete(x, tail, backfill, units, source)
    ensures Readings(Play(x, s0, events).log, key) == Readings(s0.log, key) + Readings(tail, key)
  {
    var s := Play(x, s0, events);
    BackfillTail(x, s0, events, backfill, units, source);
    PlayKeeps(x, s0, events);
    tail := s.log[|s0.log|..];
    TailReadings(s0.log, s.log, key);
  }

  lemma TailReadings(log: seq<Batch>, more: seq<Batch>, key: Key)
    requires log <= more
    ensures Readings(more, key) == Readings(log, key) + Readings(more[|log|..], key)
  {
    assert more == log + more[|log|..];
    ReadingsConcat(log, more[|log|..], key);
  }

  /** Confluence: interrupted or not, in whatever order its units committed, and under whatever backfill ID,
      a finished backfill of unchanged data leaves the same contents and the same numbered revisions. */
  lemma BackfillConfluence(x: Externals, s0: State, units: seq<Request>, source: Request -> seq<Observation>,
                           e1: seq<Event>, b1: nat, e2: seq<Event>, b2: nat, key: Key)
    requires x.Valid() && Finished(x, s0, e1, b1, units, source) && Finished(x, s0, e2, b2, units, source)
    ensures SameHistory(Play(x, s0, e1), Play(x, s0, e2), key)
  {
    var t1 := FinishedReadings(x, s0, e1, b1, units, source, key);
    var t2 := FinishedReadings(x, s0, e2, b2, units, source, key);
    SameReadings(x, t1, b1, t2, b2, units, source, key);
    ReadingsDecide(x, Play(x, s0, e1), Play(x, s0, e2), key);
  }

  lemma RepeatedReading(s: seq<ContentHash>, r: seq<ContentHash>)
    requires |r| <= 1
    ensures Destutter(s + r + r) == Destutter(s + r)
  {
    if |r| == 1 {
      DestutterAppend(s + r, r[0]);
      assert s + r + r == s + r + [r[0]];
    } else {
      assert s + r + r == s + r;
    }
  }

  /** Fetching the same units again and running them under a fresh backfill ID adds no content and no revision. */
  lemma FreshRepeatAddsNothing(x: Externals, s0: State, units: seq<Request>, source: Request -> seq<Observation>,
                               e1: seq<Event>, b1: nat, e2: seq<Event>, b2: nat, key: Key)
    requires x.Valid() && Finished(x, s0, e1, b1, units, source)
    requires Finished(x, Play(x, s0, e1), e2, b2, units, source)
    ensures SameHistory(Play(x, Play(x, s0, e1), e2), Play(x, s0, e1), key)
  {
    var s1 := Play(x, s0, e1);
    var s2 := Play(x, s1, e2);
    var t1 := FinishedReadings(x, s0, e1, b1, units, source, key);
    var t2 := FinishedReadings(x, s1, e2, b2, units, source, key);
    SameReadings(x, t1, b1, t2, b2, units, source, key);
    RepeatedReading(Readings(s0.log, key), Readings(t1, key));
    ReadingsDecide(x, s2, s1, key);
  }

  // ---------- no row at all is added ----------

  lemma {:induction false} SameKeysSameCount(a: seq<Transition>, b: seq<Transition>, key: Key)
    requires |a| == |b| && forall i | 0 <= i < |a| :: a[i].key == b[i].key
    ensures |OfKey(a, key)| == |OfKey(b, key)|
  {
    if a != [] {
      SameKeysSameCount(a[..|a| - 1], b[..|b| - 1], key);
    }
  }

  lemma OneMoreOfKey(ts: seq<Transition>, n: nat)
    requires n < |ts|
    ensures |OfKey(ts, ts[n].key)| > |OfKey(ts[..n], ts[n].key)|
  {
    var key := ts[n].key;
    assert ts == ts[..n] + [ts[n]] + ts[n + 1..];
    WhereConcat(ts[..n] + [ts[n]], ts[n + 1..], HasKey(key));
    WhereConcat(ts[..n], [ts[n]], HasKey(key));
  }

  lemma StoredKeyProduct(x: Externals, s: State, p: Product)
    requires Inv(x, s)
    ensures forall t | t in s.Of(p).transitions :: t.key.product == p
    ensures forall c | c in s.Of(p).contents :: c.key.product == p
    ensures UniqueIds(s.Of(p).contents)
  {
    var serial := Serial(s.log, p);
    assert TablesOk(s.Of(p), s.runs, s.log, p);
    SerialContentsUnique(x, s.log, p);
    StampedUnique(serial.contents, s.runs);
    forall i | 0 <= i < |serial.transitions|
      ensures serial.transitions[i].key.product == p
    {
      var t := serial.transitions[i];
      TransitionOrigin(x, s.log, p, t);
      assert RowsOk(x, s.log[t.sequence - 1].request, s.log[t.sequence - 1].rows);
      assert RowOk(x, s.log[t.sequence - 1].request, Row(t.key, t.hash, t.day, t.retrieved));
    }
    forall i | 0 <= i < |serial.contents|
      ensures serial.contents[i].key.product == p
    {
      var c := serial.contents[i];
      var j := ContentOrigin(x, s.log, p, c);
      assert RowsOk(x, s.log[j].request, s.log[j].rows);
      assert RowOk(x, s.log[j].request, Row(c.key, c.hash, c.day, c.retrieved));
    }
  }

  lemma NoMoreTransitions(ts: seq<Transition>, more: seq<Transition>)
    requires |ts| <= |more| && forall i | 0 <= i < |ts| :: ts[i].key == more[i].key
    requires forall n | |ts| <= n < |more| :: |OfKey(more, more[n].key)| == |OfKey(ts, more[n].key)|
    ensures |ts| == |more|
  {
    if |ts| < |more| {
      OneMoreOfKey(more, |ts|);
      SameKeysSameCount(ts, more[..|ts|], more[|ts|].key);
    }
  }

  lemma SameRevisionsSameRows(ts: seq<Transition>, more: seq<Transition>, s: State, s': State, p: Product)
    requires ts == s.Of(p).transitions && more == s'.Of(p).transitions
    requires |ts| <= |more| && forall i | 0 <= i < |ts| :: ts[i].key == more[i].key
    requires forall t | t in more :: t.key.product == p
    requires forall key: Key | key.product == p :: SameHistory(s', s, key)
    ensures |more| == |ts|
  {
    forall n | |ts| <= n < |more|
      ensures |OfKey(more, more[n].key)| == |OfKey(ts, more[n].key)|
    {
      assert SameHistory(s', s, more[n].key);
    }
    NoMoreTransitions(ts, more);
  }

  lemma SameIdsSameRows(x: Externals, s: State, s': State, p: Product)
    requires Inv(x, s) && Inv(x, s')
    requires forall key: Key | key.product == p :: SameHistory(s', s, key)
    ensures |s'.Of(p).contents| == |s.Of(p).contents|
  {
    var t, t' := s.Of(p), s'.Of(p);
    StoredKeyProduct(x, s, p);
    StoredKeyProduct(x, s', p);
    forall id
      ensures id in IdsOf(t'.contents) <==> id in IdsOf(t.contents)
    {
      if id.key.product == p {
        assert SameHistory(s', s, id.key) && id == ContentId(id.key, id.hash);
      }
    }
    assert IdsOf(t'.contents) == IdsOf(t.contents);
    DistinctIds(t.contents);
    DistinctIds(t'.contents);
  }

  lemma SameHistorySameRows(x: Externals, s: State, s': State, p: Product)
    requires Inv(x, s) && Inv(x, s') && Extends(s, s')
    requires forall key: Key | key.product == p :: SameHistory(s', s, key)
    ensures |s'.Of(p).transitions| == |s.Of(p).transitions| && |s'.Of(p).contents| == |s.Of(p).contents|
  {
    TablesGrow(x, s, s', p);
    StoredKeyProduct(x, s', p);
    SameRevisionsSameRows(s.Of(p).transitions, s'.Of(p).transitions, s, s', p);
    SameIdsSameRows(x, s, s', p);
  }

  lemma FreshRepeatAddsNoRow(x: Externals, s0: State, units: seq<Request>, source: Request -> seq<Observation>,
                             e1: seq<Event>, b1: nat, e2: seq<Event>, b2: nat, p: Product)
    requires x.Valid() && Finished(x, s0, e1, b1, units, source)
    requires Finished(x, Play(x, s0, e1), e2, b2, units, source)
    ensures var t, t' := Play(x, s0, e1).Of(p), Play(x, Play(x, s0, e1), e2).Of(p);
            |t'.transitions| == |t.transitions| && |t'.contents| == |t.contents|
  {
    var s1 := Play(x, s0, e1);
    PlayKeeps(x, s0, e1);
    PlayKeeps(x, s1, e2);
    PlayExtends(x, s1, e2);
    forall key
      ensures SameHistory(Play(x, s1, e2), s1, key)
    {
      FreshRepeatAddsNothing(x, s0, units, source, e1, b1, e2, b2, key);
    }
    SameHistorySameRows(x, s1, Play(x, s1, e2), p);
  }
}
