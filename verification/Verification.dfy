// The bounded verification after a build (verify in orchestration/operations.py), and why it never rejects a
// backfill whose units all SUCCEEDED.
module Verification {
  import opened Base
  import opened Batches
  import opened Planner
  import opened Facts
  import opened Protocol
  import opened Replay
  import opened Safety
  import opened Progress
  import opened Refinement
  import opened Theorems
  import opened Guarantees
  import opened Client
  import opened Backfill

  /** What a finished ingestion task reports. */
  datatype UnitResult = UnitResult(unit: Unit, accepted: nat, newContents: nat, newTransitions: nat, reused: bool)

  datatype CheckError = Ineligible(group: Request) | Missing(group: Request)

  // ---------- the grouped query ----------

  function UnitOfProduct(product: Product): Unit -> bool {
    (u: Unit) => u.request.product == product
  }

  function Selected(units: seq<Unit>, product: Product): seq<Unit> {
    Where(units, UnitOfProduct(product))
  }

  /** The group of a fact row: its market date and, for LMP, its hub. A request names a group. */
  function LabelOf(product: Product, row: HistoryRow): Request {
    Request(product, row.content.day, if product.Lmp? then row.content.key.hub else None)
  }

  /** The query looks at the market dates from the first to the last unit and, for LMP, at the units' hubs. */
  predicate InScope(selected: seq<Unit>, group: Request) {
    && selected != []
    && selected[0].request.day <= group.day <= selected[|selected| - 1].request.day
    && (group.product.Lmp? ==> exists i :: 0 <= i < |selected| && selected[i].request.hub == group.hub)
  }

  function Slice(fact: Fact, group: Request): set<Key> {
    set key | key in fact && LabelOf(group.product, fact[key]) == group
  }

  function IneligibleIn(runs: map<RunId, Run>, fact: Fact, slice: set<Key>): set<Key> {
    set key | key in slice && key in fact && !Eligible(runs, fact[key].state.run)
  }

  function Groups(selected: seq<Unit>, product: Product, fact: Fact): set<Request> {
    set key | key in fact && InScope(selected, LabelOf(product, fact[key])) :: LabelOf(product, fact[key])
  }

  /** How many facts are counted for a group. */
  function Counted(fact: Fact, units: seq<Unit>, group: Request): nat {
    if InScope(Selected(units, group.product), group) then |Slice(fact, group)| else 0
  }

  // ---------- when verification passes ----------

  ghost predicate SlicesEligible(runs: map<RunId, Run>, fact: Fact, units: seq<Unit>, product: Product) {
    forall key | key in fact && InScope(Selected(units, product), LabelOf(product, fact[key])) ::
      Eligible(runs, fact[key].state.run)
  }

  /** The verification asks about each product separately: LMP when the warehouse is `first`, load when it is
      `second`. */
  ghost function At(first: State, second: State, p: Product): State {
    if p.Lmp? then first else second
  }

  /** How many facts the query for the group's product counted for it. */
  ghost function CountedAt(first: State, second: State, units: seq<Unit>, group: Request): nat {
    Counted(At(first, second, group.product).FactOf(group.product), units, group)
  }

  ghost predicate AllCounted(first: State, second: State, units: seq<Unit>, results: seq<UnitResult>) {
    forall i | 0 <= i < |results| ::
      CountedAt(first, second, units, results[i].unit.request) >= results[i].accepted
  }

  ghost predicate Passes(first: State, second: State, units: seq<Unit>, results: seq<UnitResult>) {
    && SlicesEligible(first.runs, first.lmpFact, units, Lmp)
    && SlicesEligible(second.runs, second.loadFact, units, Load)
    && AllCounted(first, second, units, results)
  }

  /** The counts of one product's query, over what was counted before. */
  ghost predicate CountsOf(counts: map<Request, nat>, before: map<Request, nat>, groups: set<Request>, fact: Fact) {
    && counts.Keys == before.Keys + groups
    && (forall group | group in groups :: counts[group] == |Slice(fact, group)|)
    && (forall group | group in before && group !in groups :: counts[group] == before[group])
  }

  lemma SomeIneligible(product: Product, runs: map<RunId, Run>, fact: Fact, units: seq<Unit>, group: Request)
    requires group in Groups(Selected(units, product), product, fact)
    requires IneligibleIn(runs, fact, Slice(fact, group)) != {}
    ensures !SlicesEligible(runs, fact, units, product)
    ensures exists key ::
              key in fact && group == LabelOf(product, fact[key]) && !Eligible(runs, fact[key].state.run)
  {
    var key :| key in IneligibleIn(runs, fact, Slice(fact, group));
    assert key in fact && LabelOf(product, fact[key]) == group;
  }

  lemma NoneIneligible(product: Product, runs: map<RunId, Run>, fact: Fact, units: seq<Unit>)
    requires forall group | group in Groups(Selected(units, product), product, fact) ::
               IneligibleIn(runs, fact, Slice(fact, group)) == {}
    ensures SlicesEligible(runs, fact, units, product)
  {
    forall key | key in fact && InScope(Selected(units, product), LabelOf(product, fact[key]))
      ensures Eligible(runs, fact[key].state.run)
    {
      var group := LabelOf(product, fact[key]);
      assert group in Groups(Selected(units, product), product, fact) && key in Slice(fact, group);
      assert key !in IneligibleIn(runs, fact, Slice(fact, group));
    }
  }

  /** One product of the query: every group it can see must be eligible. Uniqueness of logical keys
      holds by construction because a fact table is a map on them. */
  method CountProduct(product: Product, runs: map<RunId, Run>, fact: Fact, units: seq<Unit>, before: map<Request, nat>)
    returns (r: Result<map<Request, nat>, CheckError>)
    ensures r.Ok? <==> SlicesEligible(runs, fact, units, product)
    ensures r.Err? ==>
              exists key ::
                && key in fact && r.error == Ineligible(LabelOf(product, fact[key]))
                && !Eligible(runs, fact[key].state.run)
    ensures r.Ok? ==> CountsOf(r.value, before, Groups(Selected(units, product), product, fact), fact)
  {
    var selected := Selected(units, product);
    var groups := Groups(selected, product, fact);
    var left := groups;
    var counts: map<Request, nat> := before;
    while left != {}
      invariant left <= groups
      invariant CountsOf(counts, before, groups - left, fact)
      invariant forall group | group in groups - left :: IneligibleIn(runs, fact, Slice(fact, group)) == {}
    {
      var group :| group in left;
      var slice := Slice(fact, group);
      if IneligibleIn(runs, fact, slice) != {} {
        SomeIneligible(product, runs, fact, units, group);
        return Err(Ineligible(group));
      }
      counts := counts[group := |slice|];
      left := left - {group};
    }
    NoneIneligible(product, runs, fact, units);
    r := Ok(counts);
  }

  lemma LookedUp(product: Product, fact: Fact, units: seq<Unit>, group: Request)
    requires group.product == product
    ensures Counted(fact, units, group) ==
            if group in Groups(Selected(units, product), product, fact) then |Slice(fact, group)| else 0
  {
    var groups := Groups(Selected(units, product), product, fact);
    if InScope(Selected(units, product), group) {
      if key :| key in Slice(fact, group) {
        assert LabelOf(product, fact[key]) in groups;
      } else {
        assert Slice(fact, group) == {};
      }
    }
  }

  /** The reported count of a group is the number of its facts in the requested range. */
  ghost predicate Tallied(first: State, second: State, units: seq<Unit>, counts: map<Request, nat>, group: Request) {
    group in counts && counts[group] == CountedAt(first, second, units, group)
  }

  /** Fewer facts were counted for a unit than it accepted. */
  ghost predicate Short(first: State, second: State, units: seq<Unit>, result: UnitResult) {
    CountedAt(first, second, units, result.unit.request) < result.accepted
  }

  /** No unit has fewer facts than it accepted. */
  method CompareResults(ghost first: State, ghost second: State, units: seq<Unit>, results: seq<UnitResult>,
                        before: map<Request, nat>)
    returns (r: Result<map<Request, nat>, CheckError>)
    requires before.Keys == Groups(Selected(units, Lmp), Lmp, first.lmpFact)
                            + Groups(Selected(units, Load), Load, second.loadFact)
    requires forall group | group in before :: Tallied(first, second, units, before, group)
    ensures r.Ok? <==> AllCounted(first, second, units, results)
    ensures r.Err? ==>
              exists i ::
                && 0 <= i < |results| && r.error == Missing(results[i].unit.request)
                && Short(first, second, units, results[i])
    ensures r.Ok? ==>
              forall i | 0 <= i < |results| :: Tallied(first, second, units, r.value, results[i].unit.request)
  {
    var counts: map<Request, nat> := before;
    var i := 0;
    while i < |results|
      invariant 0 <= i <= |results|
      invariant before.Keys <= counts.Keys
      invariant forall group | group in counts :: Tallied(first, second, units, counts, group)
      invariant forall j | 0 <= j < i :: results[j].unit.request in counts
      invariant forall j | 0 <= j < i ::
        CountedAt(first, second, units, results[j].unit.request) >= results[j].accepted
    {
      var group := results[i].unit.request;
      LookedUp(group.product, At(first, second, group.product).FactOf(group.product), units, group);
      var n := if group in counts then counts[group] else 0;
      if n < results[i].accepted {
        return Err(Missing(group));
      }
      counts := counts[group := n];
      i := i + 1;
    }
    r := Ok(counts);
  }

  /** What the two queries counted is what each product's groups hold. */
  lemma BothTally(first: State, second: State, units: seq<Unit>, lmp: map<Request, nat>, both: map<Request, nat>)
    requires CountsOf(lmp, map[], Groups(Selected(units, Lmp), Lmp, first.lmpFact), first.lmpFact)
    requires CountsOf(both, lmp, Groups(Selected(units, Load), Load, second.loadFact), second.loadFact)
    ensures both.Keys == Groups(Selected(units, Lmp), Lmp, first.lmpFact)
                         + Groups(Selected(units, Load), Load, second.loadFact)
    ensures forall group | group in both :: Tallied(first, second, units, both, group)
  {
    forall group | group in both
      ensures Tallied(first, second, units, both, group)
    {
      LookedUp(group.product, At(first, second, group.product).FactOf(group.product), units, group);
    }
  }

  /** verify: one query for each product, between which anything may happen, then the comparison. It passes
      exactly when every fact it saw in the requested range comes from a SUCCEEDED run and no unit has fewer
      facts than it accepted observations. */
  method Verify(w: Warehouse, units: seq<Unit>, results: seq<UnitResult>, c: Conditions)
    returns (r: Result<map<Request, nat>, CheckError>, ghost trace: seq<Event>)
    requires w.Valid()
    modifies w
    ensures w.Valid() && w.Now() == Play(w.x, old(w.Now()), trace) && (c.alone ==> trace == [])
    ensures r.Ok? <==> Passes(old(w.Now()), w.Now(), units, results)
    ensures r.Ok? ==>
              forall i | 0 <= i < |results| ::
                Tallied(old(w.Now()), w.Now(), units, r.value, results[i].unit.request)
  {
    ghost var first := w.Now();
    trace := [];
    var lmp := CountProduct(Lmp, w.runs, w.lmpFact, units, map[]);
    if lmp.Err? {
      return Err(lmp.error), trace;
    }
    trace := w.Others(c);
    var both := CountProduct(Load, w.runs, w.loadFact, units, lmp.value);
    if both.Err? {
      return Err(both.error), trace;
    }
    BothTally(first, w.Now(), units, lmp.value, both.value);
    r := CompareResults(first, w.Now(), units, results, both.value);
  }

  // ---------- a successful backfill always passes ----------

  lemma FactRowFromHistory(x: Externals, s: State, p: Product, key: Key) returns (i: nat)
    requires Inv(x, s) && FactOk(x, s.HistoryOf(p), s.FactOf(p)) && key in s.FactOf(p)
    ensures i < |s.HistoryOf(p)| && s.HistoryOf(p)[i] == s.FactOf(p)[key] && s.FactOf(p)[key].state.key == key
  {
    var kept := Where(s.HistoryOf(p), UpToSequence(Watermark(s.FactOf(p))));
    HistoryOrdered(x, s, p);
    WhereKeepsOrder(s.HistoryOf(p), UpToSequence(Watermark(s.FactOf(p))));
    RankIsLast(x, kept);
    LastComesFrom(kept, key);
    WhereMember(s.HistoryOf(p), UpToSequence(Watermark(s.FactOf(p))), s.FactOf(p)[key]);
    i :| 0 <= i < |s.HistoryOf(p)| && s.HistoryOf(p)[i] == s.FactOf(p)[key];
  }

  lemma HistoryRowSound(x: Externals, s: State, p: Product, i: nat)
    requires Inv(x, s) && i < |s.HistoryOf(p)|
    ensures var row := s.HistoryOf(p)[i];
            && Eligible(s.runs, row.state.run)
            && row.content.key == row.state.key
            && row.content.key.product == p
            && x.InDay(row.content.key.start, row.content.day)
  {
    var serial, row := Serial(Final(s), p), s.HistoryOf(p)[i];
    HistoryIsComplete(x, s, p);
    SerialFinal(x, s, p);
    assert Eligible(s.runs, serial.transitions[i].run);
    var stamped := StampedContents(serial.contents, s.runs);
    var m :| 0 <= m < |stamped| && stamped[m] == row.content;
    var c := serial.contents[m];
    var j := ContentOrigin(x, Final(s), p, c);
    assert RowsOk(x, Final(s)[j].request, Final(s)[j].rows);
    assert RowOk(x, Final(s)[j].request, Row(c.key, c.hash, c.day, c.retrieved));
  }

  /** Every fact row, at any moment, comes from a SUCCEEDED run and lies on the day of its interval. */
  lemma FactRowSound(x: Externals, s: State, p: Product, key: Key)
    requires Inv(x, s) && FactsOk(x, s) && key in s.FactOf(p)
    ensures var row := s.FactOf(p)[key];
            && Eligible(s.runs, row.state.run)
            && row.content.key == key && key.product == p
            && x.InDay(key.start, row.content.day)
  {
    var i := FactRowFromHistory(x, s, p, key);
    HistoryRowSound(x, s, p, i);
  }

  lemma {:induction false} LastWriterHas(log: seq<Batch>, i: nat, row: Row)
    requires i < |log| && row in log[i].rows
    ensures row.key in LastWriter(log, log[i].request.product)
  {
    var n := |log| - 1;
    if i == n {
      FingerprintKeys(log[n].rows, row);
    } else {
      LastWriterHas(log[..n], i, row);
    }
  }

  lemma {:induction false} FingerprintKeys(rows: seq<Row>, row: Row)
    requires row in rows
    ensures row.key in Fingerprint(rows)
  {
    var n := |rows| - 1;
    if rows[n] != row {
      assert row in rows[..n];
      FingerprintKeys(rows[..n], row);
    }
  }

  lemma RowDelivered(x: Externals, s: State, i: nat, row: Row)
    requires x.Valid() && Inv(x, s) && FactsOk(x, s) && i < |s.log| && row in s.log[i].rows
    requires row.key in s.FactOf(s.log[i].request.product) && ValidRequest(s.log[i].request)
    ensures row.key in Slice(s.FactOf(s.log[i].request.product), s.log[i].request)
  {
    var q := s.log[i].request;
    var fact := s.FactOf(q.product);
    FactRowSound(x, s, q.product, row.key);
    assert RowsOk(x, q, s.log[i].rows);
    assert RowOk(x, q, row);
    DayIsUnique(x, row.key.start, q.day, fact[row.key].content.day);
  }

  lemma {:induction false} KeysCount(rows: seq<Row>, slice: set<Key>)
    requires UniqueKeys(rows) && forall row | row in rows :: row.key in slice
    ensures |rows| <= |slice|
  {
    if rows != [] {
      var n := |rows| - 1;
      UniqueFront(rows);
      LastIsNew(rows);
      KeysCount(rows[..n], slice - {rows[n].key});
    }
  }

  /** A built fact table holds every key any SUCCEEDED batch ever carried. */
  ghost predicate Holds(s: State, p: Product) {
    forall i, row | 0 <= i < |s.log| && s.log[i].request.product == p && Eligible(s.runs, s.log[i].run)
                    && row in s.log[i].rows ::
      row.key in s.FactOf(p)
  }

  lemma BuildHolds(x: Externals, s: State, p: Product)
    requires Inv(x, s) && FactsOk(x, s)
    ensures Holds(Step(x, s, Build(p)), p)
  {
    var s' := Step(x, s, Build(p));
    BuildIsRefresh(x, s, p);
    FullRefreshMeans(x, s, p);
    SucceededIsPrefix(x, s);
    forall i, row | 0 <= i < |s.log| && s.log[i].request.product == p && Eligible(s.runs, s.log[i].run)
                    && row in s.log[i].rows
      ensures row.key in s'.FactOf(p)
    {
      InFinal(x, s, i);
      LastWriterHas(Final(s), i, row);
    }
  }

  lemma InFinal(x: Externals, s: State, i: nat)
    requires Inv(x, s) && i < |s.log| && Eligible(s.runs, s.log[i].run)
    ensures i < |Final(s)| && Final(s)[i] == s.log[i]
  {
  }

  /** A unit as the backfill saw it finish. */
  ghost predicate Finalized(s: State, result: UnitResult) {
    var unit := result.unit;
    && Eligible(s.runs, unit.run)
    && s.runs[unit.run].request == unit.request
    && s.runs[unit.run].rowsAccepted == Some(result.accepted)
  }

  /** The facts hold every key of the batch of one run. */
  ghost predicate HoldsRun(s: State, run: RunId) {
    forall i, row | 0 <= i < |s.log| && s.log[i].run == run && row in s.log[i].rows ::
      row.key in s.FactOf(s.log[i].request.product)
  }

  lemma HoldsEachRun(x: Externals, s: State, result: UnitResult)
    requires Inv(x, s) && Finalized(s, result) && Holds(s, result.unit.request.product)
    ensures HoldsRun(s, result.unit.run)
  {
    forall i, row | 0 <= i < |s.log| && s.log[i].run == result.unit.run && row in s.log[i].rows
      ensures row.key in s.FactOf(s.log[i].request.product)
    {
      assert EntryOk(s.runs, s.log, i);
    }
  }

  lemma UnitDelivered(x: Externals, s: State, result: UnitResult)
    requires x.Valid() && Inv(x, s) && FactsOk(x, s) && Finalized(s, result) && HoldsRun(s, result.unit.run)
    ensures |Slice(s.FactOf(result.unit.request.product), result.unit.request)| >= result.accepted
  {
    var run, q := result.unit.run, result.unit.request;
    var i := CommittedIsLogged(x, s, run);
    assert EntryOk(s.runs, s.log, i) && RunOk(s.log, run, s.runs[run]);
    var rows := s.log[i].rows;
    forall row | row in rows
      ensures row.key in Slice(s.FactOf(q.product), q)
    {
      RowDelivered(x, s, i, row);
    }
    assert RowsOk(x, q, rows);
    KeysCount(rows, Slice(s.FactOf(q.product), q));
  }

  /** A finished unit whose observations are in the facts. */
  ghost predicate Delivered(s: State, result: UnitResult) {
    Finalized(s, result) && HoldsRun(s, result.unit.run)
  }

  ghost predicate InDayOrder(units: seq<Unit>) {
    forall i, j | 0 <= i < j < |units| :: units[i].request.day <= units[j].request.day
  }

  lemma {:induction false} SelectedOrder(units: seq<Unit>, product: Product)
    requires InDayOrder(units)
    ensures InDayOrder(Selected(units, product))
    ensures forall u | u in Selected(units, product) :: u in units
  {
    if units != [] {
      var front := units[..|units| - 1];
      assert units == front + [units[|units| - 1]];
      SelectedOrder(front, product);
      forall i | 0 <= i < |Selected(front, product)|
        ensures Selected(front, product)[i].request.day <= units[|units| - 1].request.day
      {
        assert Selected(front, product)[i] in front;
        var j :| 0 <= j < |front| && front[j] == Selected(front, product)[i];
      }
    }
  }

  lemma OwnScope(units: seq<Unit>, unit: Unit)
    requires InDayOrder(units) && unit in units
    ensures InScope(Selected(units, unit.request.product), unit.request)
  {
    var selected := Selected(units, unit.request.product);
    SelectedOrder(units, unit.request.product);
    WhereMember(units, UnitOfProduct(unit.request.product), unit);
    var i :| 0 <= i < |selected| && selected[i] == unit;
  }

  lemma FactsEligible(x: Externals, s: State, units: seq<Unit>, p: Product)
    requires Inv(x, s) && FactsOk(x, s)
    ensures SlicesEligible(s.runs, s.FactOf(p), units, p)
  {
    forall key | key in s.FactOf(p)
      ensures Eligible(s.runs, s.FactOf(p)[key].state.run)
    {
      FactRowSound(x, s, p, key);
    }
  }

  /** Whenever the facts hold what has SUCCEEDED as each query runs, verification passes for every finished
      backfill. */
  lemma CheckPasses(x: Externals, first: State, second: State, units: seq<Unit>, results: seq<UnitResult>)
    requires x.Valid() && Inv(x, first) && FactsOk(x, first) && Inv(x, second) && FactsOk(x, second)
    requires InDayOrder(units)
    requires forall i | 0 <= i < |results| ::
               results[i].unit in units && Delivered(At(first, second, results[i].unit.request.product), results[i])
    ensures Passes(first, second, units, results)
  {
    FactsEligible(x, first, units, Lmp);
    FactsEligible(x, second, units, Load);
    forall i | 0 <= i < |results|
      ensures CountedAt(first, second, units, results[i].unit.request) >= results[i].accepted
    {
      OwnScope(units, results[i].unit);
      UnitDelivered(x, At(first, second, results[i].unit.request.product), results[i]);
    }
  }

  // ---------- over whole runs ----------

  /** A build of one product: nothing else changes, and its facts hold what has SUCCEEDED. */
  lemma BuildOne(x: Externals, s: State, p: Product)
    requires x.Valid() && Inv(x, s) && FactsOk(x, s)
    ensures var s' := Step(x, s, Build(p));
            && Inv(x, s') && FactsOk(x, s') && Holds(s', p) && s'.runs == s.runs && s'.log == s.log
            && forall q: Product | q != p :: s'.FactOf(q) == s.FactOf(q)
  {
    StepBuild(x, s, p);
    BuildHolds(x, s, p);
    StepKeeps(x, s, Build(p));
    FactsStep(x, s, Build(p));
  }

  lemma BuildBothHolds(x: Externals, s: State)
    requires x.Valid() && Inv(x, s) && FactsOk(x, s)
    ensures var s' := Step(x, Step(x, s, Build(Lmp)), Build(Load));
            && Inv(x, s') && FactsOk(x, s') && Holds(s', Lmp) && Holds(s', Load)
            && s'.runs == s.runs && s'.log == s.log
  {
    BuildOne(x, s, Lmp);
    BuildOne(x, Step(x, s, Build(Lmp)), Load);
    HoldsCarries(Step(x, s, Build(Lmp)), Step(x, Step(x, s, Build(Lmp)), Build(Load)), Lmp);
  }

  lemma HoldsCarries(s: State, s': State, p: Product)
    requires Holds(s, p) && s'.runs == s.runs && s'.log == s.log && s'.FactOf(p) == s.FactOf(p)
    ensures Holds(s', p)
  {
  }

  lemma MergeKeysGrow(x: Externals, s: State, p: Product)
    ensures s.FactOf(p).Keys <= Step(x, s, Merge(p)).FactOf(p).Keys
    ensures Step(x, s, Select(p)).FactOf(p) == s.FactOf(p)
  {
    StepMerge(x, s, p);
    StepSelect(x, s, p);
    SelectedTable(x, s, p);
    if s.BuildOf(p).Some? {
      MergedTable(s, p, s.BuildOf(p).value);
    }
  }

  lemma BuildKeysGrow(x: Externals, s: State, p: Product)
    requires Inv(x, s) && FactsOk(x, s)
    ensures s.FactOf(p).Keys <= Step(x, s, Refresh(p)).FactOf(p).Keys
    ensures Step(x, s, Build(p)) == Step(x, s, Refresh(p))
  {
    BuildFacts(x, s, p);
    BuildIsRefresh(x, s, p);
    RefreshedTable(x, s, p);
  }

  lemma FactKeysGrow(x: Externals, s: State, event: Event, p: Product)
    requires Inv(x, s) && FactsOk(x, s)
    ensures s.FactOf(p).Keys <= Step(x, s, event).FactOf(p).Keys
  {
    if event == Build(p) || event == Refresh(p) {
      BuildKeysGrow(x, s, p);
    } else if event == Select(p) || event == Merge(p) {
      MergeKeysGrow(x, s, p);
    } else {
      TablesUntouched(x, s, event, p);
    }
  }

  /** What the facts of a finished unit held they hold as long as they lose no key. */
  lemma DeliveredCarries(x: Externals, s: State, s': State, result: UnitResult)
    requires Inv(x, s) && Inv(x, s') && Extends(s, s') && Delivered(s, result)
    requires s.FactOf(result.unit.request.product).Keys <= s'.FactOf(result.unit.request.product).Keys
    ensures Delivered(s', result)
  {
    var run := result.unit.run;
    assert RunGrows(s.runs[run], s'.runs[run]);
    var n := CommittedIsLogged(x, s, run);
    assert EntryOk(s.runs, s.log, n);
    forall i, row | 0 <= i < |s'.log| && s'.log[i].run == run && row in s'.log[i].rows
      ensures row.key in s'.FactOf(s'.log[i].request.product)
    {
      LogInjective(x, s'.log, i, n);
    }
  }

  lemma StaysDelivered(x: Externals, s: State, event: Event, result: UnitResult)
    requires x.Valid() && Inv(x, s) && FactsOk(x, s) && Delivered(s, result)
    ensures Delivered(Step(x, s, event), result)
  {
    StepExtends(x, s, event);
    StepKeeps(x, s, event);
    FactKeysGrow(x, s, event, result.unit.request.product);
    DeliveredCarries(x, s, Step(x, s, event), result);
  }

  lemma {:induction false} StaysDeliveredThroughout(x: Externals, s: State, events: seq<Event>, result: UnitResult)
    requires x.Valid() && Inv(x, s) && FactsOk(x, s) && Delivered(s, result)
    ensures Inv(x, Play(x, s, events)) && FactsOk(x, Play(x, s, events)) && Delivered(Play(x, s, events), result)
  {
    if events != [] {
      var front, last := events[..|events| - 1], events[|events| - 1];
      StaysDeliveredThroughout(x, s, front, result);
      StepKeeps(x, Play(x, s, front), last);
      FactsStep(x, Play(x, s, front), last);
      StaysDelivered(x, Play(x, s, front), last, result);
    }
  }

  lemma DeliveredLater(x: Externals, s: State, more: seq<Event>, results: seq<UnitResult>)
    requires x.Valid() && Inv(x, s) && FactsOk(x, s) && forall i | 0 <= i < |results| :: Delivered(s, results[i])
    ensures var s' := Play(x, s, more);
            Inv(x, s') && FactsOk(x, s') && forall i | 0 <= i < |results| :: Delivered(s', results[i])
  {
    PlayKeeps(x, s, more);
    FactsHoldFrom(x, s, more);
    forall i | 0 <= i < |results|
      ensures Delivered(Play(x, s, more), results[i])
    {
      StaysDeliveredThroughout(x, s, more, results[i]);
    }
  }

  lemma BuiltDelivers(x: Externals, events: seq<Event>, results: seq<UnitResult>)
    requires x.Valid() && forall i | 0 <= i < |results| :: Finalized(Play(x, Empty(), events), results[i])
    ensures var built := Play(x, Empty(), events + [Build(Lmp)] + [Build(Load)]);
            && Inv(x, built) && FactsOk(x, built)
            && forall i | 0 <= i < |results| :: Delivered(built, results[i])
  {
    PlayOne(x, Empty(), events, Build(Lmp));
    PlayOne(x, Empty(), events + [Build(Lmp)], Build(Load));
    InvariantHolds(x, events);
    FactsHold(x, events);
    BuildBothHolds(x, Play(x, Empty(), events));
    var built := Play(x, Empty(), events + [Build(Lmp)] + [Build(Load)]);
    forall i | 0 <= i < |results|
      ensures Delivered(built, results[i])
    {
      HoldsEachRun(x, built, results[i]);
    }
  }

  lemma DeliveredPasses(x: Externals, first: State, between: seq<Event>, units: seq<Unit>, results: seq<UnitResult>)
    requires x.Valid() && Inv(x, first) && FactsOk(x, first) && InDayOrder(units)
    requires forall i | 0 <= i < |results| :: results[i].unit in units && Delivered(first, results[i])
    ensures Passes(first, Play(x, first, between), units, results)
  {
    DeliveredLater(x, first, between, results);
    CheckPasses(x, first, Play(x, first, between), units, results);
  }

  /** Completeness: once every unit SUCCEEDED and both facts were built, verification never rejects, whatever
      other writers, builds and crashes follow before it runs and between its two queries. */
  lemma VerificationNeverRejects(x: Externals, events: seq<Event>, more: seq<Event>, between: seq<Event>,
                                 units: seq<Unit>, results: seq<UnitResult>)
    requires x.Valid() && InDayOrder(units)
    requires forall i | 0 <= i < |results| ::
               results[i].unit in units && Finalized(Play(x, Empty(), events), results[i])
    ensures var first := Play(x, Play(x, Empty(), events + [Build(Lmp)] + [Build(Load)]), more);
            Passes(first, Play(x, first, between), units, results)
  {
    var built := Play(x, Empty(), events + [Build(Lmp)] + [Build(Load)]);
    BuiltDelivers(x, events, results);
    DeliveredLater(x, built, more, results);
    DeliveredPasses(x, Play(x, built, more), between, units, results);
  }

  lemma {:induction false} FactsHoldFrom(x: Externals, s: State, events: seq<Event>)
    requires x.Valid() && Inv(x, s) && FactsOk(x, s)
    ensures FactsOk(x, Play(x, s, events))
  {
    if events != [] {
      FactsHoldFrom(x, s, events[..|events| - 1]);
      PlayKeeps(x, s, events[..|events| - 1]);
      FactsStep(x, Play(x, s, events[..|events| - 1]), events[|events| - 1]);
    }
  }
}
