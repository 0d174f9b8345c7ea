// Requests, normalized observations and the write planner (warehouse/model.py, domain.py).
//
// A digest is modelled by the fields it hashes: SHA-256 and UUIDv5 are taken to be injective,
// so two digests are equal exactly when what was hashed is equal.
module Batches {
  import opened Base
  import opened Sorting
  import opened Decimals

  const HOUR := 3600
  const MAX_BATCH_ROWS := 300

  datatype Product = Lmp | Load
  datatype Hub = NP15 | SP15 | ZP26
  datatype Request = Request(product: Product, day: int, hub: Option<Hub>)

  /** LMP needs a hub, system load has none. */
  predicate ValidRequest(request: Request) {
    request.product.Lmp? <==> request.hub.Some?
  }

  /** uuid4 run IDs, or uuid5 of a backfill and a request. */
  datatype RunId = Fresh(nonce: nat) | Derived(backfill: nat, request: Request)

  /** What the program takes from elsewhere: the Pacific calendar and the text order of digests. */
  datatype Externals = Externals(midnight: int -> int, digestOrder: Key -> real, stateOrder: TransitionId -> int)
  {
    function DayLength(day: int): int {
      midnight(day + 1) - midnight(day)
    }

    /** Pacific days last 23, 24 or 25 hours, and distinct digests sort apart. */
    ghost predicate Valid() {
      && (forall day :: DayLength(day) in {23 * HOUR, 24 * HOUR, 25 * HOUR})
      && (forall a, b :: digestOrder(a) == digestOrder(b) ==> a == b)
    }

    predicate InDay(start: int, day: int) {
      midnight(day) <= start < midnight(day + 1)
    }
  }

  lemma {:induction false} MidnightsIncrease(x: Externals, a: int, b: int)
    requires x.Valid() && a <= b
    ensures x.midnight(a) + (b - a) * 23 * HOUR <= x.midnight(b)
    decreases b - a
  {
    if a < b {
      MidnightsIncrease(x, a, b - 1);
      assert x.DayLength(b - 1) >= 23 * HOUR;
    }
  }

  /** An instant belongs to one Pacific day. */
  lemma DayIsUnique(x: Externals, start: int, a: int, b: int)
    requires x.Valid() && x.InDay(start, a) && x.InDay(start, b)
    ensures a == b
  {
    if a < b {
      MidnightsIncrease(x, a + 1, b);
    } else if b < a {
      MidnightsIncrease(x, b + 1, a);
    }
  }

  // ---------- observations and their identities ----------

  type Number = d: Decimal | d.Finite? witness Finite(false, 0, 0)

  datatype Observation =
    | LmpObservation(hub: Hub, start: int, end: int, lmp: Number, energy: Number, congestion: Number,
                     loss: Number, retrieved: int)
    | LoadObservation(start: int, end: int, load: Number, retrieved: int)
  {
    function Values(): seq<Number> {
      if LmpObservation? then [lmp, energy, congestion, loss] else [load]
    }

    function LogicalKey(): Key {
      if LmpObservation? then Key(Lmp, Some(hub), start, end) else Key(Load, None, start, end)
    }

    function Hash(): ContentHash {
      ContentHash(LogicalKey(), Texts(Values()))
    }
  }

  datatype Key = Key(product: Product, hub: Option<Hub>, start: int, end: int)
  datatype ContentHash = ContentHash(key: Key, values: seq<string>)
  datatype ContentId = ContentId(key: Key, hash: ContentHash)
  datatype TransitionId = TransitionId(run: RunId, key: Key)

  function Texts(values: seq<Number>): (r: seq<string>)
    ensures |r| == |values|
  {
    seq(|values|, i requires 0 <= i < |values| => DecimalText(values[i]).value)
  }

  /** Rewriting decimals without changing their values never changes the content hash, and any
      change of value does. */
  lemma HashIsNumerical(a: Observation, b: Observation)
    requires a.LogicalKey() == b.LogicalKey() && |a.Values()| == |b.Values()|
    ensures a.Hash() == b.Hash() <==> forall i | 0 <= i < |a.Values()| :: SameNumber(a.Values()[i], b.Values()[i])
  {
    var u, v := a.Values(), b.Values();
    forall i | 0 <= i < |u|
      ensures Texts(u)[i] == Texts(v)[i] <==> SameNumber(u[i], v[i])
    {
      TextIsCanonical(u[i], v[i]);
    }
  }

  // ---------- batch_rows ----------

  /** A staged row; `day` is market_date. The digests carry the remaining columns. */
  datatype Row = Row(key: Key, hash: ContentHash, day: int, retrieved: int)
  {
    function Id(): ContentId {
      ContentId(key, hash)
    }
  }

  datatype BatchError = TooLarge | WrongProduct | OutsideDay | WrongHub | DuplicateKey | Inexact

  predicate ExactValues(record: Observation) {
    forall i | 0 <= i < |record.Values()| :: Numeric(record.Values()[i]).Ok?
  }

  /** Why `record` cannot join a batch that already holds the keys `seen`, if it cannot. */
  function Problem(x: Externals, request: Request, seen: set<Key>, record: Observation): Option<BatchError> {
    if record.LmpObservation? != request.product.Lmp? then Some(WrongProduct)
    else if !x.InDay(record.start, request.day) || record.end > x.midnight(request.day + 1) then Some(OutsideDay)
    else if record.LmpObservation? && Some(record.hub) != request.hub then Some(WrongHub)
    else if record.LogicalKey() in seen then Some(DuplicateKey)
    else if !ExactValues(record) then Some(Inexact)
    else None
  }

  function KeysOf(records: seq<Observation>): set<Key> {
    set i | 0 <= i < |records| :: records[i].LogicalKey()
  }

  function FirstProblem(x: Externals, request: Request, records: seq<Observation>): Option<BatchError> {
    if records == [] then None
    else
      var front := records[..|records| - 1];
      match FirstProblem(x, request, front)
      case Some(e) => Some(e)
      case None => Problem(x, request, KeysOf(front), records[|records| - 1])
  }

  function Stage(request: Request, record: Observation): Row {
    Row(record.LogicalKey(), record.Hash(), request.day, record.retrieved)
  }

  function StageAll(request: Request, records: seq<Observation>): (r: seq<Row>)
    ensures |r| == |records|
  {
    seq(|records|, i requires 0 <= i < |records| => Stage(request, records[i]))
  }

  function RowOrder(x: Externals): Row -> real {
    (row: Row) => x.digestOrder(row.key)
  }

  /** What batch_rows returns. */
  function BatchOf(x: Externals, request: Request, records: seq<Observation>): Result<seq<Row>, BatchError> {
    if |records| > MAX_BATCH_ROWS then Err(TooLarge)
    else
      match FirstProblem(x, request, records)
      case Some(e) => Err(e)
      case None => Ok(SortBy(RowOrder(x), StageAll(request, records)))
  }

  lemma {:induction false} ProblemPersists(x: Externals, request: Request, records: seq<Observation>, i: nat)
    requires i <= |records| && FirstProblem(x, request, records[..i]).Some?
    ensures FirstProblem(x, request, records) == FirstProblem(x, request, records[..i])
    decreases |records| - i
  {
    if i == |records| {
      assert records[..i] == records;
    } else {
      assert records[..i + 1][..i] == records[..i];
      ProblemPersists(x, request, records, i + 1);
    }
  }

  lemma KeysGrow(records: seq<Observation>, i: nat)
    requires i < |records|
    ensures KeysOf(records[..i + 1]) == KeysOf(records[..i]) + {records[i].LogicalKey()}
  {
    var less, more := records[..i], records[..i + 1];
    assert more[i] == records[i];
    forall j | 0 <= j < i
      ensures less[j] == more[j]
    {
    }
  }

  method BatchRows(x: Externals, request: Request, records: seq<Observation>)
    returns (result: Result<seq<Row>, BatchError>)
    ensures result == BatchOf(x, request, records)
  {
    if |records| > MAX_BATCH_ROWS {
      return Err(TooLarge);
    }
    var rows: seq<Row> := [];
    var seen: set<Key> := {};
    var i := 0;
    while i < |records|
      invariant 0 <= i <= |records|
      invariant FirstProblem(x, request, records[..i]) == None
      invariant seen == KeysOf(records[..i])
      invariant rows == StageAll(request, records[..i])
    {
      var record := records[i];
      assert records[..i + 1][..i] == records[..i];
      var problem := Problem(x, request, seen, record);
      if problem.Some? {
        ProblemPersists(x, request, records, i + 1);
        return Err(problem.value);
      }
      seen := seen + {record.LogicalKey()};
      rows := rows + [Stage(request, record)];
      KeysGrow(records, i);
      i := i + 1;
    }
    assert records[..i] == records;
    result := Ok(SortBy(RowOrder(x), rows));
  }

  // ---------- what an accepted batch guarantees ----------

  ghost predicate DistinctLogicalKeys(records: seq<Observation>) {
    forall i, j | 0 <= i < j < |records| :: records[i].LogicalKey() != records[j].LogicalKey()
  }

  predicate Belongs(x: Externals, request: Request, record: Observation) {
    && (record.LmpObservation? <==> request.product.Lmp?)
    && x.InDay(record.start, request.day)
    && record.end <= x.midnight(request.day + 1)
    && (record.LmpObservation? ==> Some(record.hub) == request.hub)
    && ExactValues(record)
  }

  lemma {:induction false} NoProblemMeans(x: Externals, request: Request, records: seq<Observation>)
    ensures FirstProblem(x, request, records).None? <==>
            DistinctLogicalKeys(records) && forall i | 0 <= i < |records| :: Belongs(x, request, records[i])
  {
    if records != [] {
      var front, last := records[..|records| - 1], records[|records| - 1];
      NoProblemMeans(x, request, front);
      assert forall i | 0 <= i < |front| :: front[i] == records[i];
      assert last.LogicalKey() in KeysOf(front) <==>
               exists i :: 0 <= i < |front| && front[i].LogicalKey() == last.LogicalKey();
      if FirstProblem(x, request, records).None? {
        forall i, j | 0 <= i < j < |records|
          ensures records[i].LogicalKey() != records[j].LogicalKey()
        {
          if j < |front| {
            assert front[i].LogicalKey() != front[j].LogicalKey();
          }
        }
      }
      if DistinctLogicalKeys(records) && forall i | 0 <= i < |records| :: Belongs(x, request, records[i]) {
        assert records[|records| - 1] == last;
        assert forall i | 0 <= i < |front| :: records[i].LogicalKey() != last.LogicalKey();
      }
    }
  }

  /** batch_rows accepts exactly the small batches of distinct observations of the requested product,
      day and hub whose values NUMERIC holds exactly. */
  lemma BatchAccepts(x: Externals, request: Request, records: seq<Observation>)
    ensures BatchOf(x, request, records).Ok? <==>
            && |records| <= MAX_BATCH_ROWS
            && DistinctLogicalKeys(records)
            && forall i | 0 <= i < |records| :: Belongs(x, request, records[i])
  {
    NoProblemMeans(x, request, records);
  }

  ghost predicate UniqueKeys(rows: seq<Row>) {
    forall i, j | 0 <= i < j < |rows| :: rows[i].key != rows[j].key
  }

  /** The facts about a staged batch that the warehouse protocol depends on. */
  ghost predicate RowsOk(x: Externals, request: Request, rows: seq<Row>) {
    && UniqueKeys(rows)
    && forall row | row in rows :: RowOk(x, request, row)
  }

  predicate RowOk(x: Externals, request: Request, row: Row) {
    && row.day == request.day
    && row.key.product == request.product
    && row.key.hub == request.hub
    && row.hash.key == row.key
    && x.InDay(row.key.start, request.day)
  }

  lemma StagedDistinct(x: Externals, request: Request, records: seq<Observation>)
    requires x.Valid() && DistinctLogicalKeys(records)
    ensures DistinctKeys(RowOrder(x), StageAll(request, records))
  {
  }

  lemma BatchIsOk(x: Externals, request: Request, records: seq<Observation>)
    requires x.Valid() && ValidRequest(request) && BatchOf(x, request, records).Ok?
    ensures RowsOk(x, request, BatchOf(x, request, records).value)
    ensures |BatchOf(x, request, records).value| == |records|
    ensures multiset(BatchOf(x, request, records).value) == multiset(StageAll(request, records))
  {
    var staged := StageAll(request, records);
    var rows := BatchOf(x, request, records).value;
    NoProblemMeans(x, request, records);
    StagedDistinct(x, request, records);
    SortByCorrect(RowOrder(x), staged);
    MultisetDistinct(RowOrder(x), staged, rows);
    SameLength(staged, rows);
    assert UniqueKeys(rows) by {
      forall i, j | 0 <= i < j < |rows|
        ensures rows[i].key != rows[j].key
      {
        assert RowOrder(x)(rows[i]) < RowOrder(x)(rows[j]);
      }
    }
    forall row | row in rows
      ensures RowOk(x, request, row)
    {
      assert row in multiset(staged);
      var i :| 0 <= i < |staged| && staged[i] == row;
      assert Belongs(x, request, records[i]);
    }
  }

  function Without<T>(s: seq<T>, i: nat): (r: seq<T>)
    requires i < |s|
    ensures |r| == |s| - 1
  {
    s[..i] + s[i + 1..]
  }

  lemma RemoveAt<T>(s: seq<T>, i: nat)
    requires i < |s|
    ensures multiset(Without(s, i)) == multiset(s) - multiset{s[i]}
    ensures multiset(s) == multiset(Without(s, i)) + multiset{s[i]}
  {
    assert s == s[..i] + [s[i]] + s[i + 1..];
  }

  lemma StageRemoveAt(request: Request, s: seq<Observation>, i: nat)
    requires i < |s|
    ensures multiset(StageAll(request, s)) ==
              multiset(StageAll(request, Without(s, i))) + multiset{Stage(request, s[i])}
  {
    var staged := StageAll(request, s);
    RemoveAt(staged, i);
    assert Without(staged, i) == StageAll(request, Without(s, i));
  }

  lemma {:induction false} StagePermutes(request: Request, a: seq<Observation>, b: seq<Observation>)
    requires multiset(a) == multiset(b)
    ensures multiset(StageAll(request, a)) == multiset(StageAll(request, b))
    decreases |a|
  {
    SameLength(a, b);
    if a != [] {
      assert a[0] in multiset(b);
      var i :| 0 <= i < |b| && b[i] == a[0];
      RemoveAt(a, 0);
      RemoveAt(b, i);
      StagePermutes(request, Without(a, 0), Without(b, i));
      StageRemoveAt(request, a, 0);
      StageRemoveAt(request, b, i);
    }
  }

  lemma DistinctPermutes(a: seq<Observation>, b: seq<Observation>)
    requires multiset(a) == multiset(b) && DistinctLogicalKeys(a)
    ensures DistinctLogicalKeys(b)
  {
    forall i, j | 0 <= i < j < |b|
      ensures b[i].LogicalKey() != b[j].LogicalKey()
    {
      assert b[i] in multiset(a) && b[j] in multiset(a);
      if b[i].LogicalKey() == b[j].LogicalKey() {
        var p :| 0 <= p < |a| && a[p] == b[i];
        var q :| 0 <= q < |a| && a[q] == b[j];
        assert p == q;
        TwoPlaces(b, i, j);
        OccursOnce(a, b[i]);
      }
    }
  }

  lemma {:induction false} OccursOnce(a: seq<Observation>, e: Observation)
    requires DistinctLogicalKeys(a)
    ensures multiset(a)[e] <= 1
  {
    if a != [] {
      var front := a[..|a| - 1];
      assert a == front + [a[|a| - 1]];
      assert forall i | 0 <= i < |front| :: front[i] == a[i];
      OccursOnce(front, e);
      if a[|a| - 1] == e {
        assert e !in front;
      }
    }
  }

  /** The order in which the source returned the observations has no effect on the batch. */
  lemma BatchOrderFree(x: Externals, request: Request, a: seq<Observation>, b: seq<Observation>)
    requires x.Valid() && multiset(a) == multiset(b) && BatchOf(x, request, a).Ok?
    ensures BatchOf(x, request, b) == BatchOf(x, request, a)
  {
    SameLength(a, b);
    NoProblemMeans(x, request, a);
    DistinctPermutes(a, b);
    forall i | 0 <= i < |b|
      ensures Belongs(x, request, b[i])
    {
      assert b[i] in multiset(a);
    }
    NoProblemMeans(x, request, b);
    StagedDistinct(x, request, a);
    StagePermutes(request, a, b);
    SortByOrderFree(RowOrder(x), StageAll(request, a), StageAll(request, b));
  }
}
