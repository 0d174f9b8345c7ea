// Fetching the same data again (sources/caiso.py): every fetch stamps its observations with a new retrieval
// time, and nothing the warehouse keeps about a key depends on it.
module Fetches {
  import opened Sorting
  import opened Batches
  import opened Planner

  /** The content hashes of a batch: what it says about which key, whatever the order of its observations,
      the spelling of their values and the time of their retrieval. */
  function HashesIn(records: seq<Observation>): set<ContentHash> {
    set i | 0 <= i < |records| :: records[i].Hash()
  }

  predicate SameData(a: seq<Observation>, b: seq<Observation>) {
    HashesIn(a) == HashesIn(b)
  }

  /** The same observations, retrieved at another time. */
  function RetrievedAt(records: seq<Observation>, at: int): (r: seq<Observation>)
    ensures |r| == |records|
  {
    seq(|records|, i requires 0 <= i < |records| => records[i].(retrieved := at))
  }

  lemma RetrievalKeepsData(records: seq<Observation>, at: int)
    ensures SameData(RetrievedAt(records, at), records)
  {
    var again := RetrievedAt(records, at);
    assert forall i | 0 <= i < |records| :: again[i].Hash() == records[i].Hash();
    forall i | 0 <= i < |records|
      ensures records[i].Hash() in HashesIn(again)
    {
      assert again[i].Hash() in HashesIn(again);
    }
  }

  /** A batch is acceptable whenever it was retrieved. */
  lemma RetrievalKeepsAcceptance(x: Externals, request: Request, records: seq<Observation>, at: int)
    ensures BatchOf(x, request, RetrievedAt(records, at)).Ok? <==> BatchOf(x, request, records).Ok?
  {
    var again := RetrievedAt(records, at);
    BatchAccepts(x, request, records);
    BatchAccepts(x, request, again);
    forall i | 0 <= i < |records|
      ensures again[i].LogicalKey() == records[i].LogicalKey()
      ensures Belongs(x, request, again[i]) <==> Belongs(x, request, records[i])
    {
      assert again[i].Values() == records[i].Values();
    }
    if DistinctLogicalKeys(again) {
      forall i, j | 0 <= i < j < |records|
        ensures records[i].LogicalKey() != records[j].LogicalKey()
      {
        assert again[i].LogicalKey() != again[j].LogicalKey();
      }
    }
  }

  /** The rows of an accepted batch carry exactly its content hashes. */
  lemma RowsCarryData(x: Externals, request: Request, records: seq<Observation>, hash: ContentHash)
    requires BatchOf(x, request, records).Ok?
    ensures hash in HashesIn(records) <==> exists row :: row in BatchOf(x, request, records).value && row.hash == hash
  {
    var staged := StageAll(request, records);
    var rows := BatchOf(x, request, records).value;
    SortByCorrect(RowOrder(x), staged);
    if hash in HashesIn(records) {
      var i :| 0 <= i < |records| && records[i].Hash() == hash;
      assert staged[i] in multiset(rows);
    }
    if row :| row in rows && row.hash == hash {
      assert row in multiset(staged);
      var i :| 0 <= i < |staged| && staged[i] == row;
      assert records[i].Hash() == hash;
    }
  }

  /** Acceptable batches with the same data, whenever they were fetched, give the same reading of every key. */
  lemma SameDataReads(x: Externals, request: Request, a: seq<Observation>, b: seq<Observation>, key: Key)
    requires SameData(a, b) && BatchOf(x, request, a).Ok? && BatchOf(x, request, b).Ok?
    requires RowsOk(x, request, BatchOf(x, request, a).value) && RowsOk(x, request, BatchOf(x, request, b).value)
    ensures var mine := RowFor(BatchOf(x, request, a).value, key);
            var theirs := RowFor(BatchOf(x, request, b).value, key);
            (mine.Some? <==> theirs.Some?) && (mine.Some? ==> mine.value.hash == theirs.value.hash)
  {
    if RowFor(BatchOf(x, request, a).value, key).Some? {
      FindsSameHash(x, request, a, b, RowFor(BatchOf(x, request, a).value, key).value);
    }
    if RowFor(BatchOf(x, request, b).value, key).Some? {
      FindsSameHash(x, request, b, a, RowFor(BatchOf(x, request, b).value, key).value);
    }
  }

  lemma FindsSameHash(x: Externals, request: Request, a: seq<Observation>, b: seq<Observation>, row: Row)
    requires SameData(a, b) && BatchOf(x, request, a).Ok? && BatchOf(x, request, b).Ok?
    requires RowsOk(x, request, BatchOf(x, request, a).value) && RowsOk(x, request, BatchOf(x, request, b).value)
    requires row in BatchOf(x, request, a).value
    ensures var found := RowFor(BatchOf(x, request, b).value, row.key);
            found.Some? && found.value.hash == row.hash
  {
    RowsCarryData(x, request, a, row.hash);
    RowsCarryData(x, request, b, row.hash);
    var same :| same in BatchOf(x, request, b).value && same.hash == row.hash;
    assert RowOk(x, request, row) && RowOk(x, request, same);
    RowForFinds(BatchOf(x, request, b).value, row.key, same);
  }
}
