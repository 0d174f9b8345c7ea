// The reference: the accepted batches applied one after another by a single writer who always sees
// the whole tables, and the revision trace of one logical key that this writes.
module Replay {
  import opened Base
  import opened Batches
  import opened Planner
  import opened Facts
  import opened Protocol

  // ---------- the serial warehouse ----------

  function FullSnapshot(tables: Tables, sequence: nat): Snapshot {
    Snapshot(sequence, IdsOf(tables.contents), LatestOf(tables.transitions))
  }

  /** One more batch, committed at `sequence + 1` by a planner that saw all of `tables`. */
  function Apply(tables: Tables, sequence: nat, batch: Batch): Tables {
    var plan := PlanOf(batch.run, batch.rows, FullSnapshot(tables, sequence));
    Tables(tables.contents + plan.contents, tables.transitions + plan.transitions)
  }

  function Serial(log: seq<Batch>, product: Product): Tables {
    if log == [] then Tables([], [])
    else
      var front, batch := log[..|log| - 1], log[|log| - 1];
      if batch.request.product != product then Serial(front, product)
      else Apply(Serial(front, product), |front|, batch)
  }

  /** Batches as batch_rows makes them, each under its own run. */
  ghost predicate LogOk(x: Externals, log: seq<Batch>) {
    && (forall i | 0 <= i < |log| :: RowsOk(x, log[i].request, log[i].rows))
    && (forall i, j | 0 <= i < j < |log| :: log[i].run != log[j].run)
  }

  lemma LogOkFront(x: Externals, log: seq<Batch>, n: nat)
    requires LogOk(x, log) && n <= |log|
    ensures LogOk(x, log[..n])
  {
  }

  lemma {:induction false} SerialGrows(log: seq<Batch>, n: nat, product: Product)
    requires n <= |log|
    ensures Serial(log[..n], product).contents <= Serial(log, product).contents
    ensures Serial(log[..n], product).transitions <= Serial(log, product).transitions
    decreases |log|
  {
    if n < |log| {
      assert log[..|log| - 1][..n] == log[..n];
      SerialGrows(log[..|log| - 1], n, product);
    } else {
      assert log[..n] == log;
    }
  }

  // ---------- the revision trace of one key ----------

  datatype Revision = Revision(hash: ContentHash, sequence: nat, run: RunId, day: int, retrieved: int)

  function Extend(trace: seq<Revision>, sequence: nat, batch: Batch, key: Key): seq<Revision> {
    match RowFor(batch.rows, key)
    case None => trace
    case Some(row) =>
      if trace != [] && trace[|trace| - 1].hash == row.hash then trace
      else trace + [Revision(row.hash, sequence, batch.run, row.day, row.retrieved)]
  }

  /** Every accepted batch that changed the content of `key`, oldest first. */
  function Trace(log: seq<Batch>, key: Key): seq<Revision> {
    if log == [] then [] else Extend(Trace(log[..|log| - 1], key), |log|, log[|log| - 1], key)
  }

  function Recorded(trace: seq<Revision>, key: Key): seq<Transition> {
    seq(|trace|, i requires 0 <= i < |trace| =>
      Transition(trace[i].run, key, trace[i].hash, trace[i].day, i + 1, trace[i].sequence, trace[i].retrieved, None))
  }

  function HasKey(key: Key): Transition -> bool {
    (t: Transition) => t.key == key
  }

  function OfKey(transitions: seq<Transition>, key: Key): seq<Transition> {
    Where(transitions, HasKey(key))
  }

  lemma {:induction false} LatestOfKey(ts: seq<Transition>, key: Key)
    requires forall i | 0 <= i < |OfKey(ts, key)| :: OfKey(ts, key)[i].ordinal == i + 1
    ensures OfKey(ts, key) == [] <==> key !in LatestOf(ts)
    ensures OfKey(ts, key) != [] ==>
              var last := OfKey(ts, key)[|OfKey(ts, key)| - 1];
              LatestOf(ts)[key] == Latest(last.hash, |OfKey(ts, key)|)
  {
    if ts != [] {
      var front := ts[..|ts| - 1];
      assert OfKey(front, key) <= OfKey(ts, key);
      LatestOfKey(front, key);
    }
  }

  lemma {:induction false} NewOfKey(run: RunId, rows: seq<Row>, snap: Snapshot, key: Key)
    requires UniqueKeys(rows)
    ensures OfKey(NewTransitions(run, rows, snap), key) ==
            match RowFor(rows, key)
            case None => []
            case Some(row) => if Changes(snap, row) then [TransitionRow(run, snap, row)] else []
  {
    if rows != [] {
      var front, last := rows[..|rows| - 1], rows[|rows| - 1];
      UniqueFront(rows);
      NewOfKey(run, front, snap, key);
      RowForFinds(front, key, last);
      var tail := if Changes(snap, last) then [TransitionRow(run, snap, last)] else [];
      WhereConcat(NewTransitions(run, front, snap), tail, HasKey(key));
      assert OfKey(tail, key) == if last.key == key then tail else [];
      LastIsNew(rows);
    }
  }

  lemma UniqueFront(rows: seq<Row>)
    requires UniqueKeys(rows) && rows != []
    ensures UniqueKeys(rows[..|rows| - 1])
  {
    var front := rows[..|rows| - 1];
    forall i, j | 0 <= i < j < |front|
      ensures front[i].key != front[j].key
    {
      assert rows[i].key != rows[j].key;
    }
  }

  lemma LastIsNew(rows: seq<Row>)
    requires UniqueKeys(rows) && rows != []
    ensures forall r | r in rows[..|rows| - 1] :: r.key != rows[|rows| - 1].key
  {
  }

  lemma ForeignKey(x: Externals, request: Request, rows: seq<Row>, key: Key)
    requires RowsOk(x, request, rows) && key.product != request.product
    ensures RowFor(rows, key) == None
  {
  }

  lemma LatestMatchesTrace(ts: seq<Transition>, trace: seq<Revision>, key: Key)
    requires OfKey(ts, key) == Recorded(trace, key)
    ensures trace == [] <==> key !in LatestOf(ts)
    ensures trace != [] ==> LatestOf(ts)[key] == Latest(trace[|trace| - 1].hash, |trace|)
  {
    LatestOfKey(ts, key);
  }

  ghost predicate ShowsTrace(snap: Snapshot, trace: seq<Revision>, key: Key) {
    && (trace == [] <==> key !in snap.latest)
    && (trace != [] ==> snap.latest[key] == Latest(trace[|trace| - 1].hash, |trace|))
  }

  lemma PlanExtends(snap: Snapshot, batch: Batch, trace: seq<Revision>, key: Key)
    requires UniqueKeys(batch.rows) && ShowsTrace(snap, trace, key)
    ensures Recorded(trace, key) + OfKey(NewTransitions(batch.run, batch.rows, snap), key)
            == Recorded(Extend(trace, snap.sequence + 1, batch, key), key)
  {
    NewOfKey(batch.run, batch.rows, snap, key);
    if RowFor(batch.rows, key).Some? {
      var row := RowFor(batch.rows, key).value;
      RecordedExtends(trace, key, Revision(row.hash, snap.sequence + 1, batch.run, row.day, row.retrieved));
    }
  }

  lemma ApplyExtends(tables: Tables, sequence: nat, batch: Batch, trace: seq<Revision>, key: Key)
    requires UniqueKeys(batch.rows)
    requires OfKey(tables.transitions, key) == Recorded(trace, key)
    ensures OfKey(Apply(tables, sequence, batch).transitions, key) ==
              Recorded(Extend(trace, sequence + 1, batch, key), key)
  {
    var snap := FullSnapshot(tables, sequence);
    LatestMatchesTrace(tables.transitions, trace, key);
    PlanExtends(snap, batch, trace, key);
    WhereConcat(tables.transitions, NewTransitions(batch.run, batch.rows, snap), HasKey(key));
  }

  lemma RecordedExtends(trace: seq<Revision>, key: Key, r: Revision)
    ensures Recorded(trace + [r], key) ==
            Recorded(trace, key) + [Transition(r.run, key, r.hash, r.day, |trace| + 1, r.sequence, r.retrieved, None)]
  {
  }

  /** The transitions stored for a key are its trace, numbered 1..n. */
  lemma {:induction false} SerialIsTrace(x: Externals, log: seq<Batch>, key: Key)
    requires LogOk(x, log)
    ensures OfKey(Serial(log, key.product).transitions, key) == Recorded(Trace(log, key), key)
  {
    if log != [] {
      var n := |log| - 1;
      LogOkFront(x, log, n);
      SerialIsTrace(x, log[..n], key);
      assert RowsOk(x, log[n].request, log[n].rows);
      if log[n].request.product != key.product {
        ForeignKey(x, log[n].request, log[n].rows, key);
      } else {
        ApplyExtends(Serial(log[..n], key.product), n, log[n], Trace(log[..n], key), key);
      }
    }
  }

  lemma SerialLatest(x: Externals, log: seq<Batch>, key: Key)
    requires LogOk(x, log)
    ensures var trace := Trace(log, key);
            var latest := LatestOf(Serial(log, key.product).transitions);
            (trace == [] <==> key !in latest) &&
            (trace != [] ==> latest[key] == Latest(trace[|trace| - 1].hash, |trace|))
  {
    SerialIsTrace(x, log, key);
    LatestMatchesTrace(Serial(log, key.product).transitions, Trace(log, key), key);
  }

  // ---------- the trace is the stutter-free list of accepted contents ----------

  /** Every accepted content of `key`, repeats included, in commit order. */
  function Readings(log: seq<Batch>, key: Key): seq<ContentHash> {
    if log == [] then []
    else
      Readings(log[..|log| - 1], key) +
      match RowFor(log[|log| - 1].rows, key) case None => [] case Some(row) => [row.hash]
  }

  /** Consecutive repeats removed. */
  function Destutter(s: seq<ContentHash>): seq<ContentHash> {
    if |s| <= 1 then s
    else if s[0] == s[1] then Destutter(s[1..])
    else [s[0]] + Destutter(s[1..])
  }

  function Hashes(trace: seq<Revision>): seq<ContentHash> {
    seq(|trace|, i requires 0 <= i < |trace| => trace[i].hash)
  }

  lemma {:induction false} DestutterAppend(s: seq<ContentHash>, h: ContentHash)
    requires s != []
    ensures Destutter(s + [h]) == if s[|s| - 1] == h then Destutter(s) else Destutter(s) + [h]
    ensures Destutter(s) != [] && Destutter(s)[|Destutter(s)| - 1] == s[|s| - 1]
  {
    if |s| > 1 {
      assert (s + [h])[1..] == s[1..] + [h];
      DestutterAppend(s[1..], h);
    } else {
      assert (s + [h])[1..] == [h];
    }
  }

  lemma ExtendHashes(trace: seq<Revision>, sequence: nat, batch: Batch, key: Key)
    ensures var hashes := Hashes(trace);
            Hashes(Extend(trace, sequence, batch, key)) ==
            match RowFor(batch.rows, key)
            case None => hashes
            case Some(row) => if hashes != [] && hashes[|hashes| - 1] == row.hash then hashes else hashes + [row.hash]
  {
  }

  /** A repeat of the latest content leaves no trace; a return to an older one does (A, A, B, A gives A, B, A). */
  lemma {:induction false} TraceIsStutterFree(log: seq<Batch>, key: Key)
    ensures Hashes(Trace(log, key)) == Destutter(Readings(log, key))
  {
    if log != [] {
      var front, batch := log[..|log| - 1], log[|log| - 1];
      TraceIsStutterFree(front, key);
      ExtendHashes(Trace(front, key), |log|, batch, key);
      var readings := Readings(front, key);
      if RowFor(batch.rows, key).Some? {
        if readings != [] {
          DestutterAppend(readings, RowFor(batch.rows, key).value.hash);
        }
      } else {
        assert Readings(log, key) == readings;
      }
    }
  }

  /** Neighbouring revisions differ, and each was written by the batch committed at its sequence. */
  ghost predicate Ordered(trace: seq<Revision>, log: seq<Batch>) {
    && (forall i | 0 < i < |trace| :: trace[i].hash != trace[i - 1].hash)
    && (forall i | 0 <= i < |trace| ::
          1 <= trace[i].sequence <= |log| && trace[i].run == log[trace[i].sequence - 1].run)
    && (forall i, j | 0 <= i < j < |trace| :: trace[i].sequence < trace[j].sequence)
  }

  lemma OneMoreOrdered(trace: seq<Revision>, log: seq<Batch>, batch: Batch, r: Revision)
    requires Ordered(trace, log) && r.sequence == |log| + 1 && r.run == batch.run
    requires trace != [] ==> trace[|trace| - 1].hash != r.hash
    ensures Ordered(trace + [r], log + [batch])
  {
  }

  lemma SameOrdered(trace: seq<Revision>, log: seq<Batch>, batch: Batch)
    requires Ordered(trace, log)
    ensures Ordered(trace, log + [batch])
  {
  }

  lemma ExtendOrdered(trace: seq<Revision>, log: seq<Batch>, batch: Batch, key: Key)
    requires Ordered(trace, log)
    ensures Ordered(Extend(trace, |log| + 1, batch, key), log + [batch])
  {
    var more := Extend(trace, |log| + 1, batch, key);
    if more == trace {
      SameOrdered(trace, log, batch);
    } else {
      OneMoreOrdered(trace, log, batch, more[|trace|]);
    }
  }

  lemma {:induction false} TraceIsOrdered(log: seq<Batch>, key: Key)
    ensures Ordered(Trace(log, key), log)
  {
    if log != [] {
      var front := log[..|log| - 1];
      TraceIsOrdered(front, key);
      ExtendOrdered(Trace(front, key), front, log[|log| - 1], key);
      assert log == front + [log[|log| - 1]];
    }
  }

  // ---------- the stored contents ----------

  ghost predicate UniqueIds(contents: seq<Content>) {
    forall i, j | 0 <= i < j < |contents| :: contents[i].Id() != contents[j].Id()
  }

  lemma IdsConcat(a: seq<Content>, b: seq<Content>)
    ensures IdsOf(a + b) == IdsOf(a) + IdsOf(b)
  {
    forall id
      ensures id in IdsOf(a + b) <==> id in IdsOf(a) + IdsOf(b)
    {
      if id in IdsOf(a) {
        var i :| 0 <= i < |a| && a[i].Id() == id;
        assert (a + b)[i].Id() == id;
      }
      if id in IdsOf(b) {
        var i :| 0 <= i < |b| && b[i].Id() == id;
        assert (a + b)[|a| + i].Id() == id;
      }
    }
  }

  lemma IdsMember(contents: seq<Content>, id: ContentId)
    ensures id in IdsOf(contents) <==> exists c :: c in contents && c.Id() == id
  {
    if exists c :: c in contents && c.Id() == id {
      var c :| c in contents && c.Id() == id;
      var i :| 0 <= i < |contents| && contents[i] == c;
      assert contents[i].Id() == id;
    }
  }

  lemma NewIds(run: RunId, rows: seq<Row>, snap: Snapshot, id: ContentId)
    ensures id in IdsOf(NewContents(run, rows, snap)) <==>
              id !in snap.ids && exists row :: row in rows && row.Id() == id
  {
    IdsMember(NewContents(run, rows, snap), id);
    if id in IdsOf(NewContents(run, rows, snap)) {
      var c :| c in NewContents(run, rows, snap) && c.Id() == id;
      NewContentMember(run, rows, snap, c);
    }
    if id !in snap.ids && exists row :: row in rows && row.Id() == id {
      var row :| row in rows && row.Id() == id;
      NewContentMember(run, rows, snap, ContentRow(run, row));
      assert ContentRow(run, row) in NewContents(run, rows, snap) && ContentRow(run, row).Id() == id;
    }
  }

  lemma {:induction false} NewContentsUnique(run: RunId, rows: seq<Row>, snap: Snapshot)
    requires UniqueKeys(rows)
    ensures UniqueIds(NewContents(run, rows, snap))
  {
    if rows != [] {
      var front, last := rows[..|rows| - 1], rows[|rows| - 1];
      UniqueFront(rows);
      LastIsNew(rows);
      NewContentsUnique(run, front, snap);
      var earlier := NewContents(run, front, snap);
      forall i | 0 <= i < |earlier|
        ensures earlier[i].Id() != last.Id()
      {
        NewContentMember(run, front, snap, earlier[i]);
      }
    }
  }

  lemma UniqueIdsConcat(a: seq<Content>, b: seq<Content>)
    requires UniqueIds(a) && UniqueIds(b) && IdsOf(a) !! IdsOf(b)
    ensures UniqueIds(a + b)
  {
    forall i, j | 0 <= i < j < |a + b|
      ensures (a + b)[i].Id() != (a + b)[j].Id()
    {
      if i < |a| <= j {
        assert a[i].Id() in IdsOf(a) && b[j - |a|].Id() in IdsOf(b);
      }
    }
  }

  lemma ApplyContents(tables: Tables, sequence: nat, batch: Batch)
    requires UniqueKeys(batch.rows) && UniqueIds(tables.contents)
    ensures var after := Apply(tables, sequence, batch).contents;
            && UniqueIds(after)
            && forall id :: id in IdsOf(after) <==>
                 id in IdsOf(tables.contents) || exists row :: row in batch.rows && row.Id() == id
  {
    var snap := FullSnapshot(tables, sequence);
    var added := NewContents(batch.run, batch.rows, snap);
    NewContentsUnique(batch.run, batch.rows, snap);
    IdsConcat(tables.contents, added);
    forall id
      ensures id in IdsOf(added) <==> id !in snap.ids && exists row :: row in batch.rows && row.Id() == id
    {
      NewIds(batch.run, batch.rows, snap, id);
    }
    UniqueIdsConcat(tables.contents, added);
  }

  /** No content is ever stored twice, without any key constraint in the database. */
  lemma {:induction false} SerialContentsUnique(x: Externals, log: seq<Batch>, product: Product)
    requires LogOk(x, log)
    ensures UniqueIds(Serial(log, product).contents)
  {
    if log != [] {
      LogOkFront(x, log, |log| - 1);
      SerialContentsUnique(x, log[..|log| - 1], product);
      assert RowsOk(x, log[|log| - 1].request, log[|log| - 1].rows);
      if log[|log| - 1].request.product == product {
        ApplyContents(Serial(log[..|log| - 1], product), |log| - 1, log[|log| - 1]);
      }
    }
  }

  /** A content is stored exactly when some accepted batch carried it. */
  lemma {:induction false} SerialContentsAccepted(x: Externals, log: seq<Batch>, product: Product, id: ContentId)
    requires LogOk(x, log)
    ensures id in IdsOf(Serial(log, product).contents) <==>
            exists i, row :: 0 <= i < |log| && log[i].request.product == product && row in log[i].rows && row.Id() == id
  {
    if log != [] {
      var front, batch := log[..|log| - 1], log[|log| - 1];
      LogOkFront(x, log, |log| - 1);
      SerialContentsAccepted(x, front, product, id);
      SerialContentsUnique(x, front, product);
      assert RowsOk(x, batch.request, batch.rows);
      assert forall i | 0 <= i < |front| :: front[i] == log[i];
      if batch.request.product == product {
        ApplyContents(Serial(front, product), |front|, batch);
      }
      if i, row :| 0 <= i < |log| && log[i].request.product == product && row in log[i].rows && row.Id() == id {
        if i < |front| {
          assert front[i] == log[i] && row in front[i].rows;
        }
      }
      if i, row :| 0 <= i < |front| && front[i].request.product == product && row in front[i].rows && row.Id() == id {
        assert log[i] == front[i] && row in log[i].rows;
      }
    }
  }

  /** The batch that stored a content is the first one that carried it. */
  lemma {:induction false} ContentOrigin(x: Externals, log: seq<Batch>, product: Product, c: Content) returns (i: nat)
    requires LogOk(x, log) && c in Serial(log, product).contents
    ensures i < |log| && log[i].request.product == product
    ensures log[i].run == c.firstRun && Row(c.key, c.hash, c.day, c.retrieved) in log[i].rows && c.firstSeen.None?
    ensures forall j, row | 0 <= j < i && row in log[j].rows :: row.Id() != c.Id()
  {
    var n := |log| - 1;
    var front, batch := log[..n], log[n];
    LogOkFront(x, log, n);
    if c in Serial(front, product).contents {
      i := ContentOrigin(x, front, product, c);
      assert forall j | 0 <= j <= i :: front[j] == log[j];
    } else {
      i := n;
      var snap := FullSnapshot(Serial(front, product), n);
      assert c in NewContents(batch.run, batch.rows, snap);
      NewContentMember(batch.run, batch.rows, snap, c);
      forall j, row | 0 <= j < n && row in log[j].rows
        ensures row.Id() != c.Id()
      {
        SerialContentsAccepted(x, front, product, c.Id());
        assert front[j] == log[j];
        assert RowsOk(x, log[j].request, log[j].rows) && RowsOk(x, batch.request, batch.rows);
      }
    }
  }

  // ---------- the stored transitions ----------

  /** Every transition was written by the batch committed at its commit_sequence. */
  lemma {:induction false} TransitionOrigin(x: Externals, log: seq<Batch>, product: Product, t: Transition)
    requires LogOk(x, log) && t in Serial(log, product).transitions
    ensures 1 <= t.sequence <= |log| && log[t.sequence - 1].request.product == product
    ensures log[t.sequence - 1].run == t.run && Row(t.key, t.hash, t.day, t.retrieved) in log[t.sequence - 1].rows
    ensures t.known.None?
  {
    var n := |log| - 1;
    LogOkFront(x, log, n);
    if t in Serial(log[..n], product).transitions {
      TransitionOrigin(x, log[..n], product, t);
    } else {
      var snap := FullSnapshot(Serial(log[..n], product), n);
      NewTransitionMember(log[n].run, log[n].rows, snap, t);
    }
  }

  ghost predicate UniqueStates(transitions: seq<Transition>) {
    forall i, j | 0 <= i < j < |transitions| :: transitions[i].Id() != transitions[j].Id()
  }

  ghost predicate CommitOrdered(transitions: seq<Transition>) {
    forall i, j | 0 <= i < j < |transitions| :: transitions[i].sequence <= transitions[j].sequence
  }

  lemma {:induction false} NewTransitionsUnique(run: RunId, rows: seq<Row>, snap: Snapshot)
    requires UniqueKeys(rows)
    ensures UniqueStates(NewTransitions(run, rows, snap))
    ensures forall t | t in NewTransitions(run, rows, snap) :: t.run == run && t.sequence == snap.sequence + 1
  {
    if rows != [] {
      var front, last := rows[..|rows| - 1], rows[|rows| - 1];
      UniqueFront(rows);
      LastIsNew(rows);
      NewTransitionsUnique(run, front, snap);
      var earlier := NewTransitions(run, front, snap);
      forall i | 0 <= i < |earlier|
        ensures earlier[i].key != last.key
      {
        NewTransitionMember(run, front, snap, earlier[i]);
      }
    }
  }

  /** Transition IDs are unique and the table grows in commit order. */
  lemma {:induction false} SerialTransitionsUnique(x: Externals, log: seq<Batch>, product: Product)
    requires LogOk(x, log)
    ensures UniqueStates(Serial(log, product).transitions) && CommitOrdered(Serial(log, product).transitions)
  {
    if log != [] {
      var n := |log| - 1;
      LogOkFront(x, log, n);
      SerialTransitionsUnique(x, log[..n], product);
      assert RowsOk(x, log[n].request, log[n].rows);
      if log[n].request.product == product {
        var before := Serial(log[..n], product).transitions;
        var snap := FullSnapshot(Serial(log[..n], product), n);
        var added := NewTransitions(log[n].run, log[n].rows, snap);
        NewTransitionsUnique(log[n].run, log[n].rows, snap);
        forall i | 0 <= i < |before|
          ensures before[i].sequence <= n && before[i].run != log[n].run
        {
          TransitionOrigin(x, log[..n], product, before[i]);
        }
      }
    }
  }

  /** Every transition refers to a stored content. */
  lemma TransitionsHaveContents(x: Externals, log: seq<Batch>, product: Product, t: Transition)
    requires LogOk(x, log) && t in Serial(log, product).transitions
    ensures t.Content() in IdsOf(Serial(log, product).contents)
  {
    TransitionOrigin(x, log, product, t);
    SerialContentsAccepted(x, log, product, t.Content());
    var row := Row(t.key, t.hash, t.day, t.retrieved);
    assert row in log[t.sequence - 1].rows && row.Id() == t.Content();
  }
}
