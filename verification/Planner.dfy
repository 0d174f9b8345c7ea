// The stored rows and the write planner (plan_write in warehouse/model.py).
module Planner {
  import opened Base
  import opened Batches

  /** One row of a *_contents table; first_seen_at is NULL until its run is finalized. */
  datatype Content = Content(key: Key, hash: ContentHash, day: int, retrieved: int, firstRun: RunId,
                             firstSeen: Option<nat>)
  {
    function Id(): ContentId {
      ContentId(key, hash)
    }
  }

  /** One row of a *_state_transitions table; known_at is NULL until its run is finalized. */
  datatype Transition = Transition(run: RunId, key: Key, hash: ContentHash, day: int, ordinal: nat, sequence: nat,
                                   retrieved: int, known: Option<nat>)
  {
    function Id(): TransitionId {
      TransitionId(run, key)
    }

    function Content(): ContentId {
      ContentId(key, hash)
    }
  }

  datatype Latest = Latest(hash: ContentHash, ordinal: nat)
  datatype Snapshot = Snapshot(sequence: nat, ids: set<ContentId>, latest: map<Key, Latest>)
  datatype Plan = Plan(contents: seq<Content>, transitions: seq<Transition>, batchHash: map<Key, ContentHash>,
                       accepted: nat, expected: nat)

  // ---------- what the planner computes ----------

  predicate Changes(snap: Snapshot, row: Row) {
    row.key !in snap.latest || snap.latest[row.key].hash != row.hash
  }

  function ContentRow(run: RunId, row: Row): Content {
    Content(row.key, row.hash, row.day, row.retrieved, run, None)
  }

  function TransitionRow(run: RunId, snap: Snapshot, row: Row): Transition {
    var ordinal := if row.key in snap.latest then snap.latest[row.key].ordinal + 1 else 1;
    Transition(run, row.key, row.hash, row.day, ordinal, snap.sequence + 1, row.retrieved, None)
  }

  function NewContents(run: RunId, rows: seq<Row>, snap: Snapshot): seq<Content> {
    if rows == [] then []
    else
      var row := rows[|rows| - 1];
      NewContents(run, rows[..|rows| - 1], snap) + if row.Id() in snap.ids then [] else [ContentRow(run, row)]
  }

  function NewTransitions(run: RunId, rows: seq<Row>, snap: Snapshot): seq<Transition> {
    if rows == [] then []
    else
      var row := rows[|rows| - 1];
      NewTransitions(run, rows[..|rows| - 1], snap) + if Changes(snap, row) then [TransitionRow(run, snap, row)] else []
  }

  function Fingerprint(rows: seq<Row>): map<Key, ContentHash> {
    if rows == [] then map[]
    else Fingerprint(rows[..|rows| - 1])[rows[|rows| - 1].key := rows[|rows| - 1].hash]
  }

  function PlanOf(run: RunId, rows: seq<Row>, snap: Snapshot): Plan {
    Plan(NewContents(run, rows, snap), NewTransitions(run, rows, snap), Fingerprint(rows), |rows|, snap.sequence)
  }

  method PlanWrite(run: RunId, rows: seq<Row>, snap: Snapshot) returns (plan: Plan)
    ensures plan == PlanOf(run, rows, snap)
  {
    var contents: seq<Content> := [];
    var transitions: seq<Transition> := [];
    var fingerprint: map<Key, ContentHash> := map[];
    for i := 0 to |rows|
      invariant contents == NewContents(run, rows[..i], snap)
      invariant transitions == NewTransitions(run, rows[..i], snap)
      invariant fingerprint == Fingerprint(rows[..i])
    {
      var row := rows[i];
      assert rows[..i + 1][..i] == rows[..i];
      fingerprint := fingerprint[row.key := row.hash];
      if row.Id() !in snap.ids {
        contents := contents + [ContentRow(run, row)];
      }
      if Changes(snap, row) {
        transitions := transitions + [TransitionRow(run, snap, row)];
      }
    }
    assert rows[..|rows|] == rows;
    plan := Plan(contents, transitions, fingerprint, |rows|, snap.sequence);
  }

  // ---------- what a plan depends on and what it contains ----------

  /** A plan looks at a snapshot only through the keys and contents of its own rows. */
  ghost predicate AgreeOn(rows: seq<Row>, a: Snapshot, b: Snapshot) {
    && a.sequence == b.sequence
    && forall row | row in rows ::
         && (row.Id() in a.ids <==> row.Id() in b.ids)
         && (row.key in a.latest <==> row.key in b.latest)
         && (row.key in a.latest ==> a.latest[row.key] == b.latest[row.key])
  }

  lemma {:induction false} PlanAgrees(run: RunId, rows: seq<Row>, a: Snapshot, b: Snapshot)
    requires AgreeOn(rows, a, b)
    ensures PlanOf(run, rows, a) == PlanOf(run, rows, b)
  {
    if rows != [] {
      assert rows == rows[..|rows| - 1] + [rows[|rows| - 1]];
      PlanAgrees(run, rows[..|rows| - 1], a, b);
    }
  }

  /** The only row of a batch about `key`. */
  function RowFor(rows: seq<Row>, key: Key): (r: Option<Row>)
    ensures r.Some? ==> r.value in rows && r.value.key == key
  {
    if rows == [] then None
    else if rows[|rows| - 1].key == key then Some(rows[|rows| - 1])
    else RowFor(rows[..|rows| - 1], key)
  }

  lemma {:induction false} RowForFinds(rows: seq<Row>, key: Key, row: Row)
    requires UniqueKeys(rows)
    ensures RowFor(rows, key) == Some(row) <==> row in rows && row.key == key
    ensures RowFor(rows, key).None? <==> forall r | r in rows :: r.key != key
  {
    if rows != [] {
      var front, last := rows[..|rows| - 1], rows[|rows| - 1];
      assert rows == front + [last];
      assert UniqueKeys(front) by {
        forall i, j | 0 <= i < j < |front|
          ensures front[i].key != front[j].key
        {
          assert rows[i].key != rows[j].key;
        }
      }
      RowForFinds(front, key, row);
      forall i | 0 <= i < |front|
        ensures front[i].key != last.key
      {
        assert rows[i].key != rows[|front|].key;
      }
    }
  }

  lemma {:induction false} NewContentMember(run: RunId, rows: seq<Row>, snap: Snapshot, c: Content)
    ensures c in NewContents(run, rows, snap) <==>
            exists row :: row in rows && row.Id() !in snap.ids && c == ContentRow(run, row)
  {
    if rows != [] {
      var front, last := rows[..|rows| - 1], rows[|rows| - 1];
      assert rows == front + [last];
      NewContentMember(run, front, snap, c);
    }
  }

  lemma {:induction false} NewTransitionMember(run: RunId, rows: seq<Row>, snap: Snapshot, t: Transition)
    ensures t in NewTransitions(run, rows, snap) <==>
            exists row :: row in rows && Changes(snap, row) && t == TransitionRow(run, snap, row)
  {
    if rows != [] {
      var front, last := rows[..|rows| - 1], rows[|rows| - 1];
      assert rows == front + [last];
      NewTransitionMember(run, front, snap, t);
    }
  }
}
