// The fact table against the accepted batches: the staging filters and the join lose nothing, the
// incremental merge equals a full refresh, and the result is a last-writer-wins map.
module Refinement {
  import opened Base
  import opened Batches
  import opened Planner
  import opened Facts
  import opened Protocol
  import opened Replay
  import opened Safety

  // ---------- the SUCCEEDED batches ----------

  /** Every accepted batch but the one still waiting for finalization. */
  function Final(s: State): seq<Batch> {
    if s.active.Some? && s.log != [] then s.log[..|s.log| - 1] else s.log
  }

  function BatchSucceeded(runs: map<RunId, Run>): Batch -> bool {
    (b: Batch) => Eligible(runs, b.run)
  }

  lemma FinalSucceeded(x: Externals, s: State, i: nat)
    requires Inv(x, s) && i < |Final(s)|
    ensures Eligible(s.runs, s.log[i].run) && Final(s)[i] == s.log[i]
  {
    assert s.active.Some? ==> s.log[i].run != s.log[|s.log| - 1].run;
  }

  lemma AllFinalSucceeded(x: Externals, s: State)
    requires Inv(x, s)
    ensures forall b | b in Final(s) :: BatchSucceeded(s.runs)(b)
  {
    forall i | 0 <= i < |Final(s)|
      ensures BatchSucceeded(s.runs)(Final(s)[i])
    {
      FinalSucceeded(x, s, i);
    }
  }

  /** The SUCCEEDED runs are a prefix of the commit order. */
  lemma SucceededIsPrefix(x: Externals, s: State)
    requires Inv(x, s)
    ensures Where(s.log, BatchSucceeded(s.runs)) == Final(s)
  {
    AllFinalSucceeded(x, s);
    WhereAll(Final(s), BatchSucceeded(s.runs));
    if s.active.Some? {
      assert !BatchSucceeded(s.runs)(s.log[|s.log| - 1]);
      assert Where(s.log, BatchSucceeded(s.runs)) == Where(s.log[..|s.log| - 1], BatchSucceeded(s.runs));
    }
  }

  // ---------- staging keeps exactly the rows of the SUCCEEDED batches ----------

  lemma SerialFinal(x: Externals, s: State, product: Product)
    requires Inv(x, s)
    ensures LogOk(x, Final(s))
    ensures forall c | c in Serial(Final(s), product).contents :: Eligible(s.runs, c.firstRun)
    ensures forall t | t in Serial(Final(s), product).transitions :: Eligible(s.runs, t.run)
  {
    LogOkFront(x, s.log, |Final(s)|);
    assert Final(s) == s.log[..|Final(s)|];
    forall c | c in Serial(Final(s), product).contents
      ensures Eligible(s.runs, c.firstRun)
    {
      var i := ContentOrigin(x, Final(s), product, c);
      FinalSucceeded(x, s, i);
    }
    forall t | t in Serial(Final(s), product).transitions
      ensures Eligible(s.runs, t.run)
    {
      TransitionOrigin(x, Final(s), product, t);
      FinalSucceeded(x, s, t.sequence - 1);
    }
  }

  /** The part of a product's serial tables that is not final yet. */
  lemma SerialSplit(x: Externals, s: State, product: Product) returns (plan: Plan)
    requires Inv(x, s)
    ensures var done := Serial(Final(s), product);
            Serial(s.log, product) == Tables(done.contents + plan.contents, done.transitions + plan.transitions)
    ensures forall c | c in plan.contents :: s.active == Some(c.firstRun)
    ensures forall t | t in plan.transitions :: s.active == Some(t.run) && t.sequence == |Final(s)| + 1
  {
    var done := Serial(Final(s), product);
    plan := Plan([], [], map[], 0, 0);
    assert done == Tables(done.contents + [], done.transitions + []);
    if s.active.Some? {
      var last := s.log[|s.log| - 1];
      assert s.log == Final(s) + [last];
      SerialAppend(Final(s), last, product);
      if last.request.product == product {
        plan := PlanOf(last.run, last.rows, FullSnapshot(done, |Final(s)|));
        PlanOwner(last.run, last.rows, FullSnapshot(done, |Final(s)|));
        forall t | t in plan.transitions
          ensures t.sequence == |Final(s)| + 1
        {
          NewTransitionMember(last.run, last.rows, FullSnapshot(done, |Final(s)|), t);
        }
      }
    }
  }

  lemma KeepStampedContents(cs: seq<Content>, runs: map<RunId, Run>, keep: bool)
    requires forall c | c in cs :: Eligible(runs, c.firstRun) == keep
    ensures Where(StampedContents(cs, runs), ContentEligible(runs)) == if keep then StampedContents(cs, runs) else []
  {
    var stamped := StampedContents(cs, runs);
    forall c | c in stamped
      ensures ContentEligible(runs)(c) == keep
    {
      var i :| 0 <= i < |cs| && stamped[i] == c;
      assert cs[i] in cs;
    }
    if keep {
      WhereAll(stamped, ContentEligible(runs));
    } else {
      WhereNone(stamped, ContentEligible(runs));
    }
  }

  lemma KeepStampedTransitions(ts: seq<Transition>, runs: map<RunId, Run>, keep: bool)
    requires forall t | t in ts :: Eligible(runs, t.run) == keep
    ensures Where(StampedTransitions(ts, runs), TransitionEligible(runs)) ==
            if keep then StampedTransitions(ts, runs) else []
  {
    var stamped := StampedTransitions(ts, runs);
    forall t | t in stamped
      ensures TransitionEligible(runs)(t) == keep
    {
      var i :| 0 <= i < |ts| && stamped[i] == t;
      assert ts[i] in ts;
    }
    if keep {
      WhereAll(stamped, TransitionEligible(runs));
    } else {
      WhereNone(stamped, TransitionEligible(runs));
    }
  }

  lemma ActiveIneligible(x: Externals, s: State, run: RunId)
    requires Inv(x, s) && s.active == Some(run)
    ensures !Eligible(s.runs, run)
  {
  }

  lemma StageContents(done: seq<Content>, rest: seq<Content>, runs: map<RunId, Run>)
    requires forall c | c in done :: Eligible(runs, c.firstRun)
    requires forall c | c in rest :: !Eligible(runs, c.firstRun)
    ensures Where(StampedContents(done + rest, runs), ContentEligible(runs)) == StampedContents(done, runs)
  {
    var a, b := StampedContents(done, runs), StampedContents(rest, runs);
    assert StampedContents(done + rest, runs) == a + b;
    WhereConcat(a, b, ContentEligible(runs));
    KeepStampedContents(done, runs, true);
    KeepStampedContents(rest, runs, false);
  }

  lemma StageTransitions(done: seq<Transition>, rest: seq<Transition>, runs: map<RunId, Run>)
    requires forall t | t in done :: Eligible(runs, t.run)
    requires forall t | t in rest :: !Eligible(runs, t.run)
    ensures Where(StampedTransitions(done + rest, runs), TransitionEligible(runs)) == StampedTransitions(done, runs)
  {
    var a, b := StampedTransitions(done, runs), StampedTransitions(rest, runs);
    assert StampedTransitions(done + rest, runs) == a + b;
    WhereConcat(a, b, TransitionEligible(runs));
    KeepStampedTransitions(done, runs, true);
    KeepStampedTransitions(rest, runs, false);
  }

  /** What staging exposes is the serial reference on the SUCCEEDED batches. */
  lemma StagedIsSerial(x: Externals, s: State, product: Product)
    requires Inv(x, s)
    ensures StagedContents(s.runs, s.Of(product)) == StampedContents(Serial(Final(s), product).contents, s.runs)
    ensures StagedTransitions(s.runs, s.Of(product)) ==
              StampedTransitions(Serial(Final(s), product).transitions, s.runs)
  {
    var done := Serial(Final(s), product);
    var plan := SerialSplit(x, s, product);
    SerialFinal(x, s, product);
    assert TablesOk(s.Of(product), s.runs, s.log, product);
    if s.active.Some? {
      ActiveIneligible(x, s, s.active.value);
    }
    StageContents(done.contents, plan.contents, s.runs);
    StageTransitions(done.transitions, plan.transitions, s.runs);
  }

  // ---------- the join loses nothing and repeats nothing ----------

  ghost function Lookup(contents: seq<Content>, id: ContentId): (c: Content)
    requires id in IdsOf(contents)
    ensures c in contents && c.Id() == id
  {
    var i :| 0 <= i < |contents| && contents[i].Id() == id;
    contents[i]
  }

  lemma LookupUnique(contents: seq<Content>, c: Content)
    requires UniqueIds(contents) && c in contents
    ensures c.Id() in IdsOf(contents) && Lookup(contents, c.Id()) == c
  {
    IdsMember(contents, c.Id());
  }

  lemma {:induction false} JoinOneExact(t: Transition, contents: seq<Content>)
    requires UniqueIds(contents)
    ensures JoinOne(t, contents) ==
            if t.Content() in IdsOf(contents) then [HistoryRow(Lookup(contents, t.Content()), t)] else []
  {
    if contents != [] {
      var front, last := contents[..|contents| - 1], contents[|contents| - 1];
      assert contents == front + [last];
      assert UniqueIds(front);
      JoinOneExact(t, front);
      IdsConcat(front, [last]);
      if t.Content() in IdsOf(front) {
        LookupUnique(contents, Lookup(front, t.Content()));
        var i :| 0 <= i < |front| && front[i].Id() == t.Content();
        assert contents[i].Id() != contents[|front|].Id();
      } else if last.Id() == t.Content() {
        LookupUnique(contents, last);
      } else {
        IdsMember([last], t.Content());
      }
    }
  }

  ghost predicate Covered(transitions: seq<Transition>, contents: seq<Content>) {
    forall t | t in transitions :: t.Content() in IdsOf(contents)
  }

  ghost function Paired(transitions: seq<Transition>, contents: seq<Content>): (r: seq<HistoryRow>)
    requires Covered(transitions, contents)
    ensures |r| == |transitions|
  {
    seq(|transitions|, i requires 0 <= i < |transitions| =>
      HistoryRow(Lookup(contents, transitions[i].Content()), transitions[i]))
  }

  lemma {:induction false} JoinExact(transitions: seq<Transition>, contents: seq<Content>)
    requires UniqueIds(contents) && Covered(transitions, contents)
    ensures Join(transitions, contents) == Paired(transitions, contents)
  {
    if transitions != [] {
      var n := |transitions| - 1;
      assert transitions == transitions[..n] + [transitions[n]];
      JoinExact(transitions[..n], contents);
      JoinOneExact(transitions[n], contents);
    }
  }

  lemma StampedUnique(cs: seq<Content>, runs: map<RunId, Run>)
    requires UniqueIds(cs)
    ensures UniqueIds(StampedContents(cs, runs))
  {
    var stamped := StampedContents(cs, runs);
    forall i, j | 0 <= i < j < |stamped|
      ensures stamped[i].Id() != stamped[j].Id()
    {
      assert cs[i].Id() != cs[j].Id();
    }
  }

  /** The history of a log: its transitions with their contents, under the clocks of `runs`. */
  ghost predicate HistoryIs(history: seq<HistoryRow>, serial: Tables, runs: map<RunId, Run>) {
    && |history| == |serial.transitions|
    && forall i | 0 <= i < |history| ::
         && history[i].state == StampedTransitions(serial.transitions, runs)[i]
         && history[i].content in StampedContents(serial.contents, runs)
         && history[i].content.Id() == history[i].state.Content()
  }

  /** The revision history has one row for every SUCCEEDED transition, with its own content. */
  lemma HistoryIsComplete(x: Externals, s: State, product: Product)
    requires Inv(x, s)
    ensures HistoryIs(s.HistoryOf(product), Serial(Final(s), product), s.runs)
    ensures |s.HistoryOf(product)| == |StagedTransitions(s.runs, s.Of(product))|
  {
    var serial := Serial(Final(s), product);
    SerialFinal(x, s, product);
    StagedIsSerial(x, s, product);
    SerialContentsUnique(x, Final(s), product);
    StampedUnique(serial.contents, s.runs);
    StampedIds(serial.contents, s.runs);
    var ts, cs := StampedTransitions(serial.transitions, s.runs), StampedContents(serial.contents, s.runs);
    forall t | t in ts
      ensures t.Content() in IdsOf(cs)
    {
      var i :| 0 <= i < |ts| && ts[i] == t;
      TransitionsHaveContents(x, Final(s), product, serial.transitions[i]);
    }
    JoinExact(ts, cs);
  }

  lemma HistoryUnique(a: seq<HistoryRow>, b: seq<HistoryRow>, serial: Tables, runs: map<RunId, Run>, n: nat)
    requires UniqueIds(serial.contents) && n <= |serial.transitions|
    requires HistoryIs(a, serial, runs)
    requires |b| == n && forall i | 0 <= i < n ::
      && b[i].state == StampedTransitions(serial.transitions, runs)[i]
      && b[i].content in StampedContents(serial.contents, runs)
      && b[i].content.Id() == b[i].state.Content()
    ensures b == a[..n]
  {
    StampedUnique(serial.contents, runs);
    forall i | 0 <= i < n
      ensures b[i] == a[i]
    {
      LookupUnique(StampedContents(serial.contents, runs), b[i].content);
      LookupUnique(StampedContents(serial.contents, runs), a[i].content);
    }
  }

  // ---------- order inside the history ----------

  /** Later rows of a key have larger ordinals, and the whole history is in commit order. */
  ghost predicate KeyOrdered(ts: seq<Transition>) {
    forall i, j | 0 <= i < j < |ts| && ts[i].key == ts[j].key :: ts[i].ordinal < ts[j].ordinal
  }

  ghost predicate KeysDiffer(ts: seq<Transition>) {
    forall i, j | 0 <= i < j < |ts| :: ts[i].key != ts[j].key
  }

  lemma {:induction false} LatestIsLargest(ts: seq<Transition>, t: Transition)
    requires t in ts
    ensures t.key in LatestOf(ts) && t.ordinal <= LatestOf(ts)[t.key].ordinal
  {
    var front := ts[..|ts| - 1];
    assert ts == front + [ts[|ts| - 1]];
    if t in front {
      LatestIsLargest(front, t);
    }
  }

  lemma {:induction false} NewKeysDistinct(run: RunId, rows: seq<Row>, snap: Snapshot)
    requires UniqueKeys(rows)
    ensures KeysDiffer(NewTransitions(run, rows, snap))
  {
    NewTransitionsUnique(run, rows, snap);
    var ts := NewTransitions(run, rows, snap);
    forall i, j | 0 <= i < j < |ts|
      ensures ts[i].key != ts[j].key
    {
      assert ts[i].Id() != ts[j].Id();
    }
  }

  lemma KeyOrderedConcat(a: seq<Transition>, b: seq<Transition>)
    requires KeyOrdered(a) && KeysDiffer(b)
    requires forall i, j | 0 <= i < |a| && 0 <= j < |b| && a[i].key == b[j].key :: a[i].ordinal < b[j].ordinal
    ensures KeyOrdered(a + b)
  {
    var all := a + b;
    forall i, j | 0 <= i < j < |all| && all[i].key == all[j].key
      ensures all[i].ordinal < all[j].ordinal
    {
      if i < |a| <= j {
        assert all[i] == a[i] && all[j] == b[j - |a|];
      }
    }
  }

  lemma ApplyKeyOrdered(tables: Tables, sequence: nat, batch: Batch)
    requires UniqueKeys(batch.rows) && KeyOrdered(tables.transitions)
    ensures KeyOrdered(Apply(tables, sequence, batch).transitions)
  {
    var snap := FullSnapshot(tables, sequence);
    var stored, added := tables.transitions, NewTransitions(batch.run, batch.rows, snap);
    NewKeysDistinct(batch.run, batch.rows, snap);
    forall i, j | 0 <= i < |stored| && 0 <= j < |added| && stored[i].key == added[j].key
      ensures stored[i].ordinal < added[j].ordinal
    {
      LatestIsLargest(stored, stored[i]);
      NewTransitionMember(batch.run, batch.rows, snap, added[j]);
    }
    KeyOrderedConcat(stored, added);
  }

  lemma {:induction false} SerialKeyOrdered(x: Externals, log: seq<Batch>, product: Product)
    requires LogOk(x, log)
    ensures KeyOrdered(Serial(log, product).transitions)
  {
    if log != [] {
      var n := |log| - 1;
      LogOkFront(x, log, n);
      SerialKeyOrdered(x, log[..n], product);
      assert RowsOk(x, log[n].request, log[n].rows);
      if log[n].request.product == product {
        ApplyKeyOrdered(Serial(log[..n], product), n, log[n]);
      }
    }
  }

  function States(history: seq<HistoryRow>): (r: seq<Transition>)
    ensures |r| == |history|
  {
    seq(|history|, i requires 0 <= i < |history| => history[i].state)
  }

  // ---------- ranking is taking the last row of each key ----------

  function LastByKey(history: seq<HistoryRow>): Fact {
    if history == [] then map[]
    else LastByKey(history[..|history| - 1])[history[|history| - 1].state.key := history[|history| - 1]]
  }

  lemma {:induction false} LastComesFrom(history: seq<HistoryRow>, key: Key)
    ensures key in LastByKey(history) <==> exists row :: row in history && row.state.key == key
    ensures key in LastByKey(history) ==> LastByKey(history)[key] in history && LastByKey(history)[key].state.key == key
  {
    if history != [] {
      LastComesFrom(history[..|history| - 1], key);
      assert history == history[..|history| - 1] + [history[|history| - 1]];
    }
  }

  /** row_number() = 1 picks the latest row whatever order breaks ties: ties never arise. */
  lemma {:induction false} RankIsLast(x: Externals, history: seq<HistoryRow>)
    requires KeyOrdered(States(history))
    ensures Rank(x, history) == LastByKey(history)
  {
    if history != [] {
      var front, last := history[..|history| - 1], history[|history| - 1];
      assert States(front) == States(history)[..|front|];
      RankIsLast(x, front);
      LastComesFrom(front, last.state.key);
      if last.state.key in LastByKey(front) {
        var best := LastByKey(front)[last.state.key];
        var i :| 0 <= i < |front| && front[i] == best;
        assert States(history)[i].ordinal < States(history)[|front|].ordinal;
      }
    }
  }

  lemma {:induction false} LastIsAhead(history: seq<HistoryRow>, other: HistoryRow)
    requires KeyOrdered(States(history)) && other in history
    ensures other.state.key in LastByKey(history)
    ensures other == LastByKey(history)[other.state.key]
            || other.state.ordinal < LastByKey(history)[other.state.key].state.ordinal
  {
    var front, last := history[..|history| - 1], history[|history| - 1];
    assert history == front + [last];
    if other in front {
      assert States(front) == States(history)[..|front|];
      LastIsAhead(front, other);
      var i :| 0 <= i < |front| && front[i] == other;
      assert States(history)[i] == other.state && States(history)[|front|] == last.state;
    }
  }

  /** row_number() = 1: a row is current exactly when it is ahead of every other row of its key; so there is
      one current row per key. */
  lemma RankSelectsWinners(x: Externals, history: seq<HistoryRow>, row: HistoryRow)
    requires KeyOrdered(States(history))
    ensures row.state.key in Rank(x, history) && Rank(x, history)[row.state.key] == row <==>
            && row in history
            && forall other | other in history && other.state.key == row.state.key && other != row ::
                 Beats(x, row, other)
  {
    var key := row.state.key;
    RankIsLast(x, history);
    LastComesFrom(history, key);
    forall other | other in history && other.state.key == key
      ensures other == LastByKey(history)[key] || other.state.ordinal < LastByKey(history)[key].state.ordinal
    {
      LastIsAhead(history, other);
    }
  }

  lemma {:induction false} LastConcat(a: seq<HistoryRow>, b: seq<HistoryRow>)
    ensures LastByKey(a + b) == LastByKey(a) + LastByKey(b)
  {
    if b == [] {
      assert a + b == a;
    } else {
      assert (a + b)[..|a + b| - 1] == a + b[..|b| - 1];
      LastConcat(a, b[..|b| - 1]);
    }
  }

  lemma {:induction false} LastIsLatest(history: seq<HistoryRow>, key: Key)
    requires KeyOrdered(States(history))
    ensures key in LastByKey(history) <==> key in LatestOf(States(history))
    ensures key in LastByKey(history) ==>
              Latest(LastByKey(history)[key].state.hash, LastByKey(history)[key].state.ordinal) ==
                LatestOf(States(history))[key]
  {
    if history != [] {
      var front, last := history[..|history| - 1], history[|history| - 1];
      assert States(front) == States(history)[..|front|];
      LastIsLatest(front, key);
      LastComesFrom(front, last.state.key);
      if last.state.key in LastByKey(front) {
        var best := LastByKey(front)[last.state.key];
        var i :| 0 <= i < |front| && front[i] == best;
        assert States(history)[i].ordinal < States(history)[|front|].ordinal;
      }
    }
  }

  // ---------- the watermark splits the history ----------

  ghost predicate InCommitOrder(history: seq<HistoryRow>) {
    CommitOrdered(States(history))
  }

  lemma {:induction false} WatermarkSplits(history: seq<HistoryRow>, mark: nat)
    requires InCommitOrder(history)
    ensures Where(history, UpToSequence(mark)) + Where(history, AboveSequence(mark)) == history
  {
    if history != [] {
      var front, last := history[..|history| - 1], history[|history| - 1];
      assert States(front) == States(history)[..|front|];
      WatermarkSplits(front, mark);
      if last.state.sequence <= mark {
        forall row | row in front
          ensures !AboveSequence(mark)(row)
        {
          var i :| 0 <= i < |front| && front[i] == row;
          assert States(history)[i].sequence <= States(history)[|front|].sequence;
        }
        WhereNone(front, AboveSequence(mark));
      }
    }
  }

  /** The newest row of the history is current, so the watermark of a full ranking is its end. */
  lemma WatermarkOfAll(history: seq<HistoryRow>)
    requires InCommitOrder(history)
    ensures Where(history, UpToSequence(Watermark(LastByKey(history)))) == history
  {
    var mark := Watermark(LastByKey(history));
    if history != [] {
      var last := history[|history| - 1];
      assert last.state.key in LastByKey(history) && LastByKey(history)[last.state.key] == last;
      forall row | row in history
        ensures UpToSequence(mark)(row)
      {
        var i :| 0 <= i < |history| && history[i] == row;
        assert States(history)[i].sequence <= States(history)[|history| - 1].sequence;
      }
      WhereAll(history, UpToSequence(mark));
    }
  }

  /** The fact holds the current state of the history up to its own watermark. */
  ghost predicate FactOk(x: Externals, history: seq<HistoryRow>, fact: Fact) {
    fact == Rank(x, Where(history, UpToSequence(Watermark(fact))))
  }

  lemma {:induction false} WhereKeepsOrder(history: seq<HistoryRow>, keep: HistoryRow -> bool)
    requires KeyOrdered(States(history))
    ensures KeyOrdered(States(Where(history, keep)))
  {
    if history != [] {
      var front, last := history[..|history| - 1], history[|history| - 1];
      assert States(front) == States(history)[..|front|];
      WhereKeepsOrder(front, keep);
      var kept := Where(front, keep);
      forall i | 0 <= i < |kept| && kept[i].state.key == last.state.key
        ensures kept[i].state.ordinal < last.state.ordinal
      {
        WhereMember(front, keep, kept[i]);
        var j :| 0 <= j < |front| && front[j] == kept[i];
        assert States(history)[j].ordinal < States(history)[|front|].ordinal;
      }
      var all := States(kept + [last]);
      forall i, j | 0 <= i < j < |all| && all[i].key == all[j].key
        ensures all[i].ordinal < all[j].ordinal
      {
        if j < |kept| {
          assert States(kept)[i].ordinal < States(kept)[j].ordinal;
        }
      }
    }
  }

  /** Merging only the history above the watermark gives the full ranking, field for field. */
  lemma IncrementalIsFull(x: Externals, history: seq<HistoryRow>, fact: Fact)
    requires KeyOrdered(States(history)) && InCommitOrder(history) && FactOk(x, history, fact)
    ensures Incremental(x, history, fact) == FullRefresh(x, history)
    ensures FactOk(x, history, FullRefresh(x, history))
  {
    var mark := Watermark(fact);
    var lo, hi := Where(history, UpToSequence(mark)), Where(history, AboveSequence(mark));
    WatermarkSplits(history, mark);
    WhereKeepsOrder(history, UpToSequence(mark));
    WhereKeepsOrder(history, AboveSequence(mark));
    RankIsLast(x, history);
    RankIsLast(x, lo);
    RankIsLast(x, hi);
    LastConcat(lo, hi);
    WatermarkOfAll(history);
  }

  // ---------- the history across time ----------

  lemma StampedKeepsOrder(ts: seq<Transition>, runs: map<RunId, Run>)
    requires KeyOrdered(ts) && CommitOrdered(ts)
    ensures KeyOrdered(StampedTransitions(ts, runs)) && CommitOrdered(StampedTransitions(ts, runs))
  {
    var stamped := StampedTransitions(ts, runs);
    forall i, j | 0 <= i < j < |stamped|
      ensures stamped[i].sequence <= stamped[j].sequence
      ensures stamped[i].key == stamped[j].key ==> stamped[i].ordinal < stamped[j].ordinal
    {
      assert ts[i].sequence <= ts[j].sequence;
    }
  }

  lemma HistoryStates(history: seq<HistoryRow>, serial: Tables, runs: map<RunId, Run>)
    requires HistoryIs(history, serial, runs)
    ensures States(history) == StampedTransitions(serial.transitions, runs)
  {
  }

  lemma HistoryOrdered(x: Externals, s: State, product: Product)
    requires Inv(x, s)
    ensures KeyOrdered(States(s.HistoryOf(product))) && InCommitOrder(s.HistoryOf(product))
  {
    SerialFinal(x, s, product);
    HistoryIsComplete(x, s, product);
    HistoryStates(s.HistoryOf(product), Serial(Final(s), product), s.runs);
    SerialKeyOrdered(x, Final(s), product);
    SerialTransitionsUnique(x, Final(s), product);
    StampedKeepsOrder(Serial(Final(s), product).transitions, s.runs);
  }

  lemma HistoryBounded(x: Externals, s: State, product: Product)
    requires Inv(x, s)
    ensures forall row | row in s.HistoryOf(product) :: row.state.sequence <= |Final(s)|
  {
    var serial, h := Serial(Final(s), product), s.HistoryOf(product);
    SerialFinal(x, s, product);
    HistoryIsComplete(x, s, product);
    forall row | row in h
      ensures row.state.sequence <= |Final(s)|
    {
      var i :| 0 <= i < |h| && h[i] == row;
      TransitionOrigin(x, Final(s), product, serial.transitions[i]);
    }
  }

  /** What a later state may have done to the SUCCEEDED batches: add to them. */
  ghost predicate FinalGrows(s: State, s': State) {
    && Final(s) <= Final(s')
    && forall i | 0 <= i < |Final(s)| :: KnowledgeOf(s.runs, s.log[i].run) == KnowledgeOf(s'.runs, s.log[i].run)
  }

  lemma PrefixHistory(h: seq<HistoryRow>, h': seq<HistoryRow>, a: Tables, b: Tables, runs: map<RunId, Run>,
                      runs': map<RunId, Run>)
    requires HistoryIs(h, a, runs) && HistoryIs(h', b, runs') && UniqueIds(b.contents)
    requires StampedContents(a.contents, runs) <= StampedContents(b.contents, runs')
    requires StampedTransitions(a.transitions, runs) <= StampedTransitions(b.transitions, runs')
    ensures h <= h'
  {
    HistoryUnique(h', h, b, runs', |h|);
  }

  /** Eligible history is append-only on every field. */
  lemma HistoryGrows(x: Externals, s: State, s': State, product: Product)
    requires Inv(x, s) && Inv(x, s') && FinalGrows(s, s')
    ensures s.HistoryOf(product) <= s'.HistoryOf(product)
  {
    SerialFinal(x, s', product);
    HistoryIsComplete(x, s, product);
    HistoryIsComplete(x, s', product);
    SerialContentsUnique(x, Final(s'), product);
    StampedPrefix(x, s, s', product);
    PrefixHistory(s.HistoryOf(product), s'.HistoryOf(product), Serial(Final(s), product), Serial(Final(s'), product),
                  s.runs, s'.runs);
  }

  lemma LengthOfHistory(x: Externals, s: State, product: Product)
    requires Inv(x, s)
    ensures |s.HistoryOf(product)| == |Serial(Final(s), product).transitions|
  {
    HistoryIsComplete(x, s, product);
  }

  lemma StateAt(x: Externals, s: State, product: Product, i: nat)
    requires Inv(x, s) && i < |s.HistoryOf(product)| == |Serial(Final(s), product).transitions|
    ensures s.HistoryOf(product)[i].state.sequence == Serial(Final(s), product).transitions[i].sequence
  {
    HistoryIsComplete(x, s, product);
  }

  /** What is added to the history lies above every old sequence. */
  lemma HistoryGrowsAbove(x: Externals, s: State, s': State, product: Product, i: nat)
    requires Inv(x, s) && Inv(x, s') && FinalGrows(s, s')
    requires |s.HistoryOf(product)| <= i < |s'.HistoryOf(product)|
    ensures s'.HistoryOf(product)[i].state.sequence > |Final(s)|
  {
    LengthOfHistory(x, s, product);
    LengthOfHistory(x, s', product);
    SerialFinal(x, s', product);
    assert Final(s')[..|Final(s)|] == Final(s);
    SerialTail(x, Final(s'), |Final(s)|, product, i);
    StateAt(x, s', product, i);
  }

  lemma KnownContents(x: Externals, s: State, s': State, product: Product)
    requires Inv(x, s) && FinalGrows(s, s')
    ensures var was := Serial(Final(s), product);
            forall i | 0 <= i < |was.contents| ::
              KnowledgeOf(s.runs, was.contents[i].firstRun) == KnowledgeOf(s'.runs, was.contents[i].firstRun)
  {
    var was := Serial(Final(s), product);
    SerialFinal(x, s, product);
    forall i | 0 <= i < |was.contents|
      ensures KnowledgeOf(s.runs, was.contents[i].firstRun) == KnowledgeOf(s'.runs, was.contents[i].firstRun)
    {
      var j := ContentOrigin(x, Final(s), product, was.contents[i]);
      FinalSucceeded(x, s, j);
    }
  }

  lemma KnownTransitions(x: Externals, s: State, s': State, product: Product)
    requires Inv(x, s) && FinalGrows(s, s')
    ensures var was := Serial(Final(s), product);
            forall i | 0 <= i < |was.transitions| ::
              KnowledgeOf(s.runs, was.transitions[i].run) == KnowledgeOf(s'.runs, was.transitions[i].run)
  {
    var was := Serial(Final(s), product);
    SerialFinal(x, s, product);
    forall i | 0 <= i < |was.transitions|
      ensures KnowledgeOf(s.runs, was.transitions[i].run) == KnowledgeOf(s'.runs, was.transitions[i].run)
    {
      TransitionOrigin(x, Final(s), product, was.transitions[i]);
      FinalSucceeded(x, s, was.transitions[i].sequence - 1);
    }
  }

  lemma StampedGrow(was: Tables, later: Tables, runs: map<RunId, Run>, runs': map<RunId, Run>)
    requires was.contents <= later.contents && was.transitions <= later.transitions
    requires forall i | 0 <= i < |was.contents| ::
               KnowledgeOf(runs, was.contents[i].firstRun) == KnowledgeOf(runs', was.contents[i].firstRun)
    requires forall i | 0 <= i < |was.transitions| ::
               KnowledgeOf(runs, was.transitions[i].run) == KnowledgeOf(runs', was.transitions[i].run)
    ensures StampedContents(was.contents, runs) <= StampedContents(later.contents, runs')
    ensures StampedTransitions(was.transitions, runs) <= StampedTransitions(later.transitions, runs')
  {
  }

  lemma StampedPrefix(x: Externals, s: State, s': State, product: Product)
    requires Inv(x, s) && Inv(x, s') && FinalGrows(s, s')
    ensures StampedContents(Serial(Final(s), product).contents, s.runs) <=
              StampedContents(Serial(Final(s'), product).contents, s'.runs)
    ensures StampedTransitions(Serial(Final(s), product).transitions, s.runs) <=
              StampedTransitions(Serial(Final(s'), product).transitions, s'.runs)
  {
    assert Final(s')[..|Final(s)|] == Final(s);
    SerialGrows(Final(s'), |Final(s)|, product);
    KnownContents(x, s, s', product);
    KnownTransitions(x, s, s', product);
    StampedGrow(Serial(Final(s), product), Serial(Final(s'), product), s.runs, s'.runs);
  }

  lemma {:induction false} SerialTail(x: Externals, log: seq<Batch>, n: nat, product: Product, i: nat)
    requires LogOk(x, log) && n <= |log|
    requires |Serial(log[..n], product).transitions| <= i < |Serial(log, product).transitions|
    ensures Serial(log, product).transitions[i].sequence > n
    decreases |log|
  {
    assert log[..|log|] == log;
    if n < |log| {
      var m := |log| - 1;
      LogOkFront(x, log, m);
      assert log[..m][..n] == log[..n];
      if i < |Serial(log[..m], product).transitions| {
        SerialTail(x, log[..m], n, product, i);
      } else {
        var snap := FullSnapshot(Serial(log[..m], product), m);
        var added := NewTransitions(log[m].run, log[m].rows, snap);
        var t := Serial(log, product).transitions[i];
        assert t == added[i - |Serial(log[..m], product).transitions|];
        NewTransitionMember(log[m].run, log[m].rows, snap, t);
      }
    }
  }

  /** A fact that was in order stays in order while the history grows above it. */
  lemma FactStays(x: Externals, h: seq<HistoryRow>, h': seq<HistoryRow>, fact: Fact, bound: nat)
    requires FactOk(x, h, fact) && h <= h'
    requires KeyOrdered(States(h))
    requires forall row | row in h :: row.state.sequence <= bound
    requires forall i | |h| <= i < |h'| :: h'[i].state.sequence > bound
    ensures FactOk(x, h', fact)
  {
    var mark := Watermark(fact);
    assert mark <= bound by {
      if fact != map[] {
        var k :| k in fact && fact[k].state.sequence == mark;
        WhereKeepsOrder(h, UpToSequence(mark));
        RankIsLast(x, Where(h, UpToSequence(mark)));
        LastComesFrom(Where(h, UpToSequence(mark)), k);
        WhereMember(h, UpToSequence(mark), fact[k]);
      }
    }
    var tail := h'[|h|..];
    assert h' == h + tail;
    forall row | row in tail
      ensures !UpToSequence(mark)(row)
    {
      var i :| 0 <= i < |tail| && tail[i] == row;
      assert h'[|h| + i] == row;
    }
    WhereConcat(h, tail, UpToSequence(mark));
    WhereNone(tail, UpToSequence(mark));
    assert Where(h', UpToSequence(mark)) == Where(h, UpToSequence(mark));
  }
}
