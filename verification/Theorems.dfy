// The guarantees of the warehouse over whole runs: any number of clients, any interleaving, crashes,
// lost answers, late jobs and dbt builds at any moment.
module Theorems {
  import opened Base
  import opened Batches
  import opened Planner
  import opened Facts
  import opened Protocol
  import opened Replay
  import opened Safety
  import opened Progress
  import opened Refinement

  // ---------- the plain last-writer-wins map ----------

  /** Per logical key, the last accepted content. */
  function LastWriter(log: seq<Batch>, product: Product): map<Key, ContentHash> {
    if log == [] then map[]
    else
      var front, batch := log[..|log| - 1], log[|log| - 1];
      if batch.request.product != product then LastWriter(front, product)
      else LastWriter(front, product) + Fingerprint(batch.rows)
  }

  lemma {:induction false} FingerprintFor(rows: seq<Row>, key: Key)
    ensures key in Fingerprint(rows) <==> RowFor(rows, key).Some?
    ensures RowFor(rows, key).Some? ==> Fingerprint(rows)[key] == RowFor(rows, key).value.hash
  {
    if rows != [] {
      FingerprintFor(rows[..|rows| - 1], key);
    }
  }

  /** The last writer of a key is the end of its revision trace. */
  lemma {:induction false} LastWriterEndsTrace(x: Externals, log: seq<Batch>, product: Product, key: Key)
    requires LogOk(x, log)
    ensures key in LastWriter(log, product) ==> key.product == product
    ensures key.product == product ==>
              && (key in LastWriter(log, product) <==> Trace(log, key) != [])
              && (Trace(log, key) != [] ==>
                    LastWriter(log, product)[key] == Trace(log, key)[|Trace(log, key)| - 1].hash)
  {
    if log != [] {
      var n := |log| - 1;
      LogOkFront(x, log, n);
      LastWriterEndsTrace(x, log[..n], product, key);
      assert RowsOk(x, log[n].request, log[n].rows);
      FingerprintFor(log[n].rows, key);
      if log[n].request.product != key.product {
        ForeignKey(x, log[n].request, log[n].rows, key);
      }
    }
  }

  // ---------- the fact table is that map ----------

  /** One fact row shows the last accepted content of its key, as its latest numbered revision. */
  ghost predicate RowMeans(row: HistoryRow, key: Key, hash: ContentHash, trace: seq<Revision>) {
    && row.content.key == row.state.key == key
    && row.content.hash == row.state.hash == hash
    && row.state.ordinal == |trace| > 0
  }

  ghost predicate FactMeans(fact: Fact, log: seq<Batch>, product: Product) {
    && fact.Keys == LastWriter(log, product).Keys
    && forall key | key in fact :: RowMeans(fact[key], key, LastWriter(log, product)[key], Trace(log, key))
  }

  lemma {:induction false} WherePrefix(history: seq<HistoryRow>, mark: nat, m: nat)
    requires m <= |history|
    requires forall i | 0 <= i < m :: history[i].state.sequence <= mark
    requires forall i | m <= i < |history| :: history[i].state.sequence > mark
    ensures Where(history, UpToSequence(mark)) == history[..m]
  {
    var lo, hi := history[..m], history[m..];
    assert history == lo + hi;
    WhereConcat(lo, hi, UpToSequence(mark));
    forall row | row in lo
      ensures UpToSequence(mark)(row)
    {
    }
    WhereAll(lo, UpToSequence(mark));
    forall row | row in hi
      ensures !UpToSequence(mark)(row)
    {
      var i :| 0 <= i < |hi| && hi[i] == row;
      assert history[m + i] == row;
    }
    WhereNone(hi, UpToSequence(mark));
  }

  lemma CutAt(x: Externals, s: State, product: Product, n: nat, i: nat)
    requires Inv(x, s) && n <= |Final(s)| && i < |s.HistoryOf(product)|
    ensures |s.HistoryOf(product)| == |Serial(Final(s), product).transitions|
    ensures i < |Serial(s.log[..n], product).transitions| <==> s.HistoryOf(product)[i].state.sequence <= n
  {
    HistoryIsComplete(x, s, product);
    SerialFinal(x, s, product);
    assert Final(s)[..n] == s.log[..n];
    SerialGrows(Final(s), n, product);
    LogOkFront(x, Final(s), n);
    if i < |Serial(s.log[..n], product).transitions| {
      TransitionOrigin(x, s.log[..n], product, Serial(s.log[..n], product).transitions[i]);
    } else {
      SerialTail(x, Final(s), n, product, i);
    }
  }

  lemma StatesOfCut(x: Externals, s: State, product: Product, n: nat)
    requires Inv(x, s) && n <= |Final(s)|
    ensures var m := |Serial(s.log[..n], product).transitions|;
            && m <= |s.HistoryOf(product)|
            && States(s.HistoryOf(product)[..m]) == StampedTransitions(Serial(s.log[..n], product).transitions, s.runs)
  {
    HistoryIsComplete(x, s, product);
    SerialFinal(x, s, product);
    assert Final(s)[..n] == s.log[..n];
    SerialGrows(Final(s), n, product);
  }

  /** Cutting the history at a sequence n gives the states of the first n batches. */
  lemma HistoryUpTo(x: Externals, s: State, product: Product, n: nat)
    requires Inv(x, s) && n <= |Final(s)|
    ensures var m := |Serial(s.log[..n], product).transitions|;
            && m <= |s.HistoryOf(product)|
            && Where(s.HistoryOf(product), UpToSequence(n)) == s.HistoryOf(product)[..m]
            && States(s.HistoryOf(product)[..m]) == StampedTransitions(Serial(s.log[..n], product).transitions, s.runs)
  {
    var h, m := s.HistoryOf(product), |Serial(s.log[..n], product).transitions|;
    StatesOfCut(x, s, product, n);
    forall i | 0 <= i < |h|
      ensures i < m ==> h[i].state.sequence <= n
      ensures i >= m ==> h[i].state.sequence > n
    {
      CutAt(x, s, product, n, i);
    }
    WherePrefix(h, n, m);
  }

  lemma RankMeans(x: Externals, s: State, product: Product, n: nat)
    requires Inv(x, s) && n <= |Final(s)|
    ensures FactMeans(Rank(x, Where(s.HistoryOf(product), UpToSequence(n))), s.log[..n], product)
  {
    var h := Where(s.HistoryOf(product), UpToSequence(n));
    var log := s.log[..n];
    HistoryOrdered(x, s, product);
    WhereKeepsOrder(s.HistoryOf(product), UpToSequence(n));
    RankIsLast(x, h);
    HistoryUpTo(x, s, product, n);
    LogOkFront(x, s.log, n);
    StampedLatest(Serial(log, product).transitions, s.runs);
    forall key
      ensures key in LastByKey(h) <==> key in LastWriter(log, product)
      ensures key in LastByKey(h) ==> RowMeans(LastByKey(h)[key], key, LastWriter(log, product)[key], Trace(log, key))
    {
      LastIsLatest(h, key);
      LastComesFrom(h, key);
      LastWriterEndsTrace(x, log, product, key);
      if key in LastByKey(h) {
        HistoryRowProduct(x, s, product, LastByKey(h)[key], n);
      }
      if key.product == product {
        SerialLatest(x, log, key);
      }
    }
    assert LastByKey(h).Keys == LastWriter(log, product).Keys;
  }

  lemma HistoryRowProduct(x: Externals, s: State, product: Product, row: HistoryRow, n: nat)
    requires Inv(x, s) && row in Where(s.HistoryOf(product), UpToSequence(n))
    ensures row.state.key.product == product && row.content.Id() == row.state.Content()
  {
    WhereMember(s.HistoryOf(product), UpToSequence(n), row);
    HistoryIsComplete(x, s, product);
    SerialFinal(x, s, product);
    var i :| 0 <= i < |s.HistoryOf(product)| && s.HistoryOf(product)[i] == row;
    var t := Serial(Final(s), product).transitions[i];
    TransitionOrigin(x, Final(s), product, t);
    var b := Final(s)[t.sequence - 1];
    assert RowsOk(x, b.request, b.rows);
    assert RowOk(x, b.request, Row(t.key, t.hash, t.day, t.retrieved));
  }

  // ---------- facts stay in order throughout a run ----------

  lemma ExtendsFinal(x: Externals, s: State, s': State)
    requires Inv(x, s) && Inv(x, s') && Extends(s, s')
    ensures FinalGrows(s, s')
  {
    forall i | 0 <= i < |Final(s)|
      ensures i < |Final(s')| && Final(s')[i] == Final(s)[i]
      ensures KnowledgeOf(s.runs, s.log[i].run) == KnowledgeOf(s'.runs, s.log[i].run)
    {
      FinalSucceeded(x, s, i);
      assert s'.log[i] == s.log[i] && RunGrows(s.runs[s.log[i].run], s'.runs[s.log[i].run]);
    }
  }

  /** The fact is in order, and so it will be when the build in flight, if there is one, merges. */
  ghost predicate TableOk(x: Externals, history: seq<HistoryRow>, fact: Fact, build: Option<Fact>) {
    FactOk(x, history, fact) && (build.Some? ==> FactOk(x, history, fact + build.value))
  }

  ghost predicate FactsOk(x: Externals, s: State) {
    && TableOk(x, s.HistoryOf(Lmp), s.lmpFact, s.lmpBuild)
    && TableOk(x, s.HistoryOf(Load), s.loadFact, s.loadBuild)
  }

  lemma FactCarries(x: Externals, s: State, s': State, product: Product, fact: Fact)
    requires Inv(x, s) && Inv(x, s') && Extends(s, s') && FactOk(x, s.HistoryOf(product), fact)
    ensures FactOk(x, s'.HistoryOf(product), fact)
  {
    var h, h' := s.HistoryOf(product), s'.HistoryOf(product);
    ExtendsFinal(x, s, s');
    HistoryGrows(x, s, s', product);
    HistoryOrdered(x, s, product);
    HistoryBounded(x, s, product);
    forall i | |h| <= i < |h'|
      ensures h'[i].state.sequence > |Final(s)|
    {
      HistoryGrowsAbove(x, s, s', product, i);
    }
    FactStays(x, h, h', fact, |Final(s)|);
  }

  lemma TableCarries(x: Externals, s: State, s': State, product: Product)
    requires Inv(x, s) && Inv(x, s') && Extends(s, s')
    requires TableOk(x, s.HistoryOf(product), s.FactOf(product), s.BuildOf(product))
    requires s'.FactOf(product) == s.FactOf(product) && s'.BuildOf(product) == s.BuildOf(product)
    ensures TableOk(x, s'.HistoryOf(product), s'.FactOf(product), s'.BuildOf(product))
  {
    FactCarries(x, s, s', product, s.FactOf(product));
    if s.BuildOf(product).Some? {
      FactCarries(x, s, s', product, s.FactOf(product) + s.BuildOf(product).value);
    }
  }

  /** What an incremental build makes of a fact in order is the full refresh, which is in order. */
  lemma BuildFacts(x: Externals, s: State, product: Product)
    requires Inv(x, s) && FactsOk(x, s)
    ensures Incremental(x, s.HistoryOf(product), s.FactOf(product)) == FullRefresh(x, s.HistoryOf(product))
    ensures FactOk(x, s.HistoryOf(product), FullRefresh(x, s.HistoryOf(product)))
  {
    HistoryOrdered(x, s, product);
    IncrementalIsFull(x, s.HistoryOf(product), s.FactOf(product));
  }

  /** The facts and the builds in flight, for one product or for both. */
  ghost predicate SameTable(s: State, s': State, p: Product) {
    s'.FactOf(p) == s.FactOf(p) && s'.BuildOf(p) == s.BuildOf(p)
  }

  lemma TablesUntouched(x: Externals, s: State, event: Event, p: Product)
    requires !Writes(event, p)
    ensures SameTable(s, Step(x, s, event), p)
  {
    if event.Execute? {
      ExecuteKeepsTables(s, event.run, p);
    } else if event.Finalize? {
      FinalizeKeepsTables(s, event.run, event.at, p);
    } else if IsDbt(event) {
      WriterLeaves(x, s, event, p);
    } else {
      QuietTables(x, s, event, p);
    }
  }

  lemma WriterLeaves(x: Externals, s: State, event: Event, p: Product)
    requires IsDbt(event) && event.product != p
    ensures SameTable(s, Step(x, s, event), p)
  {
  }

  lemma QuietTables(x: Externals, s: State, event: Event, p: Product)
    requires !IsDbt(event) && !event.Execute? && !event.Finalize?
    ensures SameTable(s, Step(x, s, event), p)
  {
  }

  lemma ExecuteKeepsTables(s: State, run: RunId, p: Product)
    ensures SameTable(s, ExecuteJob(s, run), p)
  {
  }

  lemma FinalizeKeepsTables(s: State, run: RunId, at: nat, p: Product)
    ensures SameTable(s, FinalizeJob(s, run, at), p)
  {
  }

  lemma SelectedTable(x: Externals, s: State, p: Product)
    ensures SelectOnce(x, s, p).FactOf(p) == s.FactOf(p)
    ensures SelectOnce(x, s, p).BuildOf(p) == Some(Candidates(x, s.HistoryOf(p), s.FactOf(p)))
  {
  }

  lemma MergedTable(s: State, p: Product, candidates: Fact)
    requires s.BuildOf(p) == Some(candidates)
    ensures MergeOnce(s, p).FactOf(p) == s.FactOf(p) + candidates && MergeOnce(s, p).BuildOf(p).None?
  {
  }

  lemma RefreshedTable(x: Externals, s: State, p: Product)
    ensures RefreshOnce(x, s, p).FactOf(p) == FullRefresh(x, s.HistoryOf(p))
    ensures RefreshOnce(x, s, p).BuildOf(p).None?
  {
  }

  /** Building incrementally and refreshing fully are the same event while the facts are in order. */
  lemma BuildIsRefresh(x: Externals, s: State, product: Product)
    requires Inv(x, s) && FactsOk(x, s)
    ensures Step(x, s, Build(product)) == Step(x, s, Refresh(product)) == RefreshOnce(x, s, product)
  {
    StepBuild(x, s, product);
    StepRefresh(x, s, product);
    BuildFacts(x, s, product);
  }

  lemma SelectKeepsTable(x: Externals, s: State, p: Product)
    requires Inv(x, s) && FactsOk(x, s)
    ensures var s' := Step(x, s, Select(p)); TableOk(x, s.HistoryOf(p), s'.FactOf(p), s'.BuildOf(p))
  {
    BuildFacts(x, s, p);
    StepSelect(x, s, p);
    SelectedTable(x, s, p);
  }

  lemma MergeKeepsTable(x: Externals, s: State, p: Product)
    requires FactsOk(x, s)
    ensures var s' := Step(x, s, Merge(p)); TableOk(x, s.HistoryOf(p), s'.FactOf(p), s'.BuildOf(p))
  {
    StepMerge(x, s, p);
    if s.BuildOf(p).Some? {
      MergedTable(s, p, s.BuildOf(p).value);
    }
  }

  lemma RefreshKeepsTable(x: Externals, s: State, p: Product)
    requires Inv(x, s) && FactsOk(x, s)
    ensures var s' := Step(x, s, Refresh(p)); TableOk(x, s.HistoryOf(p), s'.FactOf(p), s'.BuildOf(p))
    ensures Step(x, s, Build(p)) == Step(x, s, Refresh(p))
  {
    BuildFacts(x, s, p);
    BuildIsRefresh(x, s, p);
    RefreshedTable(x, s, p);
  }

  /** What the dbt writer of `p` does keeps the fact of `p` in order. */
  lemma WriterKeeps(x: Externals, s: State, e: Event, p: Product)
    requires Inv(x, s) && FactsOk(x, s) && Writes(e, p)
    ensures var s' := Step(x, s, e); TableOk(x, s.HistoryOf(p), s'.FactOf(p), s'.BuildOf(p))
  {
    if e == Select(p) {
      SelectKeepsTable(x, s, p);
    } else if e == Merge(p) {
      MergeKeepsTable(x, s, p);
    } else {
      RefreshKeepsTable(x, s, p);
    }
  }

  lemma HistoryUntouched(s: State, s': State, p: Product)
    requires FactsOnly(s, s')
    ensures s'.HistoryOf(p) == s.HistoryOf(p)
  {
  }

  lemma TableStep(x: Externals, s: State, event: Event, p: Product)
    requires x.Valid() && Inv(x, s) && FactsOk(x, s)
    ensures var s' := Step(x, s, event); TableOk(x, s'.HistoryOf(p), s'.FactOf(p), s'.BuildOf(p))
  {
    if Writes(event, p) {
      WriterKeeps(x, s, event, p);
      DbtIsLocal(x, s, event);
      HistoryUntouched(s, Step(x, s, event), p);
    } else {
      StepKeeps(x, s, event);
      StepExtends(x, s, event);
      TablesUntouched(x, s, event, p);
      TableCarries(x, s, Step(x, s, event), p);
    }
  }

  lemma FactsStep(x: Externals, s: State, event: Event)
    requires x.Valid() && Inv(x, s) && FactsOk(x, s)
    ensures FactsOk(x, Step(x, s, event))
  {
    TableStep(x, s, event, Lmp);
    TableStep(x, s, event, Load);
  }

  lemma FactsOfEmpty(x: Externals)
    ensures FactsOk(x, Empty())
  {
    assert Empty().HistoryOf(Lmp) == [] && Empty().HistoryOf(Load) == [];
  }

  lemma {:induction false} FactsHold(x: Externals, events: seq<Event>)
    requires x.Valid()
    ensures FactsOk(x, Play(x, Empty(), events))
  {
    if events == [] {
      FactsOfEmpty(x);
    } else {
      FactsHold(x, events[..|events| - 1]);
      InvariantHolds(x, events[..|events| - 1]);
      FactsStep(x, Play(x, Empty(), events[..|events| - 1]), events[|events| - 1]);
    }
  }

  // ---------- the main theorems ----------

  lemma PlayOne(x: Externals, s: State, events: seq<Event>, event: Event)
    ensures Play(x, s, events + [event]) == Step(x, Play(x, s, events), event)
  {
    assert (events + [event])[..|events|] == events;
  }

  /** At any build in any run, the incremental merge gives the full refresh, field for field. */
  lemma IncrementalEqualsFullRefresh(x: Externals, events: seq<Event>, product: Product)
    requires x.Valid()
    ensures Play(x, Empty(), events + [Build(product)]) == Play(x, Empty(), events + [Refresh(product)])
  {
    PlayOne(x, Empty(), events, Build(product));
    PlayOne(x, Empty(), events, Refresh(product));
    InvariantHolds(x, events);
    FactsHold(x, events);
    BuildIsRefresh(x, Play(x, Empty(), events), product);
  }

  lemma FullRefreshMeans(x: Externals, s: State, product: Product)
    requires Inv(x, s)
    ensures FactMeans(FullRefresh(x, s.HistoryOf(product)), Where(s.log, BatchSucceeded(s.runs)), product)
  {
    var n := |Final(s)|;
    SucceededIsPrefix(x, s);
    RankMeans(x, s, product, n);
    HistoryBounded(x, s, product);
    WhereAll(s.HistoryOf(product), UpToSequence(n));
    assert s.log[..n] == Final(s);
  }

  /** Refinement: after a build, in every interleaving, the fact table is the last-writer-wins map of
      the SUCCEEDED batches in commit order. */
  lemma FactRefinesLastWriter(x: Externals, events: seq<Event>, product: Product)
    requires x.Valid()
    ensures var s := Play(x, Empty(), events + [Build(product)]);
            FactMeans(s.FactOf(product), Where(s.log, BatchSucceeded(s.runs)), product)
  {
    PlayOne(x, Empty(), events, Build(product));
    InvariantHolds(x, events);
    FactsHold(x, events);
    BuildIsRefresh(x, Play(x, Empty(), events), product);
    FullRefreshMeans(x, Play(x, Empty(), events), product);
  }

  // ---------- one build in flight ----------

  lemma {:induction false} TablesWait(x: Externals, s: State, events: seq<Event>, p: Product)
    requires forall e | e in events :: !Writes(e, p)
    ensures SameTable(s, Play(x, s, events), p)
  {
    if events != [] {
      var front, last := events[..|events| - 1], events[|events| - 1];
      assert last in events && forall e | e in front :: e in events;
      TablesWait(x, s, front, p);
      TablesUntouched(x, Play(x, s, front), last, p);
    }
  }

  lemma MergeTakes(x: Externals, s: State, s': State, p: Product)
    requires SameTable(SelectOnce(x, s, p), s', p)
    ensures MergeOnce(s', p).FactOf(p) == Incremental(x, s.HistoryOf(p), s.FactOf(p))
    ensures MergeOnce(s', p).BuildOf(p).None?
  {
    SelectedTable(x, s, p);
    MergedTable(s', p, Candidates(x, s.HistoryOf(p), s.FactOf(p)));
  }

  /** Whatever happens between the select and the merge of a build, except another build of the same fact, it
      leaves the full refresh of the moment it selected. */
  lemma LateMergeIsRefresh(x: Externals, s: State, more: seq<Event>, p: Product)
    requires x.Valid() && Inv(x, s) && FactsOk(x, s) && forall e | e in more :: !Writes(e, p)
    ensures var merged := Step(x, Play(x, Step(x, s, Select(p)), more), Merge(p));
            merged.FactOf(p) == FullRefresh(x, s.HistoryOf(p)) && merged.BuildOf(p).None?
  {
    var selected := Step(x, s, Select(p));
    TablesWait(x, selected, more, p);
    BuildFacts(x, s, p);
    LateMerge(x, s, selected, Play(x, selected, more), p);
  }

  lemma LateMerge(x: Externals, s: State, selected: State, waiting: State, p: Product)
    requires selected == Step(x, s, Select(p)) && SameTable(selected, waiting, p)
    ensures var merged := Step(x, waiting, Merge(p));
            && merged.FactOf(p) == Incremental(x, s.HistoryOf(p), s.FactOf(p))
            && merged.BuildOf(p).None?
  {
    StepSelect(x, s, p);
    StepMerge(x, waiting, p);
    MergeTakes(x, s, waiting, p);
  }

  /** Refinement with a build in flight: in every interleaving the fact then is the last-writer-wins map of what
      had SUCCEEDED when the build selected, whatever else has SUCCEEDED before it merged. */
  lemma LateMergeRefinesLastWriter(x: Externals, events: seq<Event>, more: seq<Event>, p: Product)
    requires x.Valid() && forall e | e in more :: !Writes(e, p)
    ensures var s := Play(x, Empty(), events);
            var merged := Step(x, Play(x, Step(x, s, Select(p)), more), Merge(p));
            FactMeans(merged.FactOf(p), Where(s.log, BatchSucceeded(s.runs)), p)
  {
    InvariantHolds(x, events);
    FactsHold(x, events);
    LateMergeIsRefresh(x, Play(x, Empty(), events), more, p);
    FullRefreshMeans(x, Play(x, Empty(), events), p);
  }

  ghost predicate IsPrefixMap(s: State, product: Product) {
    var mark := Watermark(s.FactOf(product));
    mark <= |Final(s)| && FactMeans(s.FactOf(product), s.log[..mark], product)
  }

  lemma FactAtMark(x: Externals, s: State, product: Product)
    requires Inv(x, s) && FactOk(x, s.HistoryOf(product), s.FactOf(product))
    ensures IsPrefixMap(s, product)
  {
    MarkIsFinal(x, s, product);
    RankMeans(x, s, product, Watermark(s.FactOf(product)));
  }

  /** Between builds the fact is never torn: it is the last-writer-wins map of the batches up to its watermark. */
  lemma FactIsAlwaysAPrefix(x: Externals, events: seq<Event>, product: Product)
    requires x.Valid()
    ensures IsPrefixMap(Play(x, Empty(), events), product)
  {
    InvariantHolds(x, events);
    FactsHold(x, events);
    FactAtMark(x, Play(x, Empty(), events), product);
  }

  lemma MarkIsFinal(x: Externals, s: State, product: Product)
    requires Inv(x, s) && FactOk(x, s.HistoryOf(product), s.FactOf(product))
    ensures Watermark(s.FactOf(product)) <= |Final(s)|
  {
    var fact, h := s.FactOf(product), s.HistoryOf(product);
    var mark := Watermark(fact);
    if fact != map[] {
      var k :| k in fact && fact[k].state.sequence == mark;
      HistoryOrdered(x, s, product);
      HistoryBounded(x, s, product);
      WhereKeepsOrder(h, UpToSequence(mark));
      RankIsLast(x, Where(h, UpToSequence(mark)));
      LastComesFrom(Where(h, UpToSequence(mark)), k);
      WhereMember(h, UpToSequence(mark), fact[k]);
    }
  }
}
