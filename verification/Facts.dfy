// The dbt models: staging filters, the revision-history join, the current-state ranking and the
// incremental merge behind the fact's own watermark.
module Facts {
  import opened Base
  import opened Batches
  import opened Planner

  datatype Status = Started | Committed | Succeeded | Failed

  /** One row of ingestion_runs. */
  datatype Run = Run(request: Request, status: Status, commitCompleted: bool, commitSequence: Option<nat>,
                     batchHash: Option<map<Key, ContentHash>>, rowsAccepted: Option<nat>,
                     newContents: Option<nat>, newTransitions: Option<nat>, knowledgeAt: Option<nat>)

  /** The two raw tables of one product. */
  datatype Tables = Tables(contents: seq<Content>, transitions: seq<Transition>)

  /** One row of int_*_revision_history: every content column and every state column. */
  datatype HistoryRow = HistoryRow(content: Content, state: Transition)

  /** A fact table, keyed by its unique_key logical_key. */
  type Fact = map<Key, HistoryRow>

  // ---------- staging ----------

  predicate Eligible(runs: map<RunId, Run>, run: RunId) {
    run in runs && runs[run].status == Succeeded
  }

  function ContentEligible(runs: map<RunId, Run>): Content -> bool {
    (c: Content) => Eligible(runs, c.firstRun)
  }

  function TransitionEligible(runs: map<RunId, Run>): Transition -> bool {
    (t: Transition) => Eligible(runs, t.run)
  }

  function StagedContents(runs: map<RunId, Run>, tables: Tables): seq<Content> {
    Where(tables.contents, ContentEligible(runs))
  }

  function StagedTransitions(runs: map<RunId, Run>, tables: Tables): seq<Transition> {
    Where(tables.transitions, TransitionEligible(runs))
  }

  // ---------- the revision history: an inner join on content_id ----------

  function JoinOne(t: Transition, contents: seq<Content>): seq<HistoryRow> {
    if contents == [] then []
    else
      var c := contents[|contents| - 1];
      JoinOne(t, contents[..|contents| - 1]) + if c.Id() == t.Content() then [HistoryRow(c, t)] else []
  }

  function Join(transitions: seq<Transition>, contents: seq<Content>): seq<HistoryRow> {
    if transitions == [] then []
    else Join(transitions[..|transitions| - 1], contents) + JoinOne(transitions[|transitions| - 1], contents)
  }

  function History(runs: map<RunId, Run>, tables: Tables): seq<HistoryRow> {
    Join(StagedTransitions(runs, tables), StagedContents(runs, tables))
  }

  // ---------- current state: the first row of each logical key ----------

  /** `a` comes before `b`: by ordinal, then by commit sequence, then by transition ID, the largest first. */
  predicate Beats(x: Externals, a: HistoryRow, b: HistoryRow) {
    || a.state.ordinal > b.state.ordinal
    || (a.state.ordinal == b.state.ordinal && a.state.sequence > b.state.sequence)
    || (a.state.ordinal == b.state.ordinal && a.state.sequence == b.state.sequence
        && x.stateOrder(a.state.Id()) > x.stateOrder(b.state.Id()))
  }

  function Rank(x: Externals, history: seq<HistoryRow>): Fact {
    if history == [] then map[]
    else
      var best, row := Rank(x, history[..|history| - 1]), history[|history| - 1];
      if row.state.key in best && !Beats(x, row, best[row.state.key]) then best else best[row.state.key := row]
  }

  function AboveSequence(mark: nat): HistoryRow -> bool {
    (row: HistoryRow) => row.state.sequence > mark
  }

  function UpToSequence(mark: nat): HistoryRow -> bool {
    (row: HistoryRow) => row.state.sequence <= mark
  }

  lemma {:induction false} HasMaximum(s: set<nat>) returns (m: nat)
    requires s != {}
    ensures m in s && forall n | n in s :: n <= m
  {
    var e :| e in s;
    m := e;
    if s != {e} {
      var rest := HasMaximum(s - {e});
      m := if rest < e then e else rest;
      forall n | n in s
        ensures n <= m
      {
        assert n == e || n in s - {e};
      }
    }
  }

  /** The largest commit sequence a fact table holds, 0 while it is empty. */
  function Watermark(fact: Fact): (mark: nat)
    ensures forall k | k in fact :: fact[k].state.sequence <= mark
    ensures if fact == map[] then mark == 0 else exists k :: k in fact && fact[k].state.sequence == mark
  {
    var sequences := set k | k in fact :: fact[k].state.sequence;
    if fact == map[] then 0
    else
      assert sequences != {} by {
        var k :| k in fact;
        assert fact[k].state.sequence in sequences;
      }
      assert exists m :: m in sequences && forall n | n in sequences :: n <= m by {
        var m := HasMaximum(sequences);
      }
      var mark :| mark in sequences && forall n | n in sequences :: n <= mark;
      assert forall k | k in fact :: fact[k].state.sequence in sequences;
      mark
  }

  /** What an incremental dbt run selects: the ranking of the history above the fact's watermark. */
  function Candidates(x: Externals, history: seq<HistoryRow>, fact: Fact): Fact {
    Rank(x, Where(history, AboveSequence(Watermark(fact))))
  }

  /** One incremental dbt run: select, and merge by logical_key. */
  function Incremental(x: Externals, history: seq<HistoryRow>, fact: Fact): Fact {
    fact + Candidates(x, history, fact)
  }

  /** A first build or a --full-refresh: rank all of the history. */
  function FullRefresh(x: Externals, history: seq<HistoryRow>): Fact {
    Rank(x, history)
  }
}
