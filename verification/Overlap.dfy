// Why dbt needs its one writer per target (docs/adr/006-dbt-analytical-state.md): what a second build that
// overlaps the first does to a fact, and exactly when the next build repairs it.
module Overlap {
  import opened Base
  import opened Batches
  import opened Facts
  import opened Protocol
  import opened Safety
  import opened Progress
  import opened Refinement
  import opened Theorems

  /** Rows of the history, each under its own key. */
  ghost predicate RowsFrom(candidates: Fact, history: seq<HistoryRow>) {
    forall key | key in candidates :: candidates[key] in history && candidates[key].state.key == key
  }

  ghost predicate OrderedHistory(history: seq<HistoryRow>) {
    KeyOrdered(States(history)) && InCommitOrder(history)
  }

  lemma LatestSequence(history: seq<HistoryRow>, row: HistoryRow)
    requires OrderedHistory(history) && row in history
    ensures row.state.key in LastByKey(history)
    ensures row.state.sequence <= LastByKey(history)[row.state.key].state.sequence
    decreases |history|
  {
    var front, last := history[..|history| - 1], history[|history| - 1];
    assert history == front + [last];
    assert States(front) == States(history)[..|front|];
    var i :| 0 <= i < |history| && history[i] == row;
    assert States(history)[i].sequence <= States(history)[|front|].sequence;
    if row in front && last.state.key != row.state.key {
      LatestSequence(front, row);
    }
  }

  /** The part of the history above a mark has the current row of exactly those keys that are current above it. */
  lemma AboveMark(x: Externals, history: seq<HistoryRow>, mark: nat, key: Key)
    requires OrderedHistory(history)
    ensures var full, above := FullRefresh(x, history), Rank(x, Where(history, AboveSequence(mark)));
            && (key in above <==> key in full && full[key].state.sequence > mark)
            && (key in above ==> above[key] == full[key])
  {
    var lo, hi := Where(history, UpToSequence(mark)), Where(history, AboveSequence(mark));
    WatermarkSplits(history, mark);
    WhereKeepsOrder(history, AboveSequence(mark));
    RankIsLast(x, history);
    RankIsLast(x, hi);
    LastConcat(lo, hi);
    LastComesFrom(hi, key);
    LastComesFrom(lo, key);
    if key in LastByKey(hi) {
      WhereMember(history, AboveSequence(mark), LastByKey(hi)[key]);
    } else if key in LastByKey(lo) {
      WhereMember(history, UpToSequence(mark), LastByKey(lo)[key]);
    }
  }

  /** An outdated row that the watermark has passed. */
  ghost predicate Damaged(full: Fact, late: Fact, key: Key) {
    key in late && key in full && late[key] != full[key] && full[key].state.sequence <= Watermark(late)
  }

  lemma RowsAreKnown(x: Externals, history: seq<HistoryRow>, candidates: Fact)
    requires OrderedHistory(history) && RowsFrom(candidates, history)
    ensures forall key | key in candidates :: key in FullRefresh(x, history)
  {
    RankIsLast(x, history);
    forall key | key in candidates
      ensures key in FullRefresh(x, history)
    {
      LatestSequence(history, candidates[key]);
    }
  }

  /** The next build repairs a late merge exactly when no key is left with an outdated row below the watermark. */
  lemma LateMergeRepaired(x: Externals, history: seq<HistoryRow>, candidates: Fact)
    requires OrderedHistory(history) && RowsFrom(candidates, history)
    ensures var full := FullRefresh(x, history);
            Incremental(x, history, full + candidates) == full <==>
              forall key | key in candidates :: !Damaged(full, full + candidates, key)
  {
    var full := FullRefresh(x, history);
    var late := full + candidates;
    var repaired := Incremental(x, history, late);
    RowsAreKnown(x, history, candidates);
    forall key
      ensures key in repaired <==> key in full
      ensures key in repaired ==> (repaired[key] == full[key] <==> !Damaged(full, late, key))
    {
      AboveMark(x, history, Watermark(late), key);
    }
    if forall key | key in candidates :: !Damaged(full, late, key) {
      forall key | key in full
        ensures repaired[key] == full[key]
      {
        assert key !in candidates ==> late[key] == full[key];
      }
      assert repaired == full;
    } else {
      var key :| key in candidates && Damaged(full, late, key);
      assert key in repaired && repaired[key] != full[key];
    }
  }

  /** No later build repairs a damaged key until it has a row above the watermark: its outdated row stays. */
  lemma DamageStays(x: Externals, history: seq<HistoryRow>, fact: Fact, key: Key)
    requires OrderedHistory(history) && key in fact
    requires forall row | row in history && row.state.key == key :: row.state.sequence <= Watermark(fact)
    ensures var next := Incremental(x, history, fact);
            key in next && next[key] == fact[key] && Watermark(next) >= Watermark(fact)
  {
    var above := Where(history, AboveSequence(Watermark(fact)));
    WhereKeepsOrder(history, AboveSequence(Watermark(fact)));
    RankIsLast(x, above);
    LastComesFrom(above, key);
    if key in LastByKey(above) {
      WhereMember(history, AboveSequence(Watermark(fact)), LastByKey(above)[key]);
    }
    var top :| top in fact && fact[top].state.sequence == Watermark(fact);
    LastComesFrom(above, top);
    if top in LastByKey(above) {
      WhereMember(history, AboveSequence(Watermark(fact)), LastByKey(above)[top]);
    }
    var next := Incremental(x, history, fact);
    assert top in next && next[top].state.sequence >= Watermark(fact);
  }

  lemma CandidatesAreRows(x: Externals, s: State, s': State, p: Product)
    requires Inv(x, s) && Inv(x, s') && Extends(s, s')
    ensures RowsFrom(Candidates(x, s.HistoryOf(p), s.FactOf(p)), s'.HistoryOf(p))
  {
    var above := Where(s.HistoryOf(p), AboveSequence(Watermark(s.FactOf(p))));
    HistoryOrdered(x, s, p);
    WhereKeepsOrder(s.HistoryOf(p), AboveSequence(Watermark(s.FactOf(p))));
    RankIsLast(x, above);
    ExtendsFinal(x, s, s');
    HistoryGrows(x, s, s', p);
    forall key | key in LastByKey(above)
      ensures LastByKey(above)[key] in s'.HistoryOf(p) && LastByKey(above)[key].state.key == key
    {
      LastComesFrom(above, key);
      WhereMember(s.HistoryOf(p), AboveSequence(Watermark(s.FactOf(p))), LastByKey(above)[key]);
    }
  }

  /** Two builds overlap: the first selects, a second one selects and merges later, and then the first merges.
      The fact is in order again after the next build exactly when that leaves no key damaged. */
  lemma OverlappingBuilds(x: Externals, events: seq<Event>, more: seq<Event>, p: Product)
    requires x.Valid()
    ensures var s := Play(x, Empty(), events);
            var s' := Play(x, s, more);
            var first := Candidates(x, s.HistoryOf(p), s.FactOf(p));
            var full := FullRefresh(x, s'.HistoryOf(p));
            Incremental(x, s'.HistoryOf(p), full + first) == full <==>
              forall key | key in first :: !Damaged(full, full + first, key)
  {
    var s := Play(x, Empty(), events);
    var s' := Play(x, s, more);
    InvariantHolds(x, events);
    PlayKeeps(x, s, more);
    PlayExtends(x, s, more);
    HistoryOrdered(x, s', p);
    CandidatesAreRows(x, s, s', p);
    LateMergeRepaired(x, s'.HistoryOf(p), Candidates(x, s.HistoryOf(p), s.FactOf(p)));
  }

  /** It does happen: one revision of a key was selected, then a second one arrived together with another key. */
  lemma OverlapDamages(x: Externals, before: HistoryRow, after: HistoryRow, beside: HistoryRow)
    requires before.state.key == after.state.key != beside.state.key
    requires before.state.ordinal < after.state.ordinal
    requires 0 < before.state.sequence < after.state.sequence == beside.state.sequence
    ensures var first := Candidates(x, [before], map[]);
            var full := FullRefresh(x, [before, after, beside]);
            && Damaged(full, full + first, before.state.key)
            && Incremental(x, [before, after, beside], full + first)[before.state.key] == before
  {
    RanksOf(x, before, after, beside);
    LateIs(x, before, after, beside);
    StaysOutdated(x, before, after, beside);
  }

  lemma LateIs(x: Externals, before: HistoryRow, after: HistoryRow, beside: HistoryRow)
    requires before.state.key == after.state.key != beside.state.key
    requires before.state.ordinal < after.state.ordinal && 0 < before.state.sequence
    ensures FullRefresh(x, [before, after, beside]) + Candidates(x, [before], map[]) ==
            map[before.state.key := before, beside.state.key := beside]
  {
    RanksOf(x, before, after, beside);
    assert Watermark(map[]) == 0;
    WhereAll([before], AboveSequence(0));
  }

  lemma StaysOutdated(x: Externals, before: HistoryRow, after: HistoryRow, beside: HistoryRow)
    requires before.state.key != beside.state.key
    requires before.state.sequence < after.state.sequence == beside.state.sequence
    ensures var late: Fact := map[before.state.key := before, beside.state.key := beside];
            && after.state.sequence <= Watermark(late)
            && Incremental(x, [before, after, beside], late) == late
  {
    var late: Fact := map[before.state.key := before, beside.state.key := beside];
    assert late[beside.state.key].state.sequence <= Watermark(late);
    WhereNone([before, after, beside], AboveSequence(Watermark(late)));
    assert Candidates(x, [before, after, beside], late) == map[];
  }

  lemma RanksOf(x: Externals, before: HistoryRow, after: HistoryRow, beside: HistoryRow)
    requires before.state.key == after.state.key != beside.state.key
    requires before.state.ordinal < after.state.ordinal
    ensures Rank(x, [before]) == map[before.state.key := before]
    ensures Rank(x, [before, after, beside]) == map[before.state.key := after, beside.state.key := beside]
  {
    assert [before][..0] == [] && [before, after][..1] == [before] && [before, after, beside][..2] == [before, after];
    assert Rank(x, [before]) == map[before.state.key := before];
    assert Rank(x, [before, after]) == map[before.state.key := after];
  }
}
