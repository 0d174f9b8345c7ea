// The middle of a list of numbers (statistics.median, as backtesting/engine.py uses it).
module Statistics {
  import opened Base
  import opened Sorting

  function Itself(): real -> real {
    (v: real) => v
  }

  function Under(m: real): real -> bool {
    (v: real) => v < m
  }

  function Over(m: real): real -> bool {
    (v: real) => v > m
  }

  function Arranged(values: seq<real>): (r: seq<real>)
    ensures |r| == |values| && multiset(r) == multiset(values)
  {
    SortByCorrect(Itself(), values);
    SameLength(values, SortBy(Itself(), values));
    SortBy(Itself(), values)
  }

  /** The middle value, or halfway between the two middle ones. */
  function Median(values: seq<real>): real
    requires values != []
  {
    var sorted, half := Arranged(values), |values| / 2;
    if |values| % 2 == 1 then sorted[half] else (sorted[half - 1] + sorted[half]) / 2.0
  }

  lemma FewUnder(s: seq<real>, h: nat, m: real)
    requires Ascending(Itself(), s) && h < |s| && m <= s[h]
    ensures |Where(s, Under(m))| <= h
  {
    forall v | v in s[h..]
      ensures !Under(m)(v)
    {
      var i :| 0 <= i < |s[h..]| && s[h..][i] == v;
      assert Itself()(s[h]) <= Itself()(s[h + i]);
    }
    WhereNone(s[h..], Under(m));
    WhereConcat(s[..h], s[h..], Under(m));
    assert s == s[..h] + s[h..];
  }

  lemma FewOver(s: seq<real>, h: nat, m: real)
    requires Ascending(Itself(), s) && h < |s| && s[h] <= m
    ensures |Where(s, Over(m))| <= |s| - h - 1
  {
    forall v | v in s[..h + 1]
      ensures !Over(m)(v)
    {
      var i :| 0 <= i < |s[..h + 1]| && s[..h + 1][i] == v;
      assert Itself()(s[i]) <= Itself()(s[h]);
    }
    WhereNone(s[..h + 1], Over(m));
    WhereConcat(s[..h + 1], s[h + 1..], Over(m));
    assert s == s[..h + 1] + s[h + 1..];
  }

  lemma CountsPermute(a: seq<real>, b: seq<real>, keep: real -> bool)
    requires multiset(a) == multiset(b)
    ensures |Where(a, keep)| == |Where(b, keep)|
  {
    WherePermutes(a, b, keep);
    SameLength(Where(a, keep), Where(b, keep));
  }

  lemma Halfway(a: real, b: real)
    requires a <= b
    ensures a <= (a + b) / 2.0 <= b
  {
  }

  lemma MedianIsMiddle(values: seq<real>)
    requires values != []
    ensures Arranged(values)[(|values| - 1) / 2] <= Median(values) <= Arranged(values)[|values| / 2]
    ensures Ascending(Itself(), Arranged(values))
  {
    var sorted, half := Arranged(values), |values| / 2;
    SortByCorrect(Itself(), values);
    if |values| % 2 == 0 {
      assert Itself()(sorted[half - 1]) <= Itself()(sorted[half]);
      Halfway(sorted[half - 1], sorted[half]);
    }
  }

  /** At most half of the values lie under the median and at most half over it. */
  lemma MedianSplits(values: seq<real>)
    requires values != []
    ensures 2 * |Where(values, Under(Median(values)))| <= |values|
    ensures 2 * |Where(values, Over(Median(values)))| <= |values|
  {
    var m := Median(values);
    MedianIsMiddle(values);
    SplitBy(values, Arranged(values), m);
  }

  lemma SplitBy(values: seq<real>, sorted: seq<real>, m: real)
    requires values != [] && |sorted| == |values| && multiset(sorted) == multiset(values)
    requires Ascending(Itself(), sorted) && sorted[(|values| - 1) / 2] <= m <= sorted[|values| / 2]
    ensures 2 * |Where(values, Under(m))| <= |values| && 2 * |Where(values, Over(m))| <= |values|
  {
    CountsPermute(sorted, values, Under(m));
    CountsPermute(sorted, values, Over(m));
    FewUnder(sorted, |values| / 2, m);
    FewOver(sorted, (|values| - 1) / 2, m);
  }
}
