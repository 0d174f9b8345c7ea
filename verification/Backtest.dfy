// The daily backtest (backtesting/engine.py): its coverage check, its grouping by Pacific day, and the
// activity and cycle metrics it derives from checked dispatches.
module Backtest {
  import opened Base
  import opened Sorting
  import opened Batches
  import opened Dispatch

  const MAX_DAYS := 7

  /** One input row; `key` stands for its logical_key and `lineage` for the columns that are only carried. */
  datatype MarketPrice = MarketPrice(start: int, end: int, price: real, day: int, hub: Hub, key: nat, lineage: nat)

  /** What the constructors of PriceInterval and MarketPrice guarantee of every row. */
  ghost predicate Proper(x: Externals, inputs: seq<MarketPrice>) {
    forall p | p in inputs :: p.end == p.start + HOUR && x.InDay(p.start, p.day)
  }

  datatype BacktestError = BadRange | IncompleteDay | UnequalSoc | Outside | DuplicateInput | Gap(day: int)
                         | SolverFailed(day: int)

  /** The hub and the inclusive range of Pacific days asked for. */
  datatype Range = Range(start: int, end: int, hub: Hub)

  function Days(range: Range): int {
    range.end - range.start + 1
  }

  // ---------- coverage ----------

  function OnDay(day: int): MarketPrice -> bool {
    (p: MarketPrice) => p.day == day
  }

  function ByStart(): MarketPrice -> real {
    (p: MarketPrice) => p.start as real
  }

  /** The rows of one Pacific day, in time order. */
  function DayRows(inputs: seq<MarketPrice>, day: int): seq<MarketPrice> {
    SortBy(ByStart(), Where(inputs, OnDay(day)))
  }

  /** Hour after hour from `from` on. */
  predicate Hourly(rows: seq<MarketPrice>, from: int) {
    forall i | 0 <= i < |rows| :: rows[i].start == from + i * HOUR && rows[i].end == from + (i + 1) * HOUR
  }

  predicate Continuous(x: Externals, rows: seq<MarketPrice>, day: int) {
    |rows| == x.DayLength(day) / HOUR && Hourly(rows, x.midnight(day))
  }

  predicate AllInside(inputs: seq<MarketPrice>, range: Range) {
    forall p | p in inputs :: p.hub == range.hub && range.start <= p.day <= range.end
  }

  function InputKeys(inputs: seq<MarketPrice>): set<nat> {
    set i | 0 <= i < |inputs| :: inputs[i].key
  }

  function CoveredDay(x: Externals, inputs: seq<MarketPrice>): int -> bool {
    (day: int) => Continuous(x, DayRows(inputs, day), day)
  }

  /** The first of n days that is not `covered`, if any. */
  function FirstNot(covered: int -> bool, start: int, n: nat): Option<int> {
    if n == 0 then None
    else if FirstNot(covered, start, n - 1).Some? then FirstNot(covered, start, n - 1)
    else if covered(start + n - 1) then None
    else Some(start + n - 1)
  }

  function FirstGap(x: Externals, inputs: seq<MarketPrice>, start: int, n: nat): Option<int> {
    FirstNot(CoveredDay(x, inputs), start, n)
  }

  function Groups(inputs: seq<MarketPrice>, start: int, n: nat): (r: seq<seq<MarketPrice>>)
    ensures |r| == n
  {
    seq(n, i requires 0 <= i < n => DayRows(inputs, start + i))
  }

  /** Day by day, up to the first that is not covered. */
  method GroupEach(x: Externals, inputs: seq<MarketPrice>, start: int, n: nat)
    returns (r: Result<seq<seq<MarketPrice>>, BacktestError>)
    ensures match FirstGap(x, inputs, start, n)
            case Some(day) => r == Err(Gap(day))
            case None => r == Ok(Groups(inputs, start, n))
  {
    var groups: seq<seq<MarketPrice>> := [];
    for i := 0 to n
      invariant groups == Groups(inputs, start, i)
      invariant FirstGap(x, inputs, start, i).None?
    {
      var day := start + i;
      var rows := DayRows(inputs, day);
      if !Continuous(x, rows, day) {
        GapIsFirst(CoveredDay(x, inputs), start, i, n);
        return Err(Gap(day));
      }
      GroupsGrow(inputs, start, i);
      groups := groups + [rows];
    }
    r := Ok(groups);
  }

  /** The daily groups, or the first reason not to form them. */
  function GroupsOf(x: Externals, today: int, inputs: seq<MarketPrice>, range: Range, config: BatteryConfig):
    Result<seq<seq<MarketPrice>>, BacktestError>
  {
    if !(1 <= Days(range) <= MAX_DAYS) then Err(BadRange)
    else if range.end >= today then Err(IncompleteDay)
    else if config.initial != config.terminal then Err(UnequalSoc)
    else if !AllInside(inputs, range) then Err(Outside)
    else if |InputKeys(inputs)| != |inputs| then Err(DuplicateInput)
    else
      match FirstGap(x, inputs, range.start, Days(range))
      case Some(day) => Err(Gap(day))
      case None => Ok(Groups(inputs, range.start, Days(range)))
  }

  method GroupDays(x: Externals, today: int, inputs: seq<MarketPrice>, range: Range, config: BatteryConfig)
    returns (r: Result<seq<seq<MarketPrice>>, BacktestError>)
    ensures r == GroupsOf(x, today, inputs, range, config)
  {
    if !(1 <= Days(range) <= MAX_DAYS) {
      return Err(BadRange);
    }
    if range.end >= today {
      return Err(IncompleteDay);
    }
    if config.initial != config.terminal {
      return Err(UnequalSoc);
    }
    if !AllInside(inputs, range) {
      return Err(Outside);
    }
    if |InputKeys(inputs)| != |inputs| {
      return Err(DuplicateInput);
    }
    r := GroupEach(x, inputs, range.start, Days(range));
  }

  lemma {:induction false} GapIsFirst(covered: int -> bool, start: int, i: nat, n: nat)
    requires i < n && FirstNot(covered, start, i).None? && !covered(start + i)
    ensures FirstNot(covered, start, n) == Some(start + i)
    decreases n
  {
    if i + 1 < n {
      GapIsFirst(covered, start, i, n - 1);
    }
  }

  lemma {:induction false} NoneMeansAll(covered: int -> bool, start: int, n: nat)
    ensures FirstNot(covered, start, n).None? <==> forall day | start <= day < start + n :: covered(day)
  {
    if n > 0 {
      NoneMeansAll(covered, start, n - 1);
    }
  }

  ghost predicate Covered(x: Externals, inputs: seq<MarketPrice>, from: int, until: int) {
    forall day | from <= day < until :: Continuous(x, DayRows(inputs, day), day)
  }

  lemma NoGapMeans(x: Externals, inputs: seq<MarketPrice>, start: int, n: nat)
    ensures FirstGap(x, inputs, start, n).None? <==> Covered(x, inputs, start, start + n)
  {
    NoneMeansAll(CoveredDay(x, inputs), start, n);
    assert forall day :: CoveredDay(x, inputs)(day) <==> Continuous(x, DayRows(inputs, day), day);
  }

  // ---------- the order of the inputs is irrelevant ----------

  lemma HourlyAscends(rows: seq<MarketPrice>, from: int)
    requires Hourly(rows, from)
    ensures StrictlyAscending(ByStart(), rows)
  {
  }

  /** A strictly ascending arrangement is the only sorted one. */
  lemma SortedAlready(s: seq<MarketPrice>, arranged: seq<MarketPrice>)
    requires multiset(s) == multiset(arranged) && StrictlyAscending(ByStart(), arranged)
    ensures SortBy(ByStart(), s) == arranged
  {
    SortByCorrect(ByStart(), s);
    MultisetDistinct(ByStart(), arranged, SortBy(ByStart(), s));
    ArrangementUnique(ByStart(), SortBy(ByStart(), s), arranged);
  }

  lemma DayRowsPermute(x: Externals, a: seq<MarketPrice>, b: seq<MarketPrice>, day: int)
    requires multiset(a) == multiset(b) && Continuous(x, DayRows(a, day), day)
    ensures DayRows(b, day) == DayRows(a, day)
  {
    WherePermutes(a, b, OnDay(day));
    SortByCorrect(ByStart(), Where(a, OnDay(day)));
    HourlyAscends(DayRows(a, day), x.midnight(day));
    SortedAlready(Where(b, OnDay(day)), DayRows(a, day));
  }

  lemma ContinuityPermutes(x: Externals, a: seq<MarketPrice>, b: seq<MarketPrice>, day: int)
    requires multiset(a) == multiset(b)
    ensures CoveredDay(x, a)(day) == CoveredDay(x, b)(day)
  {
    if Continuous(x, DayRows(a, day), day) {
      DayRowsPermute(x, a, b, day);
    } else if Continuous(x, DayRows(b, day), day) {
      DayRowsPermute(x, b, a, day);
    }
  }

  lemma {:induction false} FirstNotAgrees(f: int -> bool, g: int -> bool, start: int, n: nat)
    requires forall day :: f(day) == g(day)
    ensures FirstNot(f, start, n) == FirstNot(g, start, n)
  {
    if n > 0 {
      FirstNotAgrees(f, g, start, n - 1);
    }
  }

  lemma FirstGapPermutes(x: Externals, a: seq<MarketPrice>, b: seq<MarketPrice>, start: int, n: nat)
    requires multiset(a) == multiset(b)
    ensures FirstGap(x, a, start, n) == FirstGap(x, b, start, n)
  {
    forall day
      ensures CoveredDay(x, a)(day) == CoveredDay(x, b)(day)
    {
      ContinuityPermutes(x, a, b, day);
    }
    FirstNotAgrees(CoveredDay(x, a), CoveredDay(x, b), start, n);
  }

  lemma {:induction false} CoveredGroupsPermute(x: Externals, a: seq<MarketPrice>, b: seq<MarketPrice>, start: int,
                                                n: nat)
    requires multiset(a) == multiset(b) && Covered(x, a, start, start + n)
    ensures Groups(a, start, n) == Groups(b, start, n)
  {
    if n > 0 {
      CoveredGroupsPermute(x, a, b, start, n - 1);
      assert Continuous(x, DayRows(a, start + n - 1), start + n - 1);
      DayRowsPermute(x, a, b, start + n - 1);
      GroupsGrow(a, start, n - 1);
      GroupsGrow(b, start, n - 1);
    }
  }

  lemma GroupsGrow(inputs: seq<MarketPrice>, start: int, n: nat)
    ensures Groups(inputs, start, n + 1) == Groups(inputs, start, n) + [DayRows(inputs, start + n)]
  {
  }

  lemma KeysPermute(a: seq<MarketPrice>, b: seq<MarketPrice>)
    requires multiset(a) == multiset(b)
    ensures InputKeys(a) == InputKeys(b) && forall p :: p in a <==> p in b
  {
    forall p
      ensures p in a <==> p in b
    {
      assert p in multiset(a) <==> p in multiset(b);
    }
    forall k
      ensures k in InputKeys(a) <==> k in InputKeys(b)
    {
      if i :| 0 <= i < |a| && a[i].key == k {
        assert a[i] in b;
      }
      if i :| 0 <= i < |b| && b[i].key == k {
        assert b[i] in a;
      }
    }
  }

  /** The groups, and any refusal to form them, are the same for every order of the inputs. */
  lemma GroupsPermute(x: Externals, today: int, a: seq<MarketPrice>, b: seq<MarketPrice>, range: Range,
                      config: BatteryConfig)
    requires multiset(a) == multiset(b)
    ensures GroupsOf(x, today, a, range, config) == GroupsOf(x, today, b, range, config)
  {
    SameLength(a, b);
    KeysPermute(a, b);
    if Days(range) >= 1 {
      FirstGapPermutes(x, a, b, range.start, Days(range));
      NoGapMeans(x, a, range.start, Days(range));
      if FirstGap(x, a, range.start, Days(range)).None? {
        CoveredGroupsPermute(x, a, b, range.start, Days(range));
      }
    }
  }

  // ---------- the groups tile the range ----------

  function Flatten(groups: seq<seq<MarketPrice>>): seq<MarketPrice> {
    if groups == [] then [] else Flatten(groups[..|groups| - 1]) + groups[|groups| - 1]
  }

  /** Exactly one row for every hour of [midnight(from), midnight(until)), in order. */
  ghost predicate Tiles(x: Externals, rows: seq<MarketPrice>, from: int, until: int) {
    |rows| * HOUR == x.midnight(until) - x.midnight(from) && Hourly(rows, x.midnight(from))
  }

  function Within(from: int, until: int): MarketPrice -> bool {
    (p: MarketPrice) => from <= p.day < until
  }

  lemma HourlyConcat(a: seq<MarketPrice>, b: seq<MarketPrice>, from: int)
    requires Hourly(a, from) && Hourly(b, from + |a| * HOUR)
    ensures Hourly(a + b, from)
  {
    forall i | 0 <= i < |a + b|
      ensures (a + b)[i].start == from + i * HOUR && (a + b)[i].end == from + (i + 1) * HOUR
    {
      if i >= |a| {
        assert (a + b)[i] == b[i - |a|];
        assert |a| * HOUR + (i - |a|) * HOUR == i * HOUR;
      }
    }
  }

  lemma DayTiles(x: Externals, rows: seq<MarketPrice>, day: int)
    requires x.Valid() && Continuous(x, rows, day)
    ensures Tiles(x, rows, day, day + 1) && |rows| in {23, 24, 25}
  {
    assert x.DayLength(day) in {23 * HOUR, 24 * HOUR, 25 * HOUR};
  }

  lemma TilesConcat(x: Externals, a: seq<MarketPrice>, b: seq<MarketPrice>, from: int, mid: int, until: int)
    requires Tiles(x, a, from, mid) && Tiles(x, b, mid, until)
    ensures Tiles(x, a + b, from, until)
  {
    HourlyConcat(a, b, x.midnight(from));
    assert |a + b| * HOUR == |a| * HOUR + |b| * HOUR;
  }

  lemma WithinGrows(inputs: seq<MarketPrice>, from: int, until: int)
    requires from <= until
    ensures multiset(Where(inputs, Within(from, until + 1))) ==
            multiset(Where(inputs, Within(from, until))) + multiset(Where(inputs, OnDay(until)))
  {
    forall p
      ensures multiset(Where(inputs, Within(from, until + 1)))[p] ==
              multiset(Where(inputs, Within(from, until)))[p] + multiset(Where(inputs, OnDay(until)))[p]
    {
      WhereCounts(inputs, Within(from, until + 1), p);
      WhereCounts(inputs, Within(from, until), p);
      WhereCounts(inputs, OnDay(until), p);
    }
  }

  /** The rows of the days [from, until), day after day. */
  function Timeline(inputs: seq<MarketPrice>, from: int, until: int): seq<MarketPrice>
    decreases until - from
  {
    if until <= from then [] else Timeline(inputs, from, until - 1) + DayRows(inputs, until - 1)
  }

  lemma {:induction false} FlattenIsTimeline(inputs: seq<MarketPrice>, start: int, n: nat)
    ensures Flatten(Groups(inputs, start, n)) == Timeline(inputs, start, start + n)
  {
    if n > 0 {
      var groups := Groups(inputs, start, n);
      FlattenIsTimeline(inputs, start, n - 1);
      assert groups[..n - 1] == Groups(inputs, start, n - 1);
      assert groups[n - 1] == DayRows(inputs, start + n - 1);
    }
  }

  lemma {:induction false} TimelineTiles(x: Externals, inputs: seq<MarketPrice>, from: int, until: int)
    requires x.Valid() && from <= until && Covered(x, inputs, from, until)
    ensures Tiles(x, Timeline(inputs, from, until), from, until)
    decreases until - from
  {
    if from < until {
      var day := until - 1;
      TimelineTiles(x, inputs, from, day);
      assert Continuous(x, DayRows(inputs, day), day);
      DayTiles(x, DayRows(inputs, day), day);
      TilesConcat(x, Timeline(inputs, from, day), DayRows(inputs, day), from, day, until);
    }
  }

  /** `rows` are the inputs of the days [from, until), each once. */
  ghost predicate Uses(rows: seq<MarketPrice>, inputs: seq<MarketPrice>, from: int, until: int) {
    multiset(rows) == multiset(Where(inputs, Within(from, until)))
  }

  lemma UsesConcat(a: seq<MarketPrice>, inputs: seq<MarketPrice>, from: int, day: int)
    requires from <= day && Uses(a, inputs, from, day)
    ensures Uses(a + DayRows(inputs, day), inputs, from, day + 1)
  {
    WithinGrows(inputs, from, day);
    SortByCorrect(ByStart(), Where(inputs, OnDay(day)));
    assert multiset(a + DayRows(inputs, day)) == multiset(a) + multiset(DayRows(inputs, day));
  }

  lemma UsesNone(inputs: seq<MarketPrice>, start: int)
    ensures Uses([], inputs, start, start)
  {
    NothingWithin(inputs, start);
  }

  lemma {:induction false} TimelineUsesAll(inputs: seq<MarketPrice>, from: int, until: int)
    requires from <= until
    ensures Uses(Timeline(inputs, from, until), inputs, from, until)
    decreases until - from
  {
    if from == until {
      UsesNone(inputs, from);
    } else {
      TimelineUsesAll(inputs, from, until - 1);
      UsesConcat(Timeline(inputs, from, until - 1), inputs, from, until - 1);
    }
  }

  lemma UsesEvery(rows: seq<MarketPrice>, inputs: seq<MarketPrice>, range: Range)
    requires AllInside(inputs, range) && Uses(rows, inputs, range.start, range.end + 1)
    ensures multiset(rows) == multiset(inputs)
  {
    WhereAll(inputs, Within(range.start, range.end + 1));
  }

  lemma NothingWithin(inputs: seq<MarketPrice>, start: int)
    ensures Where(inputs, Within(start, start)) == []
  {
    WhereNone(inputs, Within(start, start));
  }

  lemma TimelineOfRange(x: Externals, inputs: seq<MarketPrice>, range: Range)
    requires x.Valid() && Days(range) >= 1 && AllInside(inputs, range)
             && FirstGap(x, inputs, range.start, Days(range)).None?
    ensures Tiles(x, Timeline(inputs, range.start, range.end + 1), range.start, range.end + 1)
    ensures multiset(Timeline(inputs, range.start, range.end + 1)) == multiset(inputs)
  {
    NoGapMeans(x, inputs, range.start, Days(range));
    TimelineTiles(x, inputs, range.start, range.end + 1);
    TimelineUsesAll(inputs, range.start, range.end + 1);
    UsesEvery(Timeline(inputs, range.start, range.end + 1), inputs, range);
  }

  lemma GroupsOfOk(x: Externals, today: int, inputs: seq<MarketPrice>, range: Range, config: BatteryConfig)
    requires GroupsOf(x, today, inputs, range, config).Ok?
    ensures Days(range) >= 1 && AllInside(inputs, range) && FirstGap(x, inputs, range.start, Days(range)).None?
    ensures GroupsOf(x, today, inputs, range, config).value == Groups(inputs, range.start, Days(range))
  {
  }

  lemma GroupsTile(x: Externals, inputs: seq<MarketPrice>, range: Range, rows: seq<MarketPrice>)
    requires x.Valid() && Days(range) >= 1 && AllInside(inputs, range)
             && FirstGap(x, inputs, range.start, Days(range)).None?
    requires rows == Timeline(inputs, range.start, range.end + 1)
    ensures Tiles(x, rows, range.start, range.end + 1) && multiset(rows) == multiset(inputs)
  {
    TimelineOfRange(x, inputs, range);
  }

  lemma FlattenRange(inputs: seq<MarketPrice>, range: Range)
    requires Days(range) >= 1
    ensures Flatten(Groups(inputs, range.start, Days(range))) == Timeline(inputs, range.start, range.end + 1)
  {
    FlattenIsTimeline(inputs, range.start, Days(range));
  }

  /** Accepted inputs are in bijection with the hours of the range: the groups concatenate to one gap-free
      sequence that uses every input exactly once, across 23- and 25-hour days. */
  lemma AcceptedInputsTile(x: Externals, today: int, inputs: seq<MarketPrice>, range: Range, config: BatteryConfig)
    requires x.Valid() && GroupsOf(x, today, inputs, range, config).Ok?
    ensures Tiles(x, Flatten(GroupsOf(x, today, inputs, range, config).value), range.start, range.end + 1)
    ensures multiset(Flatten(GroupsOf(x, today, inputs, range, config).value)) == multiset(inputs)
  {
    GroupsOfOk(x, today, inputs, range, config);
    FlattenRange(inputs, range);
    GroupsTile(x, inputs, range, Flatten(Groups(inputs, range.start, Days(range))));
  }

  // ---------- and only tilings are accepted ----------

  lemma {:induction false} WholeHours(x: Externals, from: int, until: int) returns (hours: nat)
    requires x.Valid() && from <= until
    ensures x.midnight(until) - x.midnight(from) == hours * HOUR
    decreases until - from
  {
    hours := 0;
    if from < until {
      hours := WholeHours(x, from, until - 1);
      assert x.DayLength(until - 1) in {23 * HOUR, 24 * HOUR, 25 * HOUR};
      hours := hours + x.DayLength(until - 1) / HOUR;
    }
  }

  /** In a tiling, the rows of a day are one stretch of it. */
  lemma DayIsStretch(x: Externals, rows: seq<MarketPrice>, from: int, until: int, day: int) returns (a: nat, b: nat)
    requires x.Valid() && Proper(x, rows) && Tiles(x, rows, from, until) && from <= day < until
    ensures a <= b <= |rows| && a * HOUR == x.midnight(day) - x.midnight(from)
            && b * HOUR == x.midnight(day + 1) - x.midnight(from)
    ensures forall k | 0 <= k < |rows| :: rows[k].day == day <==> a <= k < b
  {
    a := WholeHours(x, from, day);
    b := WholeHours(x, from, day + 1);
    MidnightsIncrease(x, day, day + 1);
    MidnightsIncrease(x, day + 1, until);
    forall k | 0 <= k < |rows|
      ensures rows[k].day == day <==> a <= k < b
    {
      assert rows[k] in rows && x.InDay(rows[k].start, rows[k].day);
      assert x.InDay(rows[k].start, day) <==> a * HOUR <= k * HOUR < b * HOUR;
      if x.InDay(rows[k].start, day) {
        DayIsUnique(x, rows[k].start, day, rows[k].day);
      }
    }
  }

  lemma {:induction false} WhereRange<T>(s: seq<T>, keep: T -> bool, a: nat, b: nat, kept: bool)
    requires a <= b <= |s| && forall k | a <= k < b :: keep(s[k]) == kept
    ensures Where(s[a..b], keep) == if kept then s[a..b] else []
    decreases b - a
  {
    if a < b {
      assert s[a..b][..b - a - 1] == s[a..b - 1];
      assert s[a..b][b - a - 1] == s[b - 1];
      WhereRange(s, keep, a, b - 1, kept);
      assert s[a..b] == s[a..b - 1] + [s[b - 1]];
    }
  }

  lemma SplitThree<T>(s: seq<T>, a: nat, b: nat)
    requires a <= b <= |s|
    ensures s == s[0..a] + s[a..b] + s[b..|s|]
  {
  }

  lemma WhereStretch<T>(s: seq<T>, keep: T -> bool, a: nat, b: nat)
    requires a <= b <= |s| && forall k | 0 <= k < |s| :: keep(s[k]) <==> a <= k < b
    ensures Where(s, keep) == s[a..b]
  {
    SplitThree(s, a, b);
    WhereRange(s, keep, 0, a, false);
    WhereRange(s, keep, a, b, true);
    WhereRange(s, keep, b, |s|, false);
    WhereConcat(s[0..a] + s[a..b], s[b..|s|], keep);
    WhereConcat(s[0..a], s[a..b], keep);
  }

  lemma StretchHourly(x: Externals, rows: seq<MarketPrice>, from: int, until: int, day: int, a: nat, b: nat)
    requires x.Valid() && Tiles(x, rows, from, until) && a <= b <= |rows|
    requires a * HOUR == x.midnight(day) - x.midnight(from) && b * HOUR == x.midnight(day + 1) - x.midnight(from)
    ensures Continuous(x, rows[a..b], day)
  {
    assert x.DayLength(day) == (b - a) * HOUR;
    forall i | 0 <= i < b - a
      ensures rows[a..b][i].start == x.midnight(day) + i * HOUR && rows[a..b][i].end == x.midnight(day) + (i + 1) * HOUR
    {
      assert rows[a..b][i] == rows[a + i];
      assert (a + i) * HOUR == a * HOUR + i * HOUR;
    }
  }

  /** The rows of each day of a tiling are what the day needs, in whatever order the inputs come. */
  lemma TilingCovers(x: Externals, inputs: seq<MarketPrice>, rows: seq<MarketPrice>, from: int, until: int, day: int)
    requires x.Valid() && Proper(x, inputs) && multiset(rows) == multiset(inputs) && Tiles(x, rows, from, until)
             && from <= day < until
    ensures Continuous(x, DayRows(inputs, day), day)
  {
    KeysPermute(rows, inputs);
    var a, b := DayIsStretch(x, rows, from, until, day);
    WhereStretch(rows, OnDay(day), a, b);
    StretchHourly(x, rows, from, until, day, a, b);
    HourlyAscends(rows[a..b], x.midnight(day));
    WherePermutes(inputs, rows, OnDay(day));
    SortedAlready(Where(inputs, OnDay(day)), rows[a..b]);
  }

  lemma TilingInside(x: Externals, rows: seq<MarketPrice>, from: int, until: int, k: nat)
    requires x.Valid() && Proper(x, rows) && Tiles(x, rows, from, until) && k < |rows|
    ensures from <= rows[k].day < until
  {
    var day := rows[k].day;
    assert rows[k] in rows && x.InDay(rows[k].start, day);
    assert 0 <= k * HOUR < |rows| * HOUR;
    if day < from {
      MidnightsIncrease(x, day + 1, from);
    }
    if until <= day {
      MidnightsIncrease(x, until, day);
    }
  }

  ghost predicate SomeTiling(x: Externals, inputs: seq<MarketPrice>, from: int, until: int) {
    exists rows :: multiset(rows) == multiset(inputs) && Tiles(x, rows, from, until)
  }

  lemma TilingAccepted(x: Externals, inputs: seq<MarketPrice>, rows: seq<MarketPrice>, range: Range)
    requires x.Valid() && Proper(x, inputs) && Days(range) >= 1
    requires multiset(rows) == multiset(inputs) && Tiles(x, rows, range.start, range.end + 1)
    requires forall p | p in inputs :: p.hub == range.hub
    ensures AllInside(inputs, range) && FirstGap(x, inputs, range.start, Days(range)).None?
  {
    KeysPermute(rows, inputs);
    forall p | p in inputs
      ensures range.start <= p.day <= range.end
    {
      assert p in rows;
      var k :| 0 <= k < |rows| && rows[k] == p;
      TilingInside(x, rows, range.start, range.end + 1, k);
    }
    forall day | range.start <= day < range.start + Days(range)
      ensures Continuous(x, DayRows(inputs, day), day)
    {
      TilingCovers(x, inputs, rows, range.start, range.end + 1, day);
    }
    NoGapMeans(x, inputs, range.start, Days(range));
  }

  /** The coverage check accepts exactly the inputs that, in some order, tile the range hour by hour with rows of
      the requested hub and no repeated logical key. */
  lemma AcceptanceIsTiling(x: Externals, today: int, inputs: seq<MarketPrice>, range: Range, config: BatteryConfig)
    requires x.Valid() && Proper(x, inputs)
    requires 1 <= Days(range) <= MAX_DAYS && range.end < today && config.initial == config.terminal
    ensures GroupsOf(x, today, inputs, range, config).Ok? <==>
            && (forall p | p in inputs :: p.hub == range.hub)
            && |InputKeys(inputs)| == |inputs|
            && SomeTiling(x, inputs, range.start, range.end + 1)
  {
    if GroupsOf(x, today, inputs, range, config).Ok? {
      AcceptedInputsTile(x, today, inputs, range, config);
    }
    if (forall p | p in inputs :: p.hub == range.hub) && SomeTiling(x, inputs, range.start, range.end + 1) {
      var rows :| multiset(rows) == multiset(inputs) && Tiles(x, rows, range.start, range.end + 1);
      TilingAccepted(x, inputs, rows, range);
    }
  }
}
