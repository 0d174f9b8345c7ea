// The metrics of a backtest (backtesting/engine.py): what each day's checked dispatch did, and the
// aggregate over days of unequal length.
module Metrics {
  import opened Base
  import opened Batches
  import opened Dispatch
  import opened Backtest
  import opened Statistics

  datatype DayMetrics = DayMetrics(charged: real, discharged: real, gridThroughput: real, cellThroughput: real,
                                   cycles: real, initialSoc: real, terminalSoc: real,
                                   minimumSoc: real, maximumSoc: real,
                                   charging: nat, discharging: nat, idle: int)

  datatype DayResult = DayResult(day: int, inputs: seq<MarketPrice>, dispatch: Schedule, metrics: DayMetrics,
                                 minimumPrice: real, maximumPrice: real)

  datatype Aggregate = Aggregate(gross: real, average: real, median: real, bestDay: int, worstDay: int,
                                 objective: real, cost: real,
                                 gridThroughput: real, cellThroughput: real, cycles: real,
                                 chargingPercent: real, dischargingPercent: real, idlePercent: real)

  function Prices(rows: seq<MarketPrice>): (r: seq<real>)
    ensures |r| == |rows|
  {
    seq(|rows|, i requires 0 <= i < |rows| => rows[i].price)
  }

  // ---------- counting active intervals ----------

  function Active(values: seq<real>): set<nat> {
    set t: nat | t < |values| && values[t] > TOL
  }

  function CountActive(values: seq<real>): nat {
    if values == [] then 0
    else CountActive(values[..|values| - 1]) + if values[|values| - 1] > TOL then 1 else 0
  }

  lemma {:induction false} CountIsCardinality(values: seq<real>)
    ensures CountActive(values) == |Active(values)|
  {
    if values != [] {
      var n := |values| - 1;
      CountIsCardinality(values[..n]);
      assert Active(values) == Active(values[..n]) + if values[n] > TOL then {n} else {};
    }
  }

  /** In an accepted dispatch no interval both charges and discharges, so the counts leave room for idling. */
  lemma ActivityIsDisjoint(prices: seq<real>, config: BatteryConfig, s: Schedule)
    requires config.Valid() && Accepted(prices, config, s)
    ensures Active(s.charge) !! Active(s.discharge)
    ensures |Active(s.charge)| + |Active(s.discharge)| <= |prices|
  {
    forall t | t in Active(s.charge)
      ensures t !in Active(s.discharge)
    {
      ModesExclude(prices, config, s, t);
    }
    var both := Active(s.charge) + Active(s.discharge);
    assert |both| == |Active(s.charge)| + |Active(s.discharge)|;
    FirstNaturals(both, |prices|);
  }

  // ---------- one day ----------

  predicate IsLeast(values: seq<real>, m: real) {
    m in values && forall v | v in values :: m <= v
  }

  predicate IsGreatest(values: seq<real>, m: real) {
    m in values && forall v | v in values :: v <= m
  }

  method Extremes(values: seq<real>) returns (least: real, greatest: real)
    requires values != []
    ensures IsLeast(values, least) && IsGreatest(values, greatest)
  {
    least, greatest := values[0], values[0];
    for i := 1 to |values|
      invariant IsLeast(values[..i], least) && IsGreatest(values[..i], greatest)
    {
      assert values[..i + 1] == values[..i] + [values[i]];
      if values[i] < least {
        least := values[i];
      }
      if greatest < values[i] {
        greatest := values[i];
      }
    }
    assert values[..|values|] == values;
  }

  /** Energy through the cells. */
  function CellThroughput(config: BatteryConfig, charged: real, discharged: real): real
    requires config.Valid()
  {
    charged * config.chargeEff + discharged / config.dischargeEff
  }

  /** Equivalent full cycles. */
  function Cycles(config: BatteryConfig, charged: real, discharged: real): real
    requires config.Valid()
  {
    CellThroughput(config, charged, discharged) / (2.0 * config.capacity)
  }

  /** `cycles` are the full cycles of the charged energy, up to `drift`, stated without dividing by twice the
      capacity; CyclesRatio divides. */
  predicate CyclesNear(config: BatteryConfig, cycles: real, charged: real, drift: real) {
    Abs(Twice(config.capacity, cycles) - Twice(config.chargeEff, charged)) <= drift
  }

  function Twice(a: real, b: real): real {
    2.0 * (a * b)
  }

  /** What the metrics of one day say about its dispatch of n intervals. */
  ghost predicate Describes(m: DayMetrics, config: BatteryConfig, s: Schedule, n: nat)
    requires config.Valid() && Lengths(n, s)
  {
    && m.charged == Sum(s.charge) && m.discharged == Sum(s.discharge)
    && m.gridThroughput == m.charged + m.discharged
    && m.cellThroughput == CellThroughput(config, m.charged, m.discharged)
    && m.cycles == Cycles(config, m.charged, m.discharged)
    && m.initialSoc == s.soc[0] && m.terminalSoc == s.soc[n]
    && IsLeast(s.soc, m.minimumSoc) && IsGreatest(s.soc, m.maximumSoc)
    && m.charging == |Active(s.charge)| && m.discharging == |Active(s.discharge)|
    && m.idle == n - m.charging - m.discharging
  }

  method MeasureDay(config: BatteryConfig, s: Schedule, n: nat) returns (m: DayMetrics)
    requires config.Valid() && Lengths(n, s)
    ensures Describes(m, config, s, n)
  {
    var charged, discharged := 0.0, 0.0;
    var charging, discharging := 0, 0;
    for t := 0 to n
      invariant charged == Sum(s.charge[..t]) && discharged == Sum(s.discharge[..t])
      invariant charging == CountActive(s.charge[..t]) && discharging == CountActive(s.discharge[..t])
    {
      assert s.charge[..t + 1][..t] == s.charge[..t] && s.discharge[..t + 1][..t] == s.discharge[..t];
      charged, discharged := charged + s.charge[t], discharged + s.discharge[t];
      if s.charge[t] > TOL {
        charging := charging + 1;
      }
      if s.discharge[t] > TOL {
        discharging := discharging + 1;
      }
    }
    assert s.charge[..n] == s.charge && s.discharge[..n] == s.discharge;
    charged, discharged := charged * config.hours, discharged * config.hours;
    CountIsCardinality(s.charge);
    CountIsCardinality(s.discharge);
    var least, greatest := Extremes(s.soc);
    m := DayMetrics(charged, discharged, charged + discharged,
                    CellThroughput(config, charged, discharged), Cycles(config, charged, discharged),
                    s.soc[0], s.soc[n], least, greatest, charging, discharging, n - charging - discharging);
  }

  lemma SocWithin(config: BatteryConfig, s: Schedule, low: real, high: real)
    requires AllSocOk(config, s) && IsLeast(s.soc, low) && IsGreatest(s.soc, high)
    ensures -TOL <= low <= high <= config.capacity + TOL
  {
    assert SocOk(config, low) && SocOk(config, high);
  }

  lemma DrawnNearStored(config: BatteryConfig, charged: real, discharged: real, drift: real)
    requires config.Valid() && config.initial == config.terminal && Conserves(config, charged, discharged, drift)
    ensures Abs(CellThroughput(config, charged, discharged) - Twice(config.chargeEff, charged)) <= drift
  {
    Commutes(config.chargeEff, charged);
    EqualEnds(config.initial, config.terminal, config.chargeEff * charged, discharged / config.dischargeEff, drift);
  }

  lemma EqualEnds(initial: real, terminal: real, stored: real, drawn: real, drift: real)
    requires Abs(terminal - initial - (stored - drawn)) <= drift && initial == terminal
    ensures Abs(drawn - stored) <= drift
  {
  }

  lemma Commutes(a: real, b: real)
    ensures a * b == b * a
  {
  }

  lemma TwiceDivided(capacity: real, cell: real)
    requires capacity > 0.0
    ensures Twice(capacity, cell / (2.0 * capacity)) == cell
  {
    var q := cell / (2.0 * capacity);
    assert q * (2.0 * capacity) == cell;
    assert 2.0 * (capacity * q) == q * (2.0 * capacity);
  }

  lemma CyclesFromDrift(config: BatteryConfig, charged: real, discharged: real, drift: real)
    requires config.Valid() && config.initial == config.terminal && Conserves(config, charged, discharged, drift)
    ensures CyclesNear(config, Cycles(config, charged, discharged), charged, drift)
  {
    DrawnNearStored(config, charged, discharged, drift);
    TwiceDivided(config.capacity, CellThroughput(config, charged, discharged));
  }

  lemma RatioNear(capacity: real, cycles: real, stored: real, drift: real)
    requires capacity > 0.0 && Abs(2.0 * (capacity * cycles) - 2.0 * stored) <= drift
    ensures Abs(cycles - stored / capacity) <= drift / (2.0 * capacity)
  {
    var d := 2.0 * capacity;
    TwiceOver(capacity, cycles);
    HalveBoth(stored, capacity);
    DivideDifference(2.0 * (capacity * cycles), stored + stored, d);
    DivideAbs(2.0 * (capacity * cycles) - (stored + stored), drift, d);
  }

  lemma TwiceOver(capacity: real, cycles: real)
    requires capacity > 0.0
    ensures 2.0 * (capacity * cycles) / (2.0 * capacity) == cycles
  {
    assert 2.0 * (capacity * cycles) == cycles * (2.0 * capacity);
  }

  /** Equivalent full cycles differ from charge efficiency * charged / capacity by at most drift / (2 * capacity). */
  predicate CyclesOf(config: BatteryConfig, cycles: real, charged: real, drift: real)
    requires config.Valid()
  {
    Abs(cycles - config.chargeEff * charged / config.capacity) <= drift / (2.0 * config.capacity)
  }

  lemma CyclesRatio(config: BatteryConfig, cycles: real, charged: real, drift: real)
    requires config.Valid() && CyclesNear(config, cycles, charged, drift)
    ensures CyclesOf(config, cycles, charged, drift)
  {
    RatioNear(config.capacity, cycles, config.chargeEff * charged, drift);
  }

  /** The metrics agree with the validation: idling is never negative, the states of charge stay within bounds, and
      the equivalent full cycles are those of the charged energy up to the drift it tolerates. */
  lemma DayMetricsSound(prices: seq<real>, config: BatteryConfig, s: Schedule, m: DayMetrics)
    requires config.Valid() && config.initial == config.terminal && Accepted(prices, config, s)
             && Describes(m, config, s, |prices|)
    ensures m.idle >= 0 && m.charging + m.discharging + m.idle == |prices|
    ensures -TOL <= m.minimumSoc <= m.maximumSoc <= config.capacity + TOL
    ensures CyclesNear(config, m.cycles, m.charged, Tolerance(|prices| + 2))
    ensures CyclesOf(config, m.cycles, m.charged, Tolerance(|prices| + 2))
  {
    ActivityIsDisjoint(prices, config, s);
    SocWithin(config, s, m.minimumSoc, m.maximumSoc);
    EnergyConserved(prices, config, s);
    CyclesFromDrift(config, m.charged, m.discharged, Tolerance(|prices| + 2));
    CyclesRatio(config, m.cycles, m.charged, Tolerance(|prices| + 2));
  }

  lemma HalveBoth(a: real, b: real)
    requires b > 0.0
    ensures a / b == (a + a) / (2.0 * b)
  {
    assert (a / b) * (2.0 * b) == a + a;
    assert ((a + a) / (2.0 * b)) * (2.0 * b) == a + a;
  }

  lemma DivideDifference(a: real, b: real, d: real)
    requires d > 0.0
    ensures a / d - b / d == (a - b) / d
  {
    DivideIsMultiply(a, d);
    DivideIsMultiply(b, d);
    DivideIsMultiply(a - b, d);
  }

  lemma DivideAbs(a: real, bound: real, d: real)
    requires d > 0.0 && Abs(a) <= bound
    ensures Abs(a / d) <= bound / d
  {
    DivideIsMultiply(a, d);
    DivideIsMultiply(bound, d);
    var inverse := 1.0 / d;
    assert inverse > 0.0;
    Scale(a, bound, inverse);
    Scale(-bound, a, inverse);
  }

  // ---------- solving ----------

  /** A solver may return anything, or nothing. */
  type Solver = seq<real> -> Option<Schedule>

  /** The optimizer's own precondition. */
  predicate HorizonOk(rows: seq<MarketPrice>) {
    1 <= |rows| <= 25 && forall i | 0 < i < |rows| :: rows[i - 1].end == rows[i].start
  }

  /** Every group of accepted inputs is a horizon the optimizer takes. */
  lemma GroupIsHorizon(x: Externals, rows: seq<MarketPrice>, day: int)
    requires x.Valid() && Continuous(x, rows, day)
    ensures HorizonOk(rows) && |rows| in {23, 24, 25}
  {
    DayTiles(x, rows, day);
    forall i | 0 < i < |rows|
      ensures rows[i - 1].end == rows[i].start
    {
      assert i - 1 + 1 == i;
    }
  }

  /** The solver's answer counts only if it passes the independent validation. */
  predicate Solvable(rows: seq<MarketPrice>, config: BatteryConfig, solver: Solver)
    requires config.Valid()
  {
    solver(Prices(rows)).Some? && Accepted(Prices(rows), config, solver(Prices(rows)).value)
  }

  /** solve_battery_dispatch. */
  method Solve(rows: seq<MarketPrice>, config: BatteryConfig, solver: Solver) returns (r: Option<Schedule>)
    requires config.Valid()
    ensures r.Some? <==> HorizonOk(rows) && Solvable(rows, config, solver)
    ensures r.Some? ==> r == solver(Prices(rows))
  {
    if !HorizonOk(rows) {
      return None;
    }
    r := solver(Prices(rows));
    if r.Some? {
      var error := ValidateDispatch(Prices(rows), config, r.value);
      if error.Some? {
        r := None;
      }
    }
  }

  // ---------- totals ----------

  function Total(days: seq<DayResult>, field: DayResult -> real): real {
    if days == [] then 0.0 else Total(days[..|days| - 1], field) + field(days[|days| - 1])
  }

  function Tally(days: seq<DayResult>, field: DayResult -> int): int {
    if days == [] then 0 else Tally(days[..|days| - 1], field) + field(days[|days| - 1])
  }

  function Value(): DayResult -> real { (d: DayResult) => d.dispatch.gross }
  function Objective(): DayResult -> real { (d: DayResult) => d.dispatch.objective }
  function ThroughputCost(): DayResult -> real { (d: DayResult) => d.dispatch.cost }
  function Grid(): DayResult -> real { (d: DayResult) => d.metrics.gridThroughput }
  function Cell(): DayResult -> real { (d: DayResult) => d.metrics.cellThroughput }
  function FullCycles(): DayResult -> real { (d: DayResult) => d.metrics.cycles }
  function Charged(): DayResult -> real { (d: DayResult) => d.metrics.charged }
  function Charging(): DayResult -> int { (d: DayResult) => d.metrics.charging }
  function Discharging(): DayResult -> int { (d: DayResult) => d.metrics.discharging }
  function Idle(): DayResult -> int { (d: DayResult) => d.metrics.idle }
  function Intervals(): DayResult -> int { (d: DayResult) => |d.inputs| }

  method SumReals(days: seq<DayResult>, field: DayResult -> real) returns (r: real)
    ensures r == Total(days, field)
  {
    r := 0.0;
    for i := 0 to |days|
      invariant r == Total(days[..i], field)
    {
      assert days[..i + 1][..i] == days[..i];
      r := r + field(days[i]);
    }
    assert days[..|days|] == days;
  }

  method SumInts(days: seq<DayResult>, field: DayResult -> int) returns (r: int)
    ensures r == Tally(days, field)
  {
    r := 0;
    for i := 0 to |days|
      invariant r == Tally(days[..i], field)
    {
      assert days[..i + 1][..i] == days[..i];
      r := r + field(days[i]);
    }
    assert days[..|days|] == days;
  }

  /** Day i is the first of largest value. */
  ghost predicate IsBest(days: seq<DayResult>, i: int) {
    && 0 <= i < |days|
    && (forall j | 0 <= j < |days| :: days[j].dispatch.gross <= days[i].dispatch.gross)
    && (forall j | 0 <= j < i :: days[j].dispatch.gross < days[i].dispatch.gross)
  }

  /** Day i is the first of smallest value. */
  ghost predicate IsWorst(days: seq<DayResult>, i: int) {
    && 0 <= i < |days|
    && (forall j | 0 <= j < |days| :: days[i].dispatch.gross <= days[j].dispatch.gross)
    && (forall j | 0 <= j < i :: days[i].dispatch.gross < days[j].dispatch.gross)
  }

  method BestAndWorst(days: seq<DayResult>) returns (best: int, worst: int)
    requires days != []
    ensures IsBest(days, best) && IsWorst(days, worst)
  {
    best, worst := 0, 0;
    for i := 1 to |days|
      invariant IsBest(days[..i], best) && IsWorst(days[..i], worst)
    {
      if days[best].dispatch.gross < days[i].dispatch.gross {
        best := i;
      }
      if days[i].dispatch.gross < days[worst].dispatch.gross {
        worst := i;
      }
    }
    assert days[..|days|] == days;
  }

  function Mean(total: real, n: int): real
    requires n != 0
  {
    total / n as real
  }

  function DailyValues(days: seq<DayResult>): (r: seq<real>)
    ensures |r| == |days|
  {
    seq(|days|, i requires 0 <= i < |days| => days[i].dispatch.gross)
  }

  function Percent(part: int, whole: int): real
    requires whole != 0
  {
    100.0 * part as real / whole as real
  }

  /** What an aggregate says about its days. */
  ghost predicate Aggregates(a: Aggregate, days: seq<DayResult>)
    requires Tally(days, Intervals()) != 0
  {
    var n := Tally(days, Intervals());
    && a.gross == Total(days, Value())
    && days != [] && a.average == Mean(a.gross, |days|) && a.median == Median(DailyValues(days))
    && a.objective == Total(days, Objective()) && a.cost == Total(days, ThroughputCost())
    && a.gridThroughput == Total(days, Grid())
    && a.cellThroughput == Total(days, Cell()) && a.cycles == Total(days, FullCycles())
    && (exists i :: IsBest(days, i) && a.bestDay == days[i].day)
    && (exists i :: IsWorst(days, i) && a.worstDay == days[i].day)
    && a.chargingPercent == Percent(Tally(days, Charging()), n)
    && a.dischargingPercent == Percent(Tally(days, Discharging()), n)
    && a.idlePercent == Percent(Tally(days, Idle()), n)
  }

  method Summarize(days: seq<DayResult>) returns (a: Aggregate)
    requires days != [] && Tally(days, Intervals()) != 0
    ensures Aggregates(a, days)
  {
    var best, worst := BestAndWorst(days);
    var n := SumInts(days, Intervals());
    var gross := SumReals(days, Value());
    var objective := SumReals(days, Objective());
    var cost := SumReals(days, ThroughputCost());
    var grid := SumReals(days, Grid());
    var cell := SumReals(days, Cell());
    var cycles := SumReals(days, FullCycles());
    var charging := SumInts(days, Charging());
    var discharging := SumInts(days, Discharging());
    var idle := SumInts(days, Idle());
    a := Aggregate(gross, Mean(gross, |days|), Median(DailyValues(days)), days[best].day, days[worst].day,
                   objective, cost, grid, cell, cycles,
                   Percent(charging, n), Percent(discharging, n), Percent(idle, n));
  }

  // ---------- what the aggregate guarantees ----------

  /** One day of a result: its rows, a dispatch that passed validation, and the metrics of that dispatch. */
  ghost predicate DayOk(config: BatteryConfig, rows: seq<MarketPrice>, d: DayResult)
    requires config.Valid()
  {
    && rows != [] && d.inputs == rows && d.day == rows[0].day
    && Accepted(Prices(rows), config, d.dispatch)
    && Describes(d.metrics, config, d.dispatch, |rows|)
    && IsLeast(Prices(rows), d.minimumPrice) && IsGreatest(Prices(rows), d.maximumPrice)
  }

  ghost predicate DaysOk(config: BatteryConfig, groups: seq<seq<MarketPrice>>, days: seq<DayResult>)
    requires config.Valid()
  {
    |days| == |groups| && forall i | 0 <= i < |days| :: DayOk(config, groups[i], days[i])
  }

  lemma {:induction false} TalliesAdd(config: BatteryConfig, groups: seq<seq<MarketPrice>>, days: seq<DayResult>)
    requires config.Valid() && config.initial == config.terminal && DaysOk(config, groups, days)
    ensures Tally(days, Charging()) >= 0 && Tally(days, Discharging()) >= 0 && Tally(days, Idle()) >= 0
    ensures Tally(days, Charging()) + Tally(days, Discharging()) + Tally(days, Idle()) == Tally(days, Intervals())
    ensures Tally(days, Intervals()) >= |days|
  {
    if days != [] {
      var n := |days| - 1;
      TalliesAdd(config, groups[..n], days[..n]);
      assert DayOk(config, groups[n], days[n]);
      DayMetricsSound(Prices(groups[n]), config, days[n].dispatch, days[n].metrics);
    }
  }

  lemma PercentagesAdd(a: int, b: int, c: int, n: int)
    requires a >= 0 && b >= 0 && c >= 0 && a + b + c == n > 0
    ensures Percent(a, n) + Percent(b, n) + Percent(c, n) == 100.0
    ensures 0.0 <= Percent(a, n) <= 100.0
  {
    var whole := n as real;
    DivideIsMultiply(100.0 * a as real, whole);
    DivideIsMultiply(100.0 * b as real, whole);
    DivideIsMultiply(100.0 * c as real, whole);
    var inverse := 1.0 / whole;
    assert whole * inverse == 1.0;
    assert 100.0 * a as real * inverse + 100.0 * b as real * inverse + 100.0 * c as real * inverse
        == 100.0 * (a as real + b as real + c as real) * inverse;
    Scale(0.0, a as real, inverse);
    Scale(a as real, whole, inverse);
  }

  lemma CyclesAdd(config: BatteryConfig, a: real, b: real, chargedA: real, chargedB: real, driftA: real, driftB: real)
    requires CyclesNear(config, a, chargedA, driftA) && CyclesNear(config, b, chargedB, driftB)
    ensures CyclesNear(config, a + b, chargedA + chargedB, driftA + driftB)
  {
    TwiceSum(config.capacity, a, b);
    TwiceSum(config.chargeEff, chargedA, chargedB);
    AbsAdds(Twice(config.capacity, a), Twice(config.chargeEff, chargedA), driftA, Twice(config.capacity, b),
            Twice(config.chargeEff, chargedB), driftB);
  }

  lemma TwiceSum(r: real, a: real, b: real)
    ensures Twice(r, a + b) == Twice(r, a) + Twice(r, b)
  {
    Distributes(r, a, b);
  }

  lemma AbsAdds(a: real, u: real, d: real, b: real, v: real, f: real)
    requires Abs(a - u) <= d && Abs(b - v) <= f
    ensures Abs((a + b) - (u + v)) <= d + f
  {
  }

  lemma NoCycles(config: BatteryConfig)
    ensures CyclesNear(config, 0.0, 0.0, 0.0)
  {
    assert config.chargeEff * 0.0 == 0.0 && config.capacity * 0.0 == 0.0;
  }

  lemma CyclesAddDay(config: BatteryConfig, a: real, b: real, chargedA: real, chargedB: real, n: nat, m: nat)
    requires CyclesNear(config, a, chargedA, Tolerance(n)) && CyclesNear(config, b, chargedB, Tolerance(m))
    ensures CyclesNear(config, a + b, chargedA + chargedB, Tolerance(n + m))
  {
    CyclesAdd(config, a, b, chargedA, chargedB, Tolerance(n), Tolerance(m));
    TolerancesAdd(n, m);
  }

  lemma {:induction false} TotalCyclesNear(config: BatteryConfig, groups: seq<seq<MarketPrice>>, days: seq<DayResult>)
    requires config.Valid() && config.initial == config.terminal && DaysOk(config, groups, days)
    ensures Tally(days, Intervals()) >= 0
    ensures CyclesNear(config, Total(days, FullCycles()), Total(days, Charged()),
                       Tolerance(Tally(days, Intervals()) + 2 * |days|))
  {
    if days == [] {
      NoCycles(config);
      assert Tolerance(0) == 0.0;
    } else {
      var n := |days| - 1;
      var front, d := days[..n], days[n];
      TotalCyclesNear(config, groups[..n], front);
      assert DayOk(config, groups[n], d);
      DayMetricsSound(Prices(groups[n]), config, d.dispatch, d.metrics);
      CyclesAddDay(config, Total(front, FullCycles()), d.metrics.cycles, Total(front, Charged()), d.metrics.charged,
                   Tally(front, Intervals()) + 2 * n, |d.inputs| + 2);
    }
  }

  lemma TolerancesAdd(a: nat, b: nat)
    ensures Tolerance(a) + Tolerance(b) == Tolerance(a + b)
  {
  }

  function Times(n: nat, v: real): real {
    n as real * v
  }

  lemma TimesOneMore(n: nat, v: real)
    ensures Times(n + 1, v) == Times(n, v) + v
  {
  }

  /** A total of n values lies between n times the least and n times the greatest. */
  lemma {:induction false} TotalBetween(days: seq<DayResult>, low: real, high: real)
    requires forall i | 0 <= i < |days| :: low <= days[i].dispatch.gross <= high
    ensures Times(|days|, low) <= Total(days, Value()) <= Times(|days|, high)
  {
    if days == [] {
      assert 0.0 * low == 0.0 == 0.0 * high;
    } else {
      var n := |days| - 1;
      TotalBetween(days[..n], low, high);
      TimesOneMore(n, low);
      TimesOneMore(n, high);
    }
  }

  lemma DivideOrder(a: real, b: real, n: real)
    requires n > 0.0 && a <= b
    ensures a / n <= b / n
  {
    DivideIsMultiply(a, n);
    DivideIsMultiply(b, n);
    Scale(a, b, 1.0 / n);
  }

  lemma MeanOfTimes(n: nat, v: real)
    requires n > 0
    ensures Mean(Times(n, v), n) == v
  {
  }

  lemma MeanBetween(low: real, total: real, high: real, n: nat)
    requires n > 0 && Times(n, low) <= total <= Times(n, high)
    ensures low <= Mean(total, n) <= high
  {
    DivideOrder(Times(n, low), total, n as real);
    DivideOrder(total, Times(n, high), n as real);
    MeanOfTimes(n, low);
    MeanOfTimes(n, high);
  }

  /** The average daily value lies between those of the worst and of the best day, and at most half of the days lie
      on either side of the median. */
  lemma MiddleSound(days: seq<DayResult>, a: Aggregate, best: int, worst: int)
    requires Tally(days, Intervals()) != 0 && Aggregates(a, days) && IsBest(days, best) && IsWorst(days, worst)
    ensures days[worst].dispatch.gross <= a.average <= days[best].dispatch.gross
    ensures 2 * |Where(DailyValues(days), Under(a.median))| <= |days|
    ensures 2 * |Where(DailyValues(days), Over(a.median))| <= |days|
  {
    TotalBetween(days, days[worst].dispatch.gross, days[best].dispatch.gross);
    MeanBetween(days[worst].dispatch.gross, a.gross, days[best].dispatch.gross, |days|);
    MedianSplits(DailyValues(days));
  }

  lemma PercentagesSound(config: BatteryConfig, groups: seq<seq<MarketPrice>>, days: seq<DayResult>)
    requires config.Valid() && config.initial == config.terminal && DaysOk(config, groups, days) && days != []
    ensures var c, d, i, n := Tally(days, Charging()), Tally(days, Discharging()), Tally(days, Idle()),
                              Tally(days, Intervals());
            && n > 0 && Percent(c, n) + Percent(d, n) + Percent(i, n) == 100.0
            && 0.0 <= Percent(c, n) <= 100.0 && 0.0 <= Percent(d, n) <= 100.0 && 0.0 <= Percent(i, n) <= 100.0
  {
    var c, d, i, n := Tally(days, Charging()), Tally(days, Discharging()), Tally(days, Idle()),
                      Tally(days, Intervals());
    TalliesAdd(config, groups, days);
    PercentagesAdd(c, d, i, n);
    PercentagesAdd(d, c, i, n);
    PercentagesAdd(i, c, d, n);
  }

  lemma CyclesSound(config: BatteryConfig, groups: seq<seq<MarketPrice>>, days: seq<DayResult>)
    requires config.Valid() && config.initial == config.terminal && DaysOk(config, groups, days)
    ensures Tally(days, Intervals()) >= 0
    ensures var cycles, charged := Total(days, FullCycles()), Total(days, Charged());
            var drift := Tolerance(Tally(days, Intervals()) + 2 * |days|);
            CyclesNear(config, cycles, charged, drift) && CyclesOf(config, cycles, charged, drift)
  {
    TotalCyclesNear(config, groups, days);
    CyclesRatio(config, Total(days, FullCycles()), Total(days, Charged()),
                Tolerance(Tally(days, Intervals()) + 2 * |days|));
  }

  /** Over days of any lengths the three percentages sum to 100, and the total cycles are those of the total
      charged energy up to the accumulated tolerances. */
  lemma AggregateSound(config: BatteryConfig, groups: seq<seq<MarketPrice>>, days: seq<DayResult>, a: Aggregate)
    requires config.Valid() && config.initial == config.terminal && DaysOk(config, groups, days) && days != []
    requires Tally(days, Intervals()) != 0 && Aggregates(a, days)
    ensures a.chargingPercent + a.dischargingPercent + a.idlePercent == 100.0
    ensures 0.0 <= a.chargingPercent <= 100.0 && 0.0 <= a.dischargingPercent <= 100.0 && 0.0 <= a.idlePercent <= 100.0
    ensures Tally(days, Intervals()) >= 0
    ensures var charged, drift := Total(days, Charged()), Tolerance(Tally(days, Intervals()) + 2 * |days|);
            CyclesNear(config, a.cycles, charged, drift) && CyclesOf(config, a.cycles, charged, drift)
  {
    PercentagesSound(config, groups, days);
    CyclesSound(config, groups, days);
  }

  // ---------- backtest_daily ----------

  datatype BacktestResult = BacktestResult(days: seq<DayResult>, aggregate: Aggregate)

  lemma GroupContinuous(x: Externals, inputs: seq<MarketPrice>, start: int, n: nat, i: nat)
    requires FirstGap(x, inputs, start, n).None? && i < n
    ensures Continuous(x, Groups(inputs, start, n)[i], start + i)
  {
    NoGapMeans(x, inputs, start, n);
  }

  /** Solve and measure every group, in order; stop at the first answer that does not validate. */
  method SolveDays(groups: seq<seq<MarketPrice>>, config: BatteryConfig, solver: Solver)
    returns (r: Result<seq<DayResult>, BacktestError>)
    requires config.Valid() && forall i | 0 <= i < |groups| :: HorizonOk(groups[i])
    ensures r.Ok? <==> forall i | 0 <= i < |groups| :: Solvable(groups[i], config, solver)
    ensures r.Ok? ==> DaysOk(config, groups, r.value)
                      && forall i | 0 <= i < |groups| :: solver(Prices(groups[i])) == Some(r.value[i].dispatch)
    ensures r.Err? ==> exists i :: 0 <= i < |groups| && groups[i] != [] && r == Err(SolverFailed(groups[i][0].day))
                                   && !Solvable(groups[i], config, solver)
  {
    var days: seq<DayResult> := [];
    for i := 0 to |groups|
      invariant |days| == i && forall j | 0 <= j < i :: DayOk(config, groups[j], days[j])
      invariant forall j | 0 <= j < i ::
        Solvable(groups[j], config, solver) && solver(Prices(groups[j])) == Some(days[j].dispatch)
    {
      var rows := groups[i];
      var dispatch := Solve(rows, config, solver);
      if dispatch.None? {
        return Err(SolverFailed(rows[0].day));
      }
      var metrics := MeasureDay(config, dispatch.value, |rows|);
      var lowest, highest := Extremes(Prices(rows));
      days := days + [DayResult(rows[0].day, rows, dispatch.value, metrics, lowest, highest)];
    }
    r := Ok(days);
  }

  /** backtest_daily: check all inputs before any solve, solve every day, and summarize. It fails exactly when
      the inputs do not cover the range or some day's answer does not validate. */
  method BacktestDaily(x: Externals, today: int, inputs: seq<MarketPrice>, range: Range, config: BatteryConfig,
                       solver: Solver)
    returns (r: Result<BacktestResult, BacktestError>)
    requires x.Valid() && config.Valid()
    ensures var groups := GroupsOf(x, today, inputs, range, config);
            && (groups.Err? ==> r == Err(groups.error))
            && (groups.Ok? ==>
                  (r.Ok? <==> forall i | 0 <= i < |groups.value| :: Solvable(groups.value[i], config, solver)))
            && (r.Ok? ==> DaysOk(config, groups.value, r.value.days)
                          && Tally(r.value.days, Intervals()) != 0 && Aggregates(r.value.aggregate, r.value.days)
                          && forall i | 0 <= i < |groups.value| ::
                               solver(Prices(groups.value[i])) == Some(r.value.days[i].dispatch))
  {
    var grouped := GroupDays(x, today, inputs, range, config);
    if grouped.Err? {
      return Err(grouped.error);
    }
    var groups := grouped.value;
    GroupsOfOk(x, today, inputs, range, config);
    forall i | 0 <= i < |groups|
      ensures HorizonOk(groups[i])
    {
      GroupContinuous(x, inputs, range.start, Days(range), i);
      GroupIsHorizon(x, groups[i], range.start + i);
    }
    var days := SolveDays(groups, config, solver);
    if days.Err? {
      return Err(days.error);
    }
    TalliesAdd(config, groups, days.value);
    var aggregate := Summarize(days.value);
    r := Ok(BacktestResult(days.value, aggregate));
  }
}
