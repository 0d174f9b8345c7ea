// The battery contract and the independent validation of a returned dispatch (optimization/model.py), over
// real numbers and horizons of any length.
module Dispatch {
  import opened Base

  const TOL := 0.000001            // PHYSICAL_TOLERANCE
  const OBJECTIVE_TOL := 0.00001   // OBJECTIVE_TOLERANCE, absolute
  const RELATIVE_TOL := 0.00000001

  datatype BatteryConfig = BatteryConfig(capacity: real, maxCharge: real, maxDischarge: real,
                                         chargeEff: real, dischargeEff: real, initial: real, terminal: real,
                                         throughputCost: real, hours: real)
  {
    /** What __post_init__ accepts. */
    predicate Valid() {
      && capacity > 0.0
      && maxCharge >= 0.0 && maxDischarge >= 0.0
      && 0.0 < chargeEff <= 1.0 && 0.0 < dischargeEff <= 1.0
      && 0.0 <= initial <= capacity && 0.0 <= terminal <= capacity
      && throughputCost >= 0.0
      && hours == 1.0
    }
  }

  /** The numbers of a DispatchResult. */
  datatype Schedule = Schedule(charge: seq<real>, discharge: seq<real>, soc: seq<real>, mode: seq<int>,
                               gross: real, cost: real, objective: real)

  datatype DispatchError = BadLengths | SocOutOfBounds | BoundarySoc | BadMode | BadPower | BadTransition | BadObjective

  function Abs(r: real): real {
    if r < 0.0 then -r else r
  }

  function Larger(a: real, b: real): real {
    if a < b then b else a
  }

  /** math.isclose(actual, expected, rel_tol=1e-8, abs_tol=OBJECTIVE_TOLERANCE). */
  predicate IsClose(actual: real, expected: real) {
    Abs(actual - expected) <= Larger(RELATIVE_TOL * Larger(Abs(actual), Abs(expected)), OBJECTIVE_TOL)
  }

  function Sum(values: seq<real>): real {
    if values == [] then 0.0 else Sum(values[..|values| - 1]) + values[|values| - 1]
  }

  /** What one interval earns. */
  function Earned(price: real, charge: real, discharge: real, hours: real): real {
    price * (discharge - charge) * hours
  }

  /** The earnings of the first n intervals. */
  function Gross(prices: seq<real>, s: Schedule, hours: real, n: nat): real
    requires n <= |prices| && n <= |s.charge| && n <= |s.discharge|
  {
    if n == 0 then 0.0
    else Gross(prices, s, hours, n - 1) + Earned(prices[n - 1], s.charge[n - 1], s.discharge[n - 1], hours)
  }

  /** The cost of moving that much energy through the battery. */
  function Cost(config: BatteryConfig, charged: real, discharged: real): real {
    (charged + discharged) * config.hours * config.throughputCost
  }

  // ---------- what validation accepts ----------

  predicate Lengths(n: nat, s: Schedule) {
    |s.charge| == n && |s.discharge| == n && |s.soc| == n + 1 && |s.mode| == n
  }

  predicate SocOk(config: BatteryConfig, soc: real) {
    -TOL <= soc <= config.capacity + TOL
  }

  function ModeOf(mode: int): real {
    mode as real
  }

  predicate PowerOk(config: BatteryConfig, s: Schedule, t: nat)
    requires t < |s.charge| && t < |s.discharge| && t < |s.mode|
  {
    && -TOL <= s.charge[t] <= config.maxCharge * ModeOf(s.mode[t]) + TOL
    && -TOL <= s.discharge[t] <= config.maxDischarge * ModeOf(1 - s.mode[t]) + TOL
  }

  /** The SOC the next interval should start from. */
  function NextSoc(config: BatteryConfig, s: Schedule, t: nat): real
    requires config.Valid() && t < |s.charge| && t < |s.discharge| && t < |s.soc|
  {
    s.soc[t] + config.chargeEff * s.charge[t] * config.hours - s.discharge[t] * config.hours / config.dischargeEff
  }

  predicate IntervalOk(config: BatteryConfig, s: Schedule, t: nat)
    requires config.Valid() && t < |s.charge| && t < |s.discharge| && t < |s.mode| && t + 1 < |s.soc|
  {
    && (s.mode[t] == 0 || s.mode[t] == 1)
    && PowerOk(config, s, t)
    && Abs(NextSoc(config, s, t) - s.soc[t + 1]) <= TOL
  }

  predicate MoneyOk(prices: seq<real>, config: BatteryConfig, s: Schedule)
    requires Lengths(|prices|, s)
  {
    var gross := Gross(prices, s, config.hours, |prices|);
    var cost := Cost(config, Sum(s.charge), Sum(s.discharge));
    IsClose(s.gross, gross) && IsClose(s.cost, cost) && IsClose(s.objective, gross - cost)
  }

  predicate BoundaryOk(config: BatteryConfig, s: Schedule)
    requires s.soc != []
  {
    Abs(s.soc[0] - config.initial) <= TOL && Abs(s.soc[|s.soc| - 1] - config.terminal) <= TOL
  }

  predicate AllSocOk(config: BatteryConfig, s: Schedule) {
    forall t | 0 <= t < |s.soc| :: SocOk(config, s.soc[t])
  }

  predicate AllIntervalsOk(n: nat, config: BatteryConfig, s: Schedule)
    requires config.Valid() && Lengths(n, s)
  {
    forall t | 0 <= t < n :: IntervalOk(config, s, t)
  }

  predicate Accepted(prices: seq<real>, config: BatteryConfig, s: Schedule)
    requires config.Valid()
  {
    && Lengths(|prices|, s)
    && AllSocOk(config, s)
    && BoundaryOk(config, s)
    && AllIntervalsOk(|prices|, config, s)
    && MoneyOk(prices, config, s)
  }

  /** Interval t is the first bad one, for the reason `error`. */
  predicate FirstBad(config: BatteryConfig, s: Schedule, t: nat, error: DispatchError)
    requires config.Valid() && t < |s.charge| && t < |s.discharge| && t < |s.mode| && t + 1 < |s.soc|
  {
    && (forall u | 0 <= u < t :: IntervalOk(config, s, u))
    && match error
       case BadMode => s.mode[t] != 0 && s.mode[t] != 1
       case BadPower => (s.mode[t] == 0 || s.mode[t] == 1) && !PowerOk(config, s, t)
       case BadTransition => (s.mode[t] == 0 || s.mode[t] == 1) && PowerOk(config, s, t)
                             && Abs(NextSoc(config, s, t) - s.soc[t + 1]) > TOL
       case _ => false
  }

  /** What each error says about the dispatch. */
  ghost predicate Violates(prices: seq<real>, config: BatteryConfig, s: Schedule, error: DispatchError)
    requires config.Valid()
  {
    match error
    case BadLengths => !Lengths(|prices|, s)
    case SocOutOfBounds => Lengths(|prices|, s) && !AllSocOk(config, s)
    case BoundarySoc => Lengths(|prices|, s) && AllSocOk(config, s) && !BoundaryOk(config, s)
    case BadObjective =>
      && Lengths(|prices|, s) && AllSocOk(config, s) && BoundaryOk(config, s) && AllIntervalsOk(|prices|, config, s)
      && !MoneyOk(prices, config, s)
    case _ =>
      && Lengths(|prices|, s) && AllSocOk(config, s) && BoundaryOk(config, s)
      && exists t :: 0 <= t < |prices| && FirstBad(config, s, t, error)
  }

  method CheckSoc(config: BatteryConfig, s: Schedule) returns (ok: bool)
    ensures ok <==> AllSocOk(config, s)
  {
    for t := 0 to |s.soc|
      invariant forall u | 0 <= u < t :: SocOk(config, s.soc[u])
    {
      if s.soc[t] < -TOL || s.soc[t] > config.capacity + TOL {
        assert !SocOk(config, s.soc[t]);
        return false;
      }
    }
    ok := true;
  }

  method CheckIntervals(n: nat, config: BatteryConfig, s: Schedule) returns (error: Option<DispatchError>)
    requires config.Valid() && Lengths(n, s)
    ensures error.None? <==> AllIntervalsOk(n, config, s)
    ensures error.Some? ==> error.value in {BadMode, BadPower, BadTransition}
                            && exists t :: 0 <= t < n && FirstBad(config, s, t, error.value)
  {
    for t := 0 to n
      invariant forall u | 0 <= u < t :: IntervalOk(config, s, u)
    {
      error := None;
      if s.mode[t] != 0 && s.mode[t] != 1 {
        error := Some(BadMode);
      } else if !PowerOk(config, s, t) {
        error := Some(BadPower);
      } else if Abs(NextSoc(config, s, t) - s.soc[t + 1]) > TOL {
        error := Some(BadTransition);
      }
      if error.Some? {
        assert FirstBad(config, s, t, error.value) && !IntervalOk(config, s, t);
        return;
      }
    }
    error := None;
  }

  method CheckMoney(prices: seq<real>, config: BatteryConfig, s: Schedule) returns (ok: bool)
    requires Lengths(|prices|, s)
    ensures ok <==> MoneyOk(prices, config, s)
  {
    var gross, charged, discharged := 0.0, 0.0, 0.0;
    for t := 0 to |prices|
      invariant gross == Gross(prices, s, config.hours, t)
      invariant charged == Sum(s.charge[..t]) && discharged == Sum(s.discharge[..t])
    {
      gross := gross + Earned(prices[t], s.charge[t], s.discharge[t], config.hours);
      charged, discharged := charged + s.charge[t], discharged + s.discharge[t];
      assert s.charge[..t + 1][..t] == s.charge[..t] && s.discharge[..t + 1][..t] == s.discharge[..t];
    }
    assert s.charge[..|prices|] == s.charge && s.discharge[..|prices|] == s.discharge;
    var cost := Cost(config, charged, discharged);
    ok := IsClose(s.gross, gross) && IsClose(s.cost, cost) && IsClose(s.objective, gross - cost);
  }

  /** validate_dispatch: raise at the first violation, accept exactly what has none. */
  method ValidateDispatch(prices: seq<real>, config: BatteryConfig, s: Schedule) returns (error: Option<DispatchError>)
    requires config.Valid()
    ensures error.None? <==> Accepted(prices, config, s)
    ensures error.Some? ==> Violates(prices, config, s, error.value)
  {
    if !Lengths(|prices|, s) {
      return Some(BadLengths);
    }
    var ok := CheckSoc(config, s);
    if !ok {
      return Some(SocOutOfBounds);
    }
    if !BoundaryOk(config, s) {
      return Some(BoundarySoc);
    }
    error := CheckIntervals(|prices|, config, s);
    if error.Some? {
      return;
    }
    ok := CheckMoney(prices, config, s);
    if !ok {
      return Some(BadObjective);
    }
  }

  // ---------- energy ----------

  /** n tolerances. */
  function Tolerance(n: nat): real {
    n as real * TOL
  }

  /** What one interval moves into the cells, by the reported powers. */
  function Stored(config: BatteryConfig, charge: real, discharge: real): real
    requires config.Valid()
  {
    config.chargeEff * charge - discharge / config.dischargeEff
  }

  lemma TransitionDrift(config: BatteryConfig, s: Schedule, t: nat)
    requires config.Valid() && t < |s.charge| && t < |s.discharge| && t < |s.mode| && t + 1 < |s.soc|
    requires IntervalOk(config, s, t)
    ensures Abs(s.soc[t + 1] - s.soc[t] - Stored(config, s.charge[t], s.discharge[t])) <= TOL
  {
    NextSocStores(config, s, t);
    AbsSymmetric(NextSoc(config, s, t), s.soc[t + 1]);
  }

  lemma NextSocStores(config: BatteryConfig, s: Schedule, t: nat)
    requires config.Valid() && t < |s.charge| && t < |s.discharge| && t < |s.soc|
    ensures NextSoc(config, s, t) == s.soc[t] + Stored(config, s.charge[t], s.discharge[t])
  {
    TimesHour(config.chargeEff * s.charge[t], config.hours);
    TimesHour(s.discharge[t], config.hours);
  }

  lemma TimesHour(r: real, hours: real)
    requires hours == 1.0
    ensures r * hours == r
  {
  }

  lemma AbsSymmetric(a: real, b: real)
    ensures Abs(a - b) == Abs(b - a)
  {
  }

  /** If `last - first` is near `stored` and the ends are near their targets, the targets differ by about `stored`. */
  lemma NearEnds(first: real, last: real, initial: real, terminal: real, stored: real, drift: real)
    requires Abs(last - first - stored) <= drift && Abs(first - initial) <= TOL && Abs(last - terminal) <= TOL
    ensures Abs(terminal - initial - stored) <= drift + TOL + TOL
  {
  }

  lemma StoredSums(config: BatteryConfig, charged: real, discharged: real, charge: real, discharge: real)
    requires config.Valid()
    ensures Stored(config, charged + charge, discharged + discharge) ==
              Stored(config, charged, discharged) + Stored(config, charge, discharge)
  {
    var inverse := 1.0 / config.dischargeEff;
    DivideIsMultiply(discharged + discharge, config.dischargeEff);
    DivideIsMultiply(discharged, config.dischargeEff);
    DivideIsMultiply(discharge, config.dischargeEff);
    assert (discharged + discharge) * inverse == discharged * inverse + discharge * inverse;
    assert config.chargeEff * (charged + charge) == config.chargeEff * charged + config.chargeEff * charge;
  }

  lemma DivideIsMultiply(a: real, b: real)
    requires b > 0.0
    ensures a / b == a * (1.0 / b)
  {
    assert (a / b) * b == a;
    assert (a * (1.0 / b)) * b == a * ((1.0 / b) * b) == a;
  }

  /** After n intervals the SOC is off the energy balance by at most n tolerances. */
  lemma {:induction false} DriftBound(config: BatteryConfig, s: Schedule, n: nat)
    requires config.Valid() && n <= |s.charge| && n <= |s.discharge| && n <= |s.mode| && n < |s.soc|
    requires forall t | 0 <= t < n :: IntervalOk(config, s, t)
    ensures Abs(s.soc[n] - s.soc[0] - Stored(config, Sum(s.charge[..n]), Sum(s.discharge[..n]))) <= Tolerance(n)
  {
    if n == 0 {
      assert Stored(config, 0.0, 0.0) == 0.0;
    } else {
      DriftBound(config, s, n - 1);
      TransitionDrift(config, s, n - 1);
      assert s.charge[..n][..n - 1] == s.charge[..n - 1] && s.discharge[..n][..n - 1] == s.discharge[..n - 1];
      StoredSums(config, Sum(s.charge[..n - 1]), Sum(s.discharge[..n - 1]), s.charge[n - 1], s.discharge[n - 1]);
      assert Tolerance(n) == Tolerance(n - 1) + TOL;
    }
  }

  /** The boundary states of charge differ by what was stored, up to `drift`. */
  predicate Conserves(config: BatteryConfig, charged: real, discharged: real, drift: real)
    requires config.Valid()
  {
    Abs(config.terminal - config.initial - Stored(config, charged, discharged)) <= drift
  }

  /** Conservation: an accepted dispatch stores what it charged less what it discharged, efficiencies
      included, up to one tolerance per interval and one per boundary. */
  lemma EnergyConserved(prices: seq<real>, config: BatteryConfig, s: Schedule)
    requires config.Valid() && Accepted(prices, config, s)
    ensures Conserves(config, Sum(s.charge), Sum(s.discharge), Tolerance(|prices| + 2))
  {
    var n := |prices|;
    DriftBound(config, s, n);
    assert s.charge[..n] == s.charge && s.discharge[..n] == s.discharge;
    NearEnds(s.soc[0], s.soc[n], config.initial, config.terminal, Stored(config, Sum(s.charge), Sum(s.discharge)),
             Tolerance(n));
    assert Tolerance(n + 2) == Tolerance(n) + TOL + TOL;
  }

  // ---------- one mode at a time ----------

  /** An interval that visibly charges is in charging mode and does not visibly discharge, and conversely. */
  lemma ModesExclude(prices: seq<real>, config: BatteryConfig, s: Schedule, t: nat)
    requires config.Valid() && Accepted(prices, config, s) && t < |prices|
    ensures s.charge[t] > TOL ==> s.mode[t] == 1 && s.discharge[t] <= TOL
    ensures s.discharge[t] > TOL ==> s.mode[t] == 0 && s.charge[t] <= TOL
  {
    assert IntervalOk(config, s, t);
    assert config.maxCharge * 0.0 == 0.0 && config.maxDischarge * 0.0 == 0.0;
  }

  // ---------- money ----------

  ghost predicate PricesIn(prices: seq<real>, low: real, high: real) {
    forall t | 0 <= t < |prices| :: low <= prices[t] <= high
  }

  lemma Scale(a: real, b: real, r: real)
    requires a <= b && r >= 0.0
    ensures a * r <= b * r
  {
  }

  lemma IntervalEarns(low: real, high: real, price: real, charge: real, discharge: real, hours: real)
    requires low <= price <= high && charge >= -TOL && discharge >= -TOL && hours == 1.0
    ensures Earned(price, charge, discharge, hours) <= high * (discharge + TOL) - low * (charge + TOL)
  {
    TimesHour(price * (discharge - charge), hours);
    assert price * (discharge - charge) == price * (discharge + TOL) - price * (charge + TOL);
    Scale(price, high, discharge + TOL);
    Scale(low, price, charge + TOL);
  }

  /** Selling everything at the highest price and buying it at the lowest is worth at least `gross`. */
  predicate Bounded(gross: real, low: real, high: real, charged: real, discharged: real, slack: real) {
    && gross <= high * (discharged + slack) - low * (charged + slack)
    && charged + slack >= 0.0
  }

  lemma {:induction false} GrossBound(prices: seq<real>, config: BatteryConfig, s: Schedule, low: real, high: real,
                                      n: nat)
    requires config.Valid() && Lengths(|prices|, s) && n <= |prices| && PricesIn(prices, low, high)
    requires forall t | 0 <= t < n :: IntervalOk(config, s, t)
    ensures Bounded(Gross(prices, s, config.hours, n), low, high, Sum(s.charge[..n]), Sum(s.discharge[..n]),
                    Tolerance(n))
  {
    if n > 0 {
      var m := n - 1;
      GrossBound(prices, config, s, low, high, m);
      assert IntervalOk(config, s, m);
      IntervalEarns(low, high, prices[m], s.charge[m], s.discharge[m], config.hours);
      assert s.charge[..n][..m] == s.charge[..m] && s.discharge[..n][..m] == s.discharge[..m];
      BoundedStep(Gross(prices, s, config.hours, m),
                  Earned(prices[m], s.charge[m], s.discharge[m], config.hours), low, high,
                  Sum(s.charge[..m]), Sum(s.discharge[..m]), s.charge[m], s.discharge[m], Tolerance(m));
      assert Tolerance(n) == Tolerance(m) + TOL;
    }
  }

  lemma BoundedStep(gross: real, earned: real, low: real, high: real, charged: real, discharged: real, charge: real,
                    discharge: real, slack: real)
    requires Bounded(gross, low, high, charged, discharged, slack) && charge >= -TOL
    requires earned <= high * (discharge + TOL) - low * (charge + TOL)
    ensures Bounded(gross + earned, low, high, charged + charge, discharged + discharge, slack + TOL)
  {
    Distributes(high, discharged + slack, discharge + TOL);
    Distributes(low, charged + slack, charge + TOL);
    assert discharged + slack + (discharge + TOL) == (discharged + discharge) + (slack + TOL);
    assert charged + slack + (charge + TOL) == (charged + charge) + (slack + TOL);
  }

  lemma Distributes(a: real, b: real, c: real)
    ensures a * (b + c) == a * b + a * c
  {
  }

  lemma MoneyBound(gross: real, low: real, high: real, eff: real, charged: real, discharged: real, slack: real,
                   drift: real)
    requires Bounded(gross, low, high, charged, discharged, slack) && high >= 0.0 && high * eff <= low
    requires discharged <= eff * charged + drift
    ensures gross <= high * (slack + drift - eff * slack)
  {
    var bought := charged + slack;
    Scale(high * eff, low, bought);
    Scale(discharged + slack, eff * charged + drift + slack, high);
    assert high * eff * bought == high * (eff * bought);
    assert eff * bought == eff * charged + eff * slack;
    Distributes(high, eff * bought, slack + drift - eff * slack);
  }

  lemma DischargeBound(config: BatteryConfig, charged: real, discharged: real, drift: real)
    requires config.Valid() && config.initial == config.terminal && Conserves(config, charged, discharged, drift)
    ensures discharged <= config.chargeEff * config.dischargeEff * charged + config.dischargeEff * drift
  {
    var eff := config.dischargeEff;
    var stored, drawn := config.chargeEff * charged, discharged / eff;
    assert drawn <= stored + drift;
    Scale(drawn, stored + drift, eff);
    assert drawn * eff == discharged;
    Distributes(eff, stored, drift);
    assert eff * stored == config.chargeEff * eff * charged;
  }

  lemma TotalGrossBound(prices: seq<real>, config: BatteryConfig, s: Schedule, low: real, high: real)
    requires config.Valid() && Accepted(prices, config, s) && PricesIn(prices, low, high)
    ensures Bounded(Gross(prices, s, config.hours, |prices|), low, high, Sum(s.charge), Sum(s.discharge),
                    Tolerance(|prices|))
  {
    var n := |prices|;
    GrossBound(prices, config, s, low, high, n);
    assert s.charge[..n] == s.charge && s.discharge[..n] == s.discharge;
  }

  /** What the tolerances of n intervals alone can earn. */
  function Slack(config: BatteryConfig, high: real, n: nat): real {
    high * (Tolerance(n) + config.dischargeEff * Tolerance(n + 2)
            - config.chargeEff * config.dischargeEff * Tolerance(n))
  }

  /** No free money: when even the best price does not pay for the round-trip losses of the worst, an accepted
      dispatch with equal boundary states of charge earns no more than its tolerances allow. */
  lemma NoFreeMoney(prices: seq<real>, config: BatteryConfig, s: Schedule, low: real, high: real)
    requires config.Valid() && config.initial == config.terminal && Accepted(prices, config, s)
    requires PricesIn(prices, low, high) && 0.0 <= low && high >= 0.0
             && high * (config.chargeEff * config.dischargeEff) <= low
    ensures Gross(prices, s, config.hours, |prices|) <= Slack(config, high, |prices|)
    ensures IsClose(s.gross, Gross(prices, s, config.hours, |prices|))
    ensures s.gross * (1.0 - RELATIVE_TOL) <= Slack(config, high, |prices|) + OBJECTIVE_TOL
  {
    var n := |prices|;
    EnergyConserved(prices, config, s);
    TotalGrossBound(prices, config, s, low, high);
    ValueBound(config, low, high, Gross(prices, s, config.hours, n), Sum(s.charge), Sum(s.discharge), n);
    SlackIsPositive(config, high, n);
    ReportedBound(s.gross, Gross(prices, s, config.hours, n), Slack(config, high, n));
  }

  /** What is reported close to a value below a bound is below the bound itself, up to the tolerances. */
  lemma ReportedBound(reported: real, value: real, bound: real)
    requires IsClose(reported, value) && value <= bound && 0.0 <= bound
    ensures reported * (1.0 - RELATIVE_TOL) <= bound + OBJECTIVE_TOL
  {
  }

  lemma SlackIsPositive(config: BatteryConfig, high: real, n: nat)
    requires config.Valid() && high >= 0.0
    ensures Slack(config, high, n) >= 0.0
  {
    var both := config.chargeEff * config.dischargeEff;
    AtMostOne(config.chargeEff, config.dischargeEff);
    Scale(both, 1.0, Tolerance(n));
    Scale(0.0, config.dischargeEff, Tolerance(n + 2));
    Scale(0.0, Tolerance(n) + config.dischargeEff * Tolerance(n + 2) - both * Tolerance(n), high);
  }

  lemma AtMostOne(a: real, b: real)
    requires 0.0 <= a <= 1.0 && 0.0 <= b <= 1.0
    ensures a * b <= 1.0
  {
    var rest := 1.0 - a;
    assert rest * b >= 0.0;
    assert a * b == (1.0 - rest) * b == b - rest * b;
  }

  lemma ValueBound(config: BatteryConfig, low: real, high: real, gross: real, charged: real, discharged: real, n: nat)
    requires config.Valid() && config.initial == config.terminal
             && Conserves(config, charged, discharged, Tolerance(n + 2))
    requires Bounded(gross, low, high, charged, discharged, Tolerance(n))
    requires high >= 0.0 && high * (config.chargeEff * config.dischargeEff) <= low
    ensures gross <= Slack(config, high, n)
  {
    DischargeBound(config, charged, discharged, Tolerance(n + 2));
    MoneyBound(gross, low, high, config.chargeEff * config.dischargeEff, charged, discharged, Tolerance(n),
               config.dischargeEff * Tolerance(n + 2));
  }

  /** Buy `power` in the first of two intervals and sell what is left of it in the second. */
  function RoundTrip(config: BatteryConfig, low: real, high: real, power: real): Schedule
    requires config.Valid()
  {
    var sold := config.chargeEff * config.dischargeEff * power;
    var gross, cost := high * sold - low * power, Cost(config, power, sold);
    Schedule([power, 0.0], [0.0, sold], [0.0, config.chargeEff * power, 0.0], [1, 0], gross, cost, gross - cost)
  }

  lemma SoldBack(chargeEff: real, dischargeEff: real, power: real)
    requires chargeEff > 0.0 && dischargeEff > 0.0 && power >= 0.0
    ensures chargeEff * power >= 0.0 && chargeEff * dischargeEff * power >= 0.0
    ensures chargeEff * dischargeEff * power / dischargeEff == chargeEff * power
  {
    var stored := chargeEff * power;
    assert stored >= 0.0;
    assert chargeEff * dischargeEff * power == stored * dischargeEff;
    TimesThenDivide(stored, dischargeEff);
  }

  lemma TimesThenDivide(a: real, b: real)
    requires a >= 0.0 && b > 0.0
    ensures a * b >= 0.0 && a * b / b == a
  {
  }

  lemma StoredOneWay(config: BatteryConfig, power: real)
    requires config.Valid()
    ensures Stored(config, power, 0.0) == config.chargeEff * power
    ensures Stored(config, 0.0, power) == -(power / config.dischargeEff)
  {
    assert 0.0 / config.dischargeEff == 0.0;
    assert config.chargeEff * 0.0 == 0.0;
  }

  lemma BuyingInterval(config: BatteryConfig, low: real, high: real, power: real)
    requires config.Valid() && 0.0 <= power <= config.maxCharge
    ensures IntervalOk(config, RoundTrip(config, low, high, power), 0)
  {
    var s := RoundTrip(config, low, high, power);
    NextSocStores(config, s, 0);
    StoredOneWay(config, power);
    TimesMode(config.maxCharge);
    TimesMode(config.maxDischarge);
  }

  lemma SellingInterval(config: BatteryConfig, low: real, high: real, power: real)
    requires config.Valid() && 0.0 <= power
    requires config.chargeEff * config.dischargeEff * power <= config.maxDischarge
    ensures IntervalOk(config, RoundTrip(config, low, high, power), 1)
  {
    var s := RoundTrip(config, low, high, power);
    SoldBack(config.chargeEff, config.dischargeEff, power);
    NextSocStores(config, s, 1);
    StoredOneWay(config, s.discharge[1]);
    TimesMode(config.maxCharge);
    TimesMode(config.maxDischarge);
  }

  lemma RoundTripIntervals(config: BatteryConfig, low: real, high: real, power: real)
    requires config.Valid() && 0.0 <= power <= config.maxCharge
    requires config.chargeEff * config.dischargeEff * power <= config.maxDischarge
    ensures AllIntervalsOk(2, config, RoundTrip(config, low, high, power))
  {
    BuyingInterval(config, low, high, power);
    SellingInterval(config, low, high, power);
  }

  lemma TimesMode(limit: real)
    ensures limit * ModeOf(1) == limit && limit * ModeOf(0) == 0.0
  {
  }

  lemma RoundTripMoney(config: BatteryConfig, low: real, high: real, power: real)
    requires config.Valid()
    ensures var s := RoundTrip(config, low, high, power);
            Gross([low, high], s, config.hours, 2) == s.gross && Sum(s.charge) == power
            && Sum(s.discharge) == s.discharge[1]
  {
    var s := RoundTrip(config, low, high, power);
    var prices := [low, high];
    assert s.charge[..1] == [power] && s.discharge[..1] == [0.0] && [power][..0] == [] && [0.0][..0] == [];
    assert Sum([power]) == power && Sum([0.0]) == 0.0;
    TimesHour(prices[0] * (0.0 - power), config.hours);
    TimesHour(prices[1] * (s.discharge[1] - 0.0), config.hours);
    assert Earned(prices[0], s.charge[0], s.discharge[0], config.hours) == -(low * power);
    assert Earned(prices[1], s.charge[1], s.discharge[1], config.hours) == high * s.discharge[1];
    assert Gross(prices, s, config.hours, 1) == -(low * power);
  }

  /** The price condition of NoFreeMoney is the right one: an empty battery that can take `power` has an accepted
      dispatch worth power * (high * efficiencies - low), a profit as soon as the condition fails. */
  lemma SpreadPays(config: BatteryConfig, low: real, high: real, power: real)
    requires config.Valid() && config.initial == config.terminal == 0.0
    requires 0.0 < power <= config.maxCharge && config.chargeEff * power <= config.capacity
    requires config.chargeEff * config.dischargeEff * power <= config.maxDischarge
    ensures Accepted([low, high], config, RoundTrip(config, low, high, power))
    ensures Gross([low, high], RoundTrip(config, low, high, power), config.hours, 2) ==
            power * (high * (config.chargeEff * config.dischargeEff) - low)
  {
    var s := RoundTrip(config, low, high, power);
    RoundTripIntervals(config, low, high, power);
    RoundTripMoney(config, low, high, power);
    assert config.chargeEff * power >= 0.0;
    SpreadValue(low, high, config.chargeEff * config.dischargeEff, power);
  }

  lemma SpreadValue(low: real, high: real, eff: real, power: real)
    ensures high * (eff * power) - low * power == power * (high * eff - low)
  {
    assert high * (eff * power) == power * (high * eff);
    assert power * (high * eff - low) == power * (high * eff) - power * low;
  }
}
