/**
 From sensor rows to a control state and its suggested actions: the measurement contract,
 the trend window, sensor coverage, the evaluator and the feedback law
 (backend/control/{measurements,aggregation,coverage,evaluator,policies}.py).
 Rates are exact rationals.
 */
module ControlSensors {
  import opened Common

  datatype ControlState =
    | Healthy | Degraded | Backpressured | RateLimited | AuthFailed | SchemaDrift
    | Paused | Dead | BlockedByOdp | Unknown

  datatype ActionType =
    | IncreaseInterval | Pause | RequireReview
    | PauseSource | PauseLowPriority | RequireAuthReview
    | Resume
    | OtherAction(name: string)

  /** A persisted source_measurements row. */
  datatype SensorRow = SensorRow(
    accepted: nat, duplicates: nat, rejected: nat, errorRate: real,
    freshnessLag: Option<int>, errorKinds: map<string, int>, tsQuality: Option<string>
  )

  datatype Measurement = Measurement(
    accepted: nat, duplicates: nat, rejected: nat, errorRate: real,
    freshnessLag: Option<int>, odpStreamLag: Option<int>, odpPending: Option<int>,
    errorKinds: map<string, int>, tsQuality: Option<string>
  )

  datatype Trend = Trend(window: nat, zeroAcceptedStreak: nat, avgErrorRate: real, rateLimitedRuns: nat)

  datatype Objective = Objective(maxErrorRate: real, maxPending: int)

  datatype SystemContext = SystemContext(odpBackpressured: bool, available: bool)

  const DEAD_STREAK := 3

  function Kind(kinds: map<string, int>, k: string): int {
    if k in kinds then kinds[k] else 0
  }

  /** SourceMeasurement.derive without the optional ODP readings. */
  function Derive(accepted: nat, duplicates: nat, rejected: nat, freshnessLag: Option<int>,
                  errorKinds: map<string, int>, tsQuality: Option<string>): Measurement {
    var seen := accepted + duplicates + rejected;
    Measurement(accepted, duplicates, rejected,
                if seen > 0 then rejected as real / seen as real else 0.0,
                freshnessLag, None, None, errorKinds, tsQuality)
  }

  function RowToMeasurement(row: SensorRow): Measurement {
    Derive(row.accepted, row.duplicates, row.rejected, row.freshnessLag, row.errorKinds, row.tsQuality)
  }

  /** The fallback for sources without a sensor row: counts of the latest run, nothing else. */
  function MeasurementFromRun(collected: nat, stored: nat, skipped: nat): Measurement {
    Derive(stored, skipped, if collected > stored + skipped then collected - stored - skipped else 0, None, map[], None)
  }

  // ---------------------------------------------------------------------------
  // Trend window
  // ---------------------------------------------------------------------------

  function ZeroStreak(rows: seq<SensorRow>): nat {
    if rows == [] || rows[0].accepted != 0 then 0 else 1 + ZeroStreak(rows[1..])
  }

  function RateLimitedRuns(rows: seq<SensorRow>): nat {
    if rows == [] then 0
    else
      var last := rows[|rows| - 1];
      RateLimitedRuns(rows[..|rows| - 1]) + if Kind(last.errorKinds, "rate_limited") > 0 then 1 else 0
  }

  function SumRates(rows: seq<SensorRow>): real {
    if rows == [] then 0.0 else SumRates(rows[..|rows| - 1]) + rows[|rows| - 1].errorRate
  }

  function TrendOf(rows: seq<SensorRow>): Option<Trend> {
    if rows == [] then None
    else Some(Trend(|rows|, ZeroStreak(rows), SumRates(rows) / |rows| as real, RateLimitedRuns(rows)))
  }

  /** The streak is the longest prefix of the newest-first window without accepted records. */
  lemma {:induction false} ZeroStreakIsLongestPrefix(rows: seq<SensorRow>, k: nat)
    requires k <= |rows|
    ensures k <= ZeroStreak(rows) <==> forall i :: 0 <= i < k ==> rows[i].accepted == 0
  {
    if k > 0 {
      if rows[0].accepted == 0 {
        ZeroStreakIsLongestPrefix(rows[1..], k - 1);
        assert forall i :: 0 < i < k ==> rows[i] == rows[1..][i - 1];
      } else {
        assert ZeroStreak(rows) == 0;
      }
    }
  }

  /** _summarize_window */
  method SummarizeWindow(rows: seq<SensorRow>) returns (trend: Option<Trend>)
    ensures trend == TrendOf(rows)
  {
    if rows == [] {
      return None;
    }
    var streak := 0;
    while streak < |rows| && rows[streak].accepted == 0
      invariant streak <= |rows| && forall i :: 0 <= i < streak ==> rows[i].accepted == 0
    {
      streak := streak + 1;
    }
    ZeroStreakIsLongestPrefix(rows, streak);
    if streak < |rows| {
      ZeroStreakIsLongestPrefix(rows, streak + 1);
    } else {
      ZeroStreakBounded(rows);
    }
    var total, limited := 0.0, 0;
    for i := 0 to |rows|
      invariant total == SumRates(rows[..i]) && limited == RateLimitedRuns(rows[..i])
    {
      assert rows[..i + 1][..i] == rows[..i];
      total := total + rows[i].errorRate;
      if Kind(rows[i].errorKinds, "rate_limited") > 0 {
        limited := limited + 1;
      }
    }
    assert rows[..|rows|] == rows;
    return Some(Trend(|rows|, streak, total / |rows| as real, limited));
  }

  lemma {:induction false} ZeroStreakBounded(rows: seq<SensorRow>)
    ensures ZeroStreak(rows) <= |rows|
  {
    if rows != [] {
      ZeroStreakBounded(rows[1..]);
    }
  }

  // ---------------------------------------------------------------------------
  // Coverage, evaluator, feedback law
  // ---------------------------------------------------------------------------

  datatype Coverage = Coverage(run: bool, cursor: bool, freshness: bool, errorKinds: bool, odp: bool)

  datatype Confidence = High | Medium | Low

  function CoverageOf(m: Measurement): Coverage {
    var fromOdp := m.odpStreamLag.Some? || m.odpPending.Some?;
    Coverage(true, m.tsQuality.Some?, m.freshnessLag.Some?, m.tsQuality.Some?, fromOdp)
  }

  function Missing(c: Coverage): nat {
    (if c.run then 0 else 1) + (if c.cursor then 0 else 1) + (if c.freshness then 0 else 1)
    + (if c.errorKinds then 0 else 1) + (if c.odp then 0 else 1)
  }

  function ConfidenceOf(c: Coverage): Confidence {
    if Missing(c) == 0 then High
    else if !c.odp || !c.errorKinds then Low
    else if Missing(c) >= 2 then Low
    else Medium
  }

  function Evaluate(
    m: Measurement, objective: Objective, trend: Option<Trend>, system: Option<SystemContext>
  ): ControlState {
    var limited := trend.Some? && trend.value.window > 0 && trend.value.rateLimitedRuns * 2 > trend.value.window;
    if Kind(m.errorKinds, "auth_failed") > 0 then AuthFailed
    else if Kind(m.errorKinds, "rate_limited") > 0 || limited then RateLimited
    else if Kind(m.errorKinds, "schema_drift") > 0 then SchemaDrift
    else if system.Some? && system.value.available && system.value.odpBackpressured then BlockedByOdp
    else if m.errorRate > objective.maxErrorRate then Degraded
    else if m.odpPending.Some? && m.odpPending.value > objective.maxPending then Backpressured
    else if trend.Some? && trend.value.zeroAcceptedStreak >= DEAD_STREAK && |m.errorKinds| > 0 then Dead
    else if ConfidenceOf(CoverageOf(m)) == Low then Unknown
    else Healthy
  }

  function SuggestActions(state: ControlState): seq<ActionType> {
    match state
    case RateLimited => [IncreaseInterval]
    case AuthFailed => [PauseSource, RequireAuthReview]
    case SchemaDrift => [PauseSource, RequireReview]
    case BlockedByOdp => [PauseLowPriority]
    case Dead => [RequireReview]
    case Degraded => [RequireReview]
    case _ => []
  }

  /** The whitelisted action that stands for a suggestion, and whether that is a downgrade. */
  function ResolveActionType(suggested: ActionType): (ActionType, bool) {
    match suggested
    case IncreaseInterval => (IncreaseInterval, false)
    case Pause => (Pause, false)
    case RequireReview => (RequireReview, false)
    case PauseSource => (Pause, false)
    case PauseLowPriority => (Pause, false)
    case RequireAuthReview => (RequireReview, false)
    case _ => (RequireReview, true)
  }

  /** Measurements that aggregation builds. */
  ghost predicate Aggregated(m: Measurement) {
    (exists row :: m == RowToMeasurement(row))
    || (exists collected, stored, skipped :: m == MeasurementFromRun(collected, stored, skipped))
  }

  /**
   Aggregation never fills the ODP readings, so no reading it builds can ever be HEALTHY or
   BACKPRESSURED, whatever objective, trend and system context it is judged by; a reading
   without any problem is always UNKNOWN.
   */
  lemma AggregatedIsNeverHealthy(
    m: Measurement, objective: Objective, trend: Option<Trend>, system: Option<SystemContext>
  )
    requires Aggregated(m)
    ensures Evaluate(m, objective, trend, system) !in {Healthy, Backpressured, Paused}
    ensures Evaluate(m, objective, trend, system) == Unknown <==>
      && Kind(m.errorKinds, "auth_failed") <= 0 && Kind(m.errorKinds, "rate_limited") <= 0
      && Kind(m.errorKinds, "schema_drift") <= 0 && m.errorRate <= objective.maxErrorRate
      && !(trend.Some? && trend.value.window > 0 && trend.value.rateLimitedRuns * 2 > trend.value.window)
      && !(system.Some? && system.value.available && system.value.odpBackpressured)
      && !(trend.Some? && trend.value.zeroAcceptedStreak >= DEAD_STREAK && |m.errorKinds| > 0)
  {}

  // ---------------------------------------------------------------------------
  // What readings and states mean
  // ---------------------------------------------------------------------------

  /** A stored row's counts are kept; its rate is the rejected share of what was seen, 0 if nothing was. */
  lemma MeasuredFromRow(row: SensorRow)
    ensures var m, seen := RowToMeasurement(row), row.accepted + row.duplicates + row.rejected;
      && (m.accepted, m.duplicates, m.rejected) == (row.accepted, row.duplicates, row.rejected)
      && m.errorRate * seen as real == row.rejected as real && (seen == 0 ==> m.errorRate == 0.0)
      && m.freshnessLag == row.freshnessLag && m.errorKinds == row.errorKinds && m.tsQuality == row.tsQuality
      && m.odpStreamLag.None? && m.odpPending.None?
  {}

  /** Without a row, what was collected and neither stored nor skipped counts as rejected. */
  lemma MeasuredFromRun(collected: nat, stored: nat, skipped: nat)
    ensures var m := MeasurementFromRun(collected, stored, skipped);
      var seen := m.accepted + m.duplicates + m.rejected;
      && m.accepted == stored && m.duplicates == skipped
      && seen == (if collected >= stored + skipped then collected else stored + skipped)
      && m.errorRate * seen as real == m.rejected as real && (seen == 0 ==> m.errorRate == 0.0)
      && m.errorKinds == map[] && m.tsQuality.None? && m.freshnessLag.None? && m.odpPending.None?
  {}

  lemma {:induction false} RatesAddUp(a: seq<SensorRow>, b: seq<SensorRow>)
    ensures SumRates(a + b) == SumRates(a) + SumRates(b)
    ensures |b| == 1 ==> SumRates(b) == b[0].errorRate
  {
    if b == [] {
      assert a + b == a;
    } else {
      assert (a + b)[..|a + b| - 1] == a + b[..|b| - 1];
      RatesAddUp(a, b[..|b| - 1]);
    }
  }

  /** The window counts the runs that met a rate limit. */
  lemma {:induction false} LimitedRunsAre(rows: seq<SensorRow>)
    ensures RateLimitedRuns(rows) == |set i | 0 <= i < |rows| && Kind(rows[i].errorKinds, "rate_limited") > 0|
  {
    if rows != [] {
      var n := |rows| - 1;
      var all := set i | 0 <= i < |rows| && Kind(rows[i].errorKinds, "rate_limited") > 0;
      var front := set i | 0 <= i < n && Kind(rows[..n][i].errorKinds, "rate_limited") > 0;
      LimitedRunsAre(rows[..n]);
      assert front == set i | 0 <= i < |rows[..n]| && Kind(rows[..n][i].errorKinds, "rate_limited") > 0;
      assert all == front + if Kind(rows[n].errorKinds, "rate_limited") > 0 then {n} else {};
    }
  }

  /** The trend of a window: its size, streak and limited runs, and the mean of the rates. */
  lemma TrendIs(rows: seq<SensorRow>)
    ensures TrendOf(rows).None? <==> rows == []
    ensures TrendOf(rows).Some? ==>
      var t := TrendOf(rows).value;
      && t.window == |rows| && t.avgErrorRate * |rows| as real == SumRates(rows)
      && t.zeroAcceptedStreak == ZeroStreak(rows) && t.rateLimitedRuns == RateLimitedRuns(rows)
  {}

  /** Which sensors a reading shows: a time quality stands for the cursor and for the error kinds. */
  lemma CoverageIs(m: Measurement)
    ensures var c := CoverageOf(m);
      && c.run && (c.cursor <==> m.tsQuality.Some?) && (c.errorKinds <==> m.tsQuality.Some?)
      && (c.freshness <==> m.freshnessLag.Some?) && (c.odp <==> m.odpStreamLag.Some? || m.odpPending.Some?)
  {}

  /** Confidence is high with all sensors, and low without the pipe or the error kinds or without any two. */
  lemma ConfidenceIs(c: Coverage)
    ensures ConfidenceOf(c) == High <==> c.run && c.cursor && c.freshness && c.errorKinds && c.odp
    ensures ConfidenceOf(c) == Low <==>
      !c.odp || !c.errorKinds || (!c.run && !c.cursor) || (!c.run && !c.freshness) || (!c.cursor && !c.freshness)
  {}

  /** So it is high exactly with all sensors, and low exactly without a pipe reading or a time quality. */
  lemma ConfidenceIff(m: Measurement)
    ensures var pipe := m.odpStreamLag.Some? || m.odpPending.Some?;
      && (ConfidenceOf(CoverageOf(m)) == High <==> pipe && m.tsQuality.Some? && m.freshnessLag.Some?)
      && (ConfidenceOf(CoverageOf(m)) == Low <==> !pipe || m.tsQuality.None?)
  {}

  predicate Limited(m: Measurement, trend: Option<Trend>) {
    || Kind(m.errorKinds, "rate_limited") > 0
    || (trend.Some? && trend.value.window > 0 && 2 * trend.value.rateLimitedRuns > trend.value.window)
  }

  predicate PipeBlocked(system: Option<SystemContext>) {
    system.Some? && system.value.available && system.value.odpBackpressured
  }

  /** Nothing but sensors can be missing: no error kind, rate, backlog or streak gives a state away. */
  predicate NoFinding(m: Measurement, objective: Objective, trend: Option<Trend>, system: Option<SystemContext>) {
    && Kind(m.errorKinds, "auth_failed") <= 0 && !Limited(m, trend) && Kind(m.errorKinds, "schema_drift") <= 0
    && !PipeBlocked(system) && m.errorRate <= objective.maxErrorRate
    && (m.odpPending.None? || m.odpPending.value <= objective.maxPending)
    && !(trend.Some? && trend.value.zeroAcceptedStreak >= 3 && m.errorKinds != map[])
  }

  /** Each state, from the readings: the first finding in the order of precedence names it. */
  lemma EvaluatesTo(m: Measurement, objective: Objective, trend: Option<Trend>, system: Option<SystemContext>)
    ensures var state := Evaluate(m, objective, trend, system);
      var authFailed, drifted := Kind(m.errorKinds, "auth_failed") > 0, Kind(m.errorKinds, "schema_drift") > 0;
      var rejects := m.errorRate > objective.maxErrorRate;
      var waits := m.odpPending.Some? && m.odpPending.value > objective.maxPending;
      && (state == AuthFailed <==> authFailed)
      && (state == RateLimited <==> !authFailed && Limited(m, trend))
      && (state == SchemaDrift <==> !authFailed && !Limited(m, trend) && drifted)
      && (state == BlockedByOdp <==> !authFailed && !Limited(m, trend) && !drifted && PipeBlocked(system))
      && (state == Degraded <==> !authFailed && !Limited(m, trend) && !drifted && !PipeBlocked(system) && rejects)
      && (state == Backpressured <==>
            !authFailed && !Limited(m, trend) && !drifted && !PipeBlocked(system) && !rejects && waits)
      && (state == Dead <==>
            && !authFailed && !Limited(m, trend) && !drifted && !PipeBlocked(system) && !rejects && !waits
            && !NoFinding(m, objective, trend, system))
      && (state == Healthy <==>
            && NoFinding(m, objective, trend, system) && m.tsQuality.Some?
            && (m.odpStreamLag.Some? || m.odpPending.Some?))
      && (state == Unknown <==>
            && NoFinding(m, objective, trend, system)
            && (m.tsQuality.None? || (m.odpStreamLag.None? && m.odpPending.None?)))
  {}

  /** What can come of a suggestion: an executed action is one of three, and anything unknown is put to review. */
  lemma SuggestionsResolve(state: ControlState, suggested: ActionType)
    ensures ResolveActionType(suggested).0 in {IncreaseInterval, Pause, RequireReview}
    ensures ResolveActionType(suggested).0 == IncreaseInterval <==> suggested == IncreaseInterval
    ensures ResolveActionType(suggested).0 == Pause <==> suggested in {Pause, PauseSource, PauseLowPriority}
    ensures ResolveActionType(suggested).1 <==> suggested == Resume || suggested.OtherAction?
    ensures suggested in SuggestActions(state) <==>
      || (state == RateLimited && suggested == IncreaseInterval)
      || (state in {AuthFailed, SchemaDrift} && suggested == PauseSource)
      || (state == AuthFailed && suggested == RequireAuthReview)
      || (state in {SchemaDrift, Dead, Degraded} && suggested == RequireReview)
      || (state == BlockedByOdp && suggested == PauseLowPriority)
    ensures |SuggestActions(state)| == if state in {AuthFailed, SchemaDrift} then 2
      else if state in {RateLimited, BlockedByOdp, Dead, Degraded} then 1 else 0
    ensures |SuggestActions(state)| == 2 ==> SuggestActions(state)[0] == PauseSource
  {}
}
