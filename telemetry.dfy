/** The simulated telemetry of the SleeperScan dashboard: the two live records,
    the rule that moves them one timer tick forward, and what any sequence of
    ticks preserves.

    JavaScript numbers are modelled as `real` (no NaN, no rounding) and the
    counters, which only ever receive integers, as `int`. Each call of
    `Math.random()` is a parameter of the tick, a draw in [0, 1). */
module Telemetry {

  /** The direction marker shown beside the tension index. */
  datatype Trend = Rising | Falling | Stable

  /** The `metrics` state slot. */
  datatype TensionMetrics = TensionMetrics(
    overallIndex: real,
    suppressionPressure: real,
    narrativeVelocity: real,
    sourceCredibilityVariance: real,
    censorshipActivity: real,
    publicAwareness: real,
    trend: Trend,
    timestamp: string)

  /** The `stats` state slot. */
  datatype RealtimeStats = RealtimeStats(
    protocolsMonitored: int,
    activeAlerts: int,
    dataPoints: int,
    uptime: string)

  /** Both state slots together, as they stand between two ticks. */
  datatype Snapshot = Snapshot(metrics: TensionMetrics, stats: RealtimeStats)

  // Random-walk amplitude of each bounded metric: a step lies in
  // [-amplitude/2, amplitude/2).
  const OverallIndexAmplitude: real := 8.0
  const SuppressionPressureAmplitude: real := 6.0
  const NarrativeVelocityAmplitude: real := 10.0
  const SourceVarianceAmplitude: real := 5.0
  const CensorshipActivityAmplitude: real := 7.0
  const PublicAwarenessAmplitude: real := 4.0

  // Every bounded metric is clamped to [MetricFloor, MetricCeiling].
  const MetricFloor: real := 0.0
  const MetricCeiling: real := 100.0

  // The trend is resampled only when a draw exceeds TrendChangeThreshold;
  // it then becomes Rising when a second draw exceeds TrendRisingThreshold.
  const TrendChangeThreshold: real := 0.7
  const TrendRisingThreshold: real := 0.5

  // Scale factors applied to a draw before it is floored.
  const ProtocolSpan: real := 3.0
  const AlertSpan: real := 4.0
  const DataPointSpan: real := 1000.0

  const Uptime: string := "99.97%"

  /** A value `Math.random()` can return. */
  predicate IsDraw(r: real) {
    0.0 <= r < 1.0
  }

  /** The random draws one tick consumes, one per call site, in source order. */
  datatype Draws = Draws(
    overallIndex: real,
    suppressionPressure: real,
    narrativeVelocity: real,
    sourceCredibilityVariance: real,
    censorshipActivity: real,
    publicAwareness: real,
    trendChange: real,
    trendDirection: real,
    protocols: real,
    alerts: real,
    dataPoints: real)
  {
    predicate Valid() {
      && IsDraw(overallIndex)
      && IsDraw(suppressionPressure)
      && IsDraw(narrativeVelocity)
      && IsDraw(sourceCredibilityVariance)
      && IsDraw(censorshipActivity)
      && IsDraw(publicAwareness)
      && IsDraw(trendChange)
      && IsDraw(trendDirection)
      && IsDraw(protocols)
      && IsDraw(alerts)
      && IsDraw(dataPoints)
    }
  }

  /** One timer tick: its draws and the clock reading it stamps on the metrics. */
  datatype TickEvent = TickEvent(draws: Draws, now: string)

  predicate InRange(x: real) {
    MetricFloor <= x <= MetricCeiling
  }

  /** Every bounded metric lies in [0, 100]. */
  predicate Bounded(m: TensionMetrics) {
    && InRange(m.overallIndex)
    && InRange(m.suppressionPressure)
    && InRange(m.narrativeVelocity)
    && InRange(m.sourceCredibilityVariance)
    && InRange(m.censorshipActivity)
    && InRange(m.publicAwareness)
  }

  /** `x` lies within half an amplitude of `center`, on the half-open interval
      a random-walk step can reach. */
  predicate Near(x: real, center: real, amplitude: real) {
    center - amplitude / 2.0 <= x < center + amplitude / 2.0
  }

  /** Each bounded metric of `next` lies within its own field's half
      amplitude of the same metric of `prev`. */
  predicate WithinStep(prev: TensionMetrics, next: TensionMetrics) {
    && Near(next.overallIndex, prev.overallIndex, OverallIndexAmplitude)
    && Near(next.suppressionPressure, prev.suppressionPressure, SuppressionPressureAmplitude)
    && Near(next.narrativeVelocity, prev.narrativeVelocity, NarrativeVelocityAmplitude)
    && Near(next.sourceCredibilityVariance, prev.sourceCredibilityVariance, SourceVarianceAmplitude)
    && Near(next.censorshipActivity, prev.censorshipActivity, CensorshipActivityAmplitude)
    && Near(next.publicAwareness, prev.publicAwareness, PublicAwarenessAmplitude)
  }

  function Max(a: real, b: real): real {
    if a >= b then a else b
  }

  function Min(a: real, b: real): real {
    if a <= b then a else b
  }

  /** `Math.max(0, Math.min(100, x))`. */
  function Clamp(x: real): (r: real)
    ensures InRange(r)
    ensures InRange(x) ==> r == x
    ensures x < MetricFloor ==> r == MetricFloor
    ensures x > MetricCeiling ==> r == MetricCeiling
  {
    Max(MetricFloor, Min(MetricCeiling, x))
  }

  lemma ProductNonNegative(x: real, y: real)
    requires x >= 0.0 && y >= 0.0
    ensures x * y >= 0.0
  {
  }

  lemma ProductPositive(x: real, y: real)
    requires x > 0.0 && y > 0.0
    ensures x * y > 0.0
  {
  }

  /** One bounded random-walk step: add `(draw - 0.5) * amplitude`, then clamp. */
  function Perturb(value: real, draw: real, amplitude: real): (r: real)
    requires IsDraw(draw) && amplitude > 0.0
    ensures InRange(r)
    ensures InRange(value) ==> Near(r, value, amplitude)
  {
    var step := (draw - 0.5) * amplitude;
    assert -amplitude / 2.0 <= step < amplitude / 2.0 by {
      ProductNonNegative(draw, amplitude);
      ProductPositive(1.0 - draw, amplitude);
    }
    Clamp(value + step)
  }

  /** The sticky trend: kept unless `change` exceeds 0.7, otherwise redrawn
      between Rising and Falling from `direction`. */
  function NextTrend(prev: Trend, change: real, direction: real): (t: Trend)
    ensures change <= TrendChangeThreshold ==> t == prev
    ensures change > TrendChangeThreshold ==> t != Stable
    ensures change > TrendChangeThreshold ==> (t == Rising <==> direction > TrendRisingThreshold)
  {
    if change > TrendChangeThreshold then
      (if direction > TrendRisingThreshold then Rising else Falling)
    else
      prev
  }

  /** The `setMetrics` updater of one tick. */
  function NextMetrics(prev: TensionMetrics, d: Draws, now: string): (m: TensionMetrics)
    requires d.Valid()
    ensures Bounded(m)
    ensures Bounded(prev) ==> WithinStep(prev, m)
    ensures d.trendChange <= TrendChangeThreshold ==> m.trend == prev.trend
    ensures m.trend != prev.trend ==> m.trend != Stable
    ensures m.timestamp == now
  {
    prev.(
      overallIndex := Perturb(prev.overallIndex, d.overallIndex, OverallIndexAmplitude),
      suppressionPressure := Perturb(prev.suppressionPressure, d.suppressionPressure, SuppressionPressureAmplitude),
      narrativeVelocity := Perturb(prev.narrativeVelocity, d.narrativeVelocity, NarrativeVelocityAmplitude),
      sourceCredibilityVariance := Perturb(prev.sourceCredibilityVariance, d.sourceCredibilityVariance, SourceVarianceAmplitude),
      censorshipActivity := Perturb(prev.censorshipActivity, d.censorshipActivity, CensorshipActivityAmplitude),
      publicAwareness := Perturb(prev.publicAwareness, d.publicAwareness, PublicAwarenessAmplitude),
      trend := NextTrend(prev.trend, d.trendChange, d.trendDirection),
      timestamp := now)
  }

  /** `Math.floor(Math.random() * 3)`. */
  function ProtocolIncrement(draw: real): (k: int)
    requires IsDraw(draw)
    ensures 0 <= k <= 2
  {
    (draw * ProtocolSpan).Floor
  }

  /** `Math.floor((Math.random() - 0.5) * 4)`: the change of the alert count
      before it is floored at zero. Each of its four values is taken on a
      quarter of the draw range, so a uniform draw gives each one equally. */
  function AlertDelta(draw: real): (k: int)
    requires IsDraw(draw)
    ensures -2 <= k <= 1
    ensures k == -2 <==> draw < 0.25
    ensures k == -1 <==> 0.25 <= draw < 0.5
    ensures k == 0 <==> 0.5 <= draw < 0.75
    ensures k == 1 <==> 0.75 <= draw
  {
    ((draw - 0.5) * AlertSpan).Floor
  }

  /** `Math.floor(Math.random() * 1000)`. */
  function DataPointIncrement(draw: real): (k: int)
    requires IsDraw(draw)
    ensures 0 <= k <= 999
  {
    (draw * DataPointSpan).Floor
  }

  /** The `setStats` updater of one tick. */
  function NextStats(prev: RealtimeStats, d: Draws): (s: RealtimeStats)
    requires d.Valid()
    ensures prev.protocolsMonitored <= s.protocolsMonitored <= prev.protocolsMonitored + 2
    ensures prev.dataPoints <= s.dataPoints <= prev.dataPoints + 999
    ensures s.activeAlerts >= 0
    ensures s.activeAlerts > 0 ==> -2 <= s.activeAlerts - prev.activeAlerts <= 1
    ensures s.activeAlerts == 0 ==> prev.activeAlerts <= 2
    ensures s.uptime == prev.uptime
  {
    var alerts := prev.activeAlerts + AlertDelta(d.alerts);
    prev.(
      protocolsMonitored := prev.protocolsMonitored + ProtocolIncrement(d.protocols),
      activeAlerts := if alerts >= 0 then alerts else 0,
      dataPoints := prev.dataPoints + DataPointIncrement(d.dataPoints))
  }

  /** Both updaters of one tick. */
  function Step(s: Snapshot, e: TickEvent): (t: Snapshot)
    requires e.draws.Valid()
    ensures Bounded(t.metrics) && t.metrics.timestamp == e.now
    ensures t.stats.activeAlerts >= 0 && t.stats.uptime == s.stats.uptime
    ensures s.stats.protocolsMonitored <= t.stats.protocolsMonitored
    ensures s.stats.dataPoints <= t.stats.dataPoints
  {
    Snapshot(NextMetrics(s.metrics, e.draws, e.now), NextStats(s.stats, e.draws))
  }

  predicate AllValid(es: seq<TickEvent>) {
    forall i :: 0 <= i < |es| ==> es[i].draws.Valid()
  }

  /** The state after the ticks `es`, applied in order, starting from `s`. */
  function Run(s: Snapshot, es: seq<TickEvent>): (r: Snapshot)
    requires AllValid(es)
    ensures es == [] ==> r == s
    ensures es != [] ==> r.metrics.timestamp == es[|es| - 1].now
    decreases |es|
  {
    if es == [] then s else Run(Step(s, es[0]), es[1..])
  }

  /** The state both slots are created with when the dashboard mounts at `now`. */
  function Initial(now: string): (s: Snapshot)
    ensures Bounded(s.metrics) && s.metrics.trend != Stable
    ensures s.metrics.timestamp == now
    ensures s.stats.activeAlerts >= 0 && s.stats.uptime == Uptime
  {
    Snapshot(
      TensionMetrics(42.0, 67.0, 34.0, 78.0, 45.0, 56.0, Rising, now),
      RealtimeStats(1247, 23, 892456, Uptime))
  }

  /** One more tick extends a run by one step. */
  lemma {:induction false} RunAppend(s: Snapshot, es: seq<TickEvent>, e: TickEvent)
    requires AllValid(es) && e.draws.Valid()
    ensures AllValid(es + [e])
    ensures Run(s, es + [e]) == Step(Run(s, es), e)
    decreases |es|
  {
    if es != [] {
      assert (es + [e])[1..] == es[1..] + [e];
      RunAppend(Step(s, es[0]), es[1..], e);
    }
  }

  /** Once a tick has happened (or from a bounded start) every bounded
      metric is in [0, 100]. */
  lemma {:induction false} RunKeepsBounds(s: Snapshot, es: seq<TickEvent>)
    requires AllValid(es)
    requires Bounded(s.metrics) || |es| > 0
    ensures Bounded(Run(s, es).metrics)
    decreases |es|
  {
    if es != [] {
      RunKeepsBounds(Step(s, es[0]), es[1..]);
    }
  }

  /** No tick touches the uptime text. */
  lemma {:induction false} RunKeepsUptime(s: Snapshot, es: seq<TickEvent>)
    requires AllValid(es)
    ensures Run(s, es).stats.uptime == s.stats.uptime
    decreases |es|
  {
    if es != [] {
      RunKeepsUptime(Step(s, es[0]), es[1..]);
    }
  }

  /** The two counters never decrease, and grow by at most 2 and 999 per tick. */
  lemma {:induction false} RunCountersGrow(s: Snapshot, es: seq<TickEvent>)
    requires AllValid(es)
    ensures s.stats.protocolsMonitored <= Run(s, es).stats.protocolsMonitored
                                       <= s.stats.protocolsMonitored + 2 * |es|
    ensures s.stats.dataPoints <= Run(s, es).stats.dataPoints
                               <= s.stats.dataPoints + 999 * |es|
    decreases |es|
  {
    if es != [] {
      RunCountersGrow(Step(s, es[0]), es[1..]);
    }
  }

  /** The alert count is never negative once a tick has happened. */
  lemma {:induction false} RunAlertsNonNegative(s: Snapshot, es: seq<TickEvent>)
    requires AllValid(es)
    requires s.stats.activeAlerts >= 0 || |es| > 0
    ensures Run(s, es).stats.activeAlerts >= 0
    decreases |es|
  {
    if es != [] {
      RunAlertsNonNegative(Step(s, es[0]), es[1..]);
    }
  }

  /** A trend that is not Stable never becomes Stable. */
  lemma {:induction false} RunNeverStable(s: Snapshot, es: seq<TickEvent>)
    requires AllValid(es)
    requires s.metrics.trend != Stable
    ensures Run(s, es).metrics.trend != Stable
    decreases |es|
  {
    if es != [] {
      RunNeverStable(Step(s, es[0]), es[1..]);
    }
  }

  /** If no tick's first trend draw exceeds 0.7, the trend is what it was. */
  lemma {:induction false} RunTrendHeld(s: Snapshot, es: seq<TickEvent>)
    requires AllValid(es)
    requires forall i :: 0 <= i < |es| ==> es[i].draws.trendChange <= TrendChangeThreshold
    ensures Run(s, es).metrics.trend == s.metrics.trend
    decreases |es|
  {
    if es != [] {
      RunTrendHeld(Step(s, es[0]), es[1..]);
    }
  }

  /** What holds of the dashboard after any number of ticks from mount. */
  lemma ReachableFromMount(now: string, es: seq<TickEvent>)
    requires AllValid(es)
    ensures Bounded(Run(Initial(now), es).metrics)
    ensures Run(Initial(now), es).metrics.trend != Stable
    ensures Run(Initial(now), es).stats.activeAlerts >= 0
    ensures Run(Initial(now), es).stats.uptime == Uptime
    ensures 1247 <= Run(Initial(now), es).stats.protocolsMonitored <= 1247 + 2 * |es|
    ensures 892456 <= Run(Initial(now), es).stats.dataPoints <= 892456 + 999 * |es|
  {
    RunKeepsBounds(Initial(now), es);
    RunNeverStable(Initial(now), es);
    RunAlertsNonNegative(Initial(now), es);
    RunKeepsUptime(Initial(now), es);
    RunCountersGrow(Initial(now), es);
  }
}
