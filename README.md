# SleeperScan telemetry, modelled in Dafny

SleeperScan is a dashboard that shows synthetic "intelligence" telemetry. It has a
narrative tension index, five sub-metrics and a few counters. All of them move by a
random walk on a two-second timer. This project models the dashboard component
`SleeperScanDashboard` (`app/page.tsx`). It covers two parts:

- **The tick** (`telemetry.dfy`, module `Telemetry`). The `metrics` slot holds a
  `TensionMetrics` record and the `stats` slot a `RealtimeStats` record. On each tick
  their updaters replace them:
  - Six bounded metrics take a step of `(draw - 0.5) * amplitude`. The amplitudes are
    8, 6, 10, 5, 7 and 4, one per field. Each result is clamped to [0, 100].
  - The trend is redrawn only when a draw exceeds 0.7. It then becomes Rising or
    Falling; otherwise it keeps its previous value.
  - `protocolsMonitored` grows by `floor(draw * 3)` and `dataPoints` by
    `floor(draw * 1000)`.
  - `activeAlerts` moves by `floor((draw - 0.5) * 4)` and is floored at 0.
  - `uptime` is carried over unchanged.

  Each `Math.random()` call becomes one field of a `Draws` record, a real in [0, 1).
  The clock reading is an opaque `now` string. `Run` folds a sequence of ticks, and
  lemmas proved by induction over it say what every reachable state satisfies.
- **The display classifiers** (`display.dfy`, module `Display`). These are the index
  label and colour (bands at 80/60/40, inclusive lower bounds), the trend icon, the
  three analysis texts (bands at 70/40), and the censorship badge (strict `>` at
  70/40) with its padlock (strict `>` at 50).

`dashboard.dfy` (module `Dashboard`) holds the component itself as a class. Its two
fields are the two state slots. `Tick` overwrites both fields with the updaters'
results. `Render` reads the values one render shows. A ghost history of ticks ties
the fields to `Run` from the mount state. That is how `Render` can promise, for any
number of ticks:
- the uptime still reads "99.97%";
- every metric is in [0, 100];
- the neutral trend icon is never drawn.

The trend starts as Rising and is only ever redrawn to Rising or Falling. So the
default branch of the trend-icon switch cannot be reached from mount.

Notes on the code:
- The timer period is 2000 ms.
- The trend is redrawn with probability 0.3 (a draw above 0.7).
- The counters may grow by 0, so they are non-decreasing, not strictly increasing.
- The component has no `syncRate` field and no module carousel.
- The alert step is -2, -1, 0 or 1, each on a quarter of the draw range. So a uniform
  draw gives each value with equal probability, and the step is not symmetric around
  zero. The model states these four quarters exactly and makes no claim about intent.

## Model

| member | source | states |
|---|---|---|
| Telemetry.Clamp | app/page.tsx:73-78 | the clamped value is in [0,100]; it equals the input when the input is in range, 0 below the range and 100 above it |
| Telemetry.Perturb | app/page.tsx:73-78 | for any draw in [0,1), a random-walk step lands in [0,100]; from a value in [0,100] it moves by at least -amplitude/2 and by less than +amplitude/2 |
| Telemetry.NextTrend | app/page.tsx:79 | the trend is kept unless the first draw exceeds 0.7; a redrawn trend is never Stable, and it is Rising exactly when the second draw exceeds 0.5 |
| Telemetry.NextMetrics | app/page.tsx:71-81 | after a tick all six metrics are in [0,100]; from a bounded state each one moved by at most its own field's half amplitude (8, 6, 10, 5, 7, 4); the trend is kept when the first trend draw is at most 0.7, and a changed trend is never Stable; the timestamp is the tick's clock reading |
| Telemetry.ProtocolIncrement | app/page.tsx:85 | the protocol count grows by exactly 0, 1 or 2 |
| Telemetry.AlertDelta | app/page.tsx:86 | before flooring at 0, the alert count changes by -2, -1, 0 or +1: -2 exactly for draws below 0.25, -1 exactly on [0.25,0.5), 0 exactly on [0.5,0.75), +1 exactly from 0.75 up |
| Telemetry.DataPointIncrement | app/page.tsx:87 | the data-point count grows by an integer in 0..999 |
| Telemetry.NextStats | app/page.tsx:83-88 | neither counter decreases (at most +2 and +999); the alert count is never negative, a positive result differs from the old count by -2..+1, and a result of 0 means the old count was at most 2; the uptime is unchanged |
| Telemetry.Step | app/page.tsx:70-88 | one interval callback (both updaters) leaves every metric in [0,100], stamps the tick's clock reading, leaves alerts non-negative and uptime unchanged, and never decreases either counter |
| Telemetry.Run | app/page.tsx:70-89 | successive ticks applied in order: an empty sequence leaves the state as it was, and after at least one tick the metrics carry the clock reading of the latest tick |
| Telemetry.Initial | app/page.tsx:48-64 | the mount seeds have every metric in [0,100], a Rising (not Stable) trend, the mount clock reading, non-negative alerts and uptime "99.97%" |
| Telemetry.RunAppend | app/page.tsx:70-89 | running one more tick after a sequence of ticks equals applying one tick's updaters to the state that sequence reached |
| Telemetry.RunKeepsBounds | app/page.tsx:73-78 | after at least one tick, or from a bounded start, every bounded metric is in [0,100] |
| Telemetry.RunKeepsUptime | app/page.tsx:59-88 | no sequence of ticks changes the uptime text |
| Telemetry.RunCountersGrow | app/page.tsx:85-87 | over n ticks the protocol count grows by 0..2n and the data-point count by 0..999n; neither ever decreases |
| Telemetry.RunAlertsNonNegative | app/page.tsx:86 | after at least one tick, or from a non-negative start, the alert count is non-negative |
| Telemetry.RunNeverStable | app/page.tsx:79 | a trend that is Rising or Falling never becomes Stable, whatever the draws |
| Telemetry.RunTrendHeld | app/page.tsx:79 | when no tick's first trend draw exceeds 0.7, the trend is unchanged over the whole run |
| Telemetry.ReachableFromMount | app/page.tsx:48-88 | from the mount state, after any n ticks: all metrics are in [0,100], the trend is not Stable, alerts are at least 0, uptime is "99.97%", protocols are in 1247..1247+2n and data points in 892456..892456+999n |
| Display.IndexLabel | app/page.tsx:101-106 | EXTREME SUPPRESSION exactly at >=80, HIGH TENSION exactly on [60,80), MODERATE TENSION exactly on [40,60), LOW TENSION exactly below 40 |
| Display.IndexColor | app/page.tsx:94-99 | status-critical exactly at >=80, status-warning exactly on [60,80), text-yellow-400 exactly on [40,60), status-safe exactly below 40 |
| Display.LabelMatchesColor | app/page.tsx:94-106 | for every value the label and the colour select the same one of the four bands |
| Display.IndexBoundaries | app/page.tsx:94-106 | 80 gives EXTREME/critical, 79.9 gives HIGH/warning, 60 gives HIGH, 40 gives MODERATE, 39.9 gives LOW/safe |
| Display.TrendIconFor | app/page.tsx:108-117 | rising draws the up icon, falling the down icon, and only stable the neutral pulse |
| Display.AnalysisNarrative | app/page.tsx:280-286 | exactly one of the three guarded texts is shown for every index: the high-tension text exactly at >=70, the moderate text exactly on [40,70), the stable text exactly below 40 |
| Display.NarrativeMatchesLabel | app/page.tsx:280-286 | the stable narrative is shown exactly when the label is LOW TENSION; the high-tension narrative goes with a HIGH or EXTREME label, and EXTREME always with the high-tension narrative |
| Display.CensorshipBadge | app/page.tsx:295-297 | HIGH THREAT exactly above 70, MODERATE exactly on (40,70], LOW RISK exactly at or below 40 |
| Display.CensorshipTone | app/page.tsx:290-294 | the critical class exactly above 70, the warning class exactly on (40,70], the safe class exactly at or below 40 |
| Display.LockIconFor | app/page.tsx:300-303 | the closed padlock is drawn exactly when censorship activity is above 50 |
| Display.CensorshipIndicatorsAgree | app/page.tsx:290-303 | the badge text and its colour select the same band; HIGH THREAT always shows the closed padlock and LOW RISK the open one |
| Display.CensorshipBoundaries | app/page.tsx:291-303 | 70 is MODERATE and 70.1 HIGH THREAT; 40 is LOW RISK and 40.1 MODERATE; 50 shows the open padlock and 50.1 the closed one |
| Dashboard.SleeperScanDashboard.constructor | app/page.tsx:48-64 | at mount the slots hold the seed values (42, 67, 34, 78, 45, 56, rising; 1247 protocols, 23 alerts, 892456 data points, uptime "99.97%") and no tick has happened |
| Dashboard.SleeperScanDashboard.Tick | app/page.tsx:70-88 | one tick replaces both slots with their updaters' results, records the tick, and keeps the slots equal to the run of all ticks since mount |
| Dashboard.SleeperScanDashboard.Render | app/page.tsx:141-303 | a render shows label, colour, trend icon (the one for the current trend), narrative, badge, tone and padlock computed from the current metrics; after any number of ticks the uptime reads "99.97%", the metrics are in [0,100], alerts are non-negative and the neutral trend icon is never drawn |

## Left out

- The `setInterval`/`clearInterval` lifecycle and React's `useState`/`useEffect` scheduling: one tick is one call of `Tick`.
- `Math.random` itself: each call site is a draw parameter in [0,1). The model does not track that the second trend draw is consumed only when the first exceeds 0.7. This changes which random number later call sites receive, not what any tick can produce.
- `new Date().toISOString()`: the clock reading is an opaque string parameter.
- Display formatting (`toLocaleString`, `toLocaleTimeString`, `Math.round` of the shown numbers): it depends on the locale and does not affect state.
- `isOnline`: it is never updated.
- JSX markup, icons, the `Card`/`Progress`/`Button`/`Badge` components and fixed cosmetic figures (847, 156, 12ms, ...): presentation only.
- IEEE-754 semantics: numbers are exact reals, so NaN, infinities and rounding are not modelled.
- app/layout.tsx (font loading and page metadata) and components/ui/badge.tsx (a class-string wrapper): configuration and presentation.
- The module carousel and the `syncRate` field: neither exists in `app/page.tsx`.
