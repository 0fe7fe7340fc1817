/** The `SleeperScanDashboard` component's live state: the two state slots,
    the timer tick that overwrites them, and what a render reads from them. */
module Dashboard {
  import opened Telemetry
  import opened Display

  /** The telemetry-derived values one render puts on screen. */
  datatype View = View(
    uptime: string,
    indexLabel: string,
    indexColor: string,
    trendIcon: TrendIcon,
    narrative: seq<string>,
    censorshipBadge: string,
    censorshipTone: string,
    lock: LockIcon)

  class SleeperScanDashboard {
    var metrics: TensionMetrics
    var stats: RealtimeStats

    // The mount time and every tick since mount, in order.
    ghost const mountedAt: string
    ghost var ticks: seq<TickEvent>

    /** The slots hold exactly the state the ticks so far produce from mount. */
    ghost predicate Valid()
      reads this
    {
      && AllValid(ticks)
      && Snapshot(metrics, stats) == Run(Initial(mountedAt), ticks)
    }

    /** Mount: both slots take their seed values, stamped with `now`. */
    constructor (now: string)
      ensures Valid()
      ensures mountedAt == now && ticks == []
      ensures Snapshot(metrics, stats) == Initial(now)
    {
      metrics := Initial(now).metrics;
      stats := Initial(now).stats;
      mountedAt := now;
      ticks := [];
    }

    /** One timer tick: both slots are replaced by their updaters' results. */
    method Tick(d: Draws, now: string)
      requires Valid() && d.Valid()
      modifies this
      ensures Valid()
      ensures metrics == NextMetrics(old(metrics), d, now)
      ensures stats == NextStats(old(stats), d)
      ensures ticks == old(ticks) + [TickEvent(d, now)]
    {
      RunAppend(Initial(mountedAt), ticks, TickEvent(d, now));
      metrics := NextMetrics(metrics, d, now);
      stats := NextStats(stats, d);
      ticks := ticks + [TickEvent(d, now)];
    }

    /** The values a render shows. However many ticks have passed, the uptime
        still reads "99.97%", every shown metric is in [0, 100], and the
        neutral trend icon is never drawn. */
    method Render() returns (v: View)
      requires Valid()
      ensures v.uptime == Uptime
      ensures v.trendIcon == TrendIconFor(metrics.trend) && v.trendIcon != NeutralPulse
      ensures Bounded(metrics) && stats.activeAlerts >= 0
      ensures v.indexLabel == IndexLabel(metrics.overallIndex)
      ensures v.indexColor == IndexColor(metrics.overallIndex)
      ensures v.narrative == AnalysisNarrative(metrics.overallIndex)
      ensures v.censorshipBadge == CensorshipBadge(metrics.censorshipActivity)
      ensures v.censorshipTone == CensorshipTone(metrics.censorshipActivity)
      ensures v.lock == LockIconFor(metrics.censorshipActivity)
    {
      ReachableFromMount(mountedAt, ticks);
      v := View(
        stats.uptime,
        IndexLabel(metrics.overallIndex),
        IndexColor(metrics.overallIndex),
        TrendIconFor(metrics.trend),
        AnalysisNarrative(metrics.overallIndex),
        CensorshipBadge(metrics.censorshipActivity),
        CensorshipTone(metrics.censorshipActivity),
        LockIconFor(metrics.censorshipActivity));
    }
  }
}
