/** The rules of the resource and health monitor (system_monitor.py): the
    bounded sample history, the alert rules, the terminal bars and the
    defaults of the per-sample rows. What `psutil` and `requests` report is
    an input: a `Sample` holds exactly the readings these rules look at. */
module Monitor {
  import opened Basics

  /** The readings of `collect_system_metrics` the rules use. `count` is
      `psutil.cpu_count()`, which may be unknown. */
  datatype CpuInfo = CpuInfo(percent: real, count: Option<int>, loadAvg1m: real)

  datatype SystemMetrics = SystemMetrics(cpu: CpuInfo, memoryPercent: real, diskPercent: real)

  datatype Health = Health(statusCode: int, responseTime: real, status: string)

  /** The counters the demo service's `/stats` answers with. */
  datatype AppStats = AppStats(totalRequests: int, errorCount: int, errorRate: real)

  /** `collect_app_metrics`; `stats` is None when `/stats` did not answer 200. */
  datatype AppMetrics = AppMetrics(connectivity: bool, health: Health, stats: Option<AppStats>)

  /** One entry of the history. `system` is None when collecting the system
      metrics raised, which the source records as an empty dictionary. */
  datatype Sample = Sample(system: Option<SystemMetrics>, app: AppMetrics)

  // ---------------------------------------------------------------------
  // Reading a sample, with the defaults the source falls back to

  function CpuPercent(m: Sample): real
  {
    if m.system.Some? then m.system.value.cpu.percent else 0.0
  }

  function MemoryPercent(m: Sample): real
  {
    if m.system.Some? then m.system.value.memoryPercent else 0.0
  }

  function DiskPercent(m: Sample): real
  {
    if m.system.Some? then m.system.value.diskPercent else 0.0
  }

  function LoadAvg(m: Sample): real
  {
    if m.system.Some? then m.system.value.cpu.loadAvg1m else 0.0
  }

  /** The core count the load rule compares against: 1 when the system
      metrics are missing, None when psutil could not tell. */
  function Cores(m: Sample): Option<int>
  {
    if m.system.Some? then m.system.value.cpu.count else Some(1)
  }

  function ResponseTimeMs(m: Sample): real
  {
    m.app.health.responseTime * 1000.0
  }

  function ErrorRatePercent(m: Sample): real
  {
    if m.app.stats.Some? then m.app.stats.value.errorRate * 100.0 else 0.0
  }

  // ---------------------------------------------------------------------
  // collect_app_metrics

  /** What `/health` answered: its status code, elapsed seconds, and the
      `status` field of its JSON body when it has one. */
  datatype HealthReply = HealthReply(statusCode: int, elapsed: real, bodyStatus: Option<string>)

  datatype StatsReply = StatsReply(statusCode: int, body: AppStats)

  /** Both requests answered, or one of them raised a connection error. */
  datatype AppProbe = Answered(health: HealthReply, statsReply: StatsReply) | ConnectionFailed

  /** `collect_app_metrics`: a body is read only from a 200 answer. */
  function CollectAppMetrics(p: AppProbe): (m: AppMetrics)
    ensures m.connectivity <==> p.Answered?
    ensures p.ConnectionFailed? ==> m.health == Health(0, 0.0, "unreachable") && m.stats.None?
    ensures p.Answered? ==>
      && m.health.statusCode == p.health.statusCode
      && m.health.responseTime == p.health.elapsed
      && (p.health.statusCode != 200 || p.health.bodyStatus.None? ==> m.health.status == "unknown")
      && (p.health.statusCode == 200 && p.health.bodyStatus.Some? ==> m.health.status == p.health.bodyStatus.value)
    ensures m.stats.Some? <==> p.Answered? && p.statsReply.statusCode == 200
    ensures m.stats.Some? ==> m.stats.value == p.statsReply.body
  {
    match p
    case ConnectionFailed =>
      AppMetrics(false, Health(0, 0.0, "unreachable"), None)
    case Answered(h, st) =>
      var status := if h.statusCode == 200 && h.bodyStatus.Some? then h.bodyStatus.value else "unknown";
      AppMetrics(true, Health(h.statusCode, h.elapsed, status), if st.statusCode == 200 then Some(st.body) else None)
  }

  // ---------------------------------------------------------------------
  // _check_alerts

  datatype Severity = High | Critical

  datatype Metric = Cpu | Memory | Disk | Load | ResponseTime | ErrorRate

  /** The alerts of `_check_alerts`, with the figure each one reports. */
  datatype Alert =
    | Threshold(metric: Metric, severity: Severity, value: real)
    | Unreachable
    | StatusUnhealthy
    | StatusDegraded
    | CheckFailed

  /** Above `critical` is critical, else above `high` is high. */
  function Grade(value: real, high: real, critical: real): Option<Severity>
  {
    if value > critical then Some(Critical) else if value > high then Some(High) else None
  }

  /** The position of an alert's rule in the order the rules run. */
  function Rank(a: Alert): nat
  {
    match a
    case Threshold(Cpu, _, _) => 0
    case Threshold(Memory, _, _) => 1
    case Threshold(Disk, _, _) => 2
    case Threshold(Load, _, _) => 3
    case Unreachable => 4
    case Threshold(ResponseTime, _, _) => 5
    case Threshold(ErrorRate, _, _) => 6
    case StatusUnhealthy => 7
    case StatusDegraded => 7
    case CheckFailed => 8
  }

  predicate IsApplicationAlert(a: Alert)
  {
    4 <= Rank(a) <= 7
  }

  /** Alerts in rule order, at most one per rule. */
  predicate Ordered(alerts: seq<Alert>)
  {
    forall i, j :: 0 <= i < j < |alerts| ==> Rank(alerts[i]) < Rank(alerts[j])
  }

  /** The condition under which the sample raises alert `a`. */
  predicate Justified(a: Alert, m: Sample)
  {
    match a
    case Threshold(Cpu, sev, v) => v == CpuPercent(m) && Grade(v, 80.0, 90.0) == Some(sev)
    case Threshold(Memory, sev, v) => v == MemoryPercent(m) && Grade(v, 80.0, 90.0) == Some(sev)
    case Threshold(Disk, sev, v) => v == DiskPercent(m) && Grade(v, 85.0, 95.0) == Some(sev)
    case Threshold(Load, sev, v) =>
      Cores(m).Some? && v == LoadAvg(m)
      && Grade(v, Cores(m).value as real, (Cores(m).value * 2) as real) == Some(sev)
    case Unreachable => Cores(m).Some? && !m.app.connectivity
    case Threshold(ResponseTime, sev, v) =>
      Cores(m).Some? && m.app.connectivity && v == ResponseTimeMs(m)
      && Grade(v, 1000.0, 2000.0) == Some(sev)
    case Threshold(ErrorRate, sev, v) =>
      Cores(m).Some? && m.app.connectivity && v == ErrorRatePercent(m)
      && Grade(v, 5.0, 10.0) == Some(sev)
    case StatusUnhealthy =>
      Cores(m).Some? && m.app.connectivity && IsUnhealthy(m.app.health.status)
    case StatusDegraded =>
      Cores(m).Some? && m.app.connectivity && IsDegraded(m.app.health.status)
    case CheckFailed => Cores(m).None?
  }

  /** Every rule whose condition holds raised its alert. */
  predicate Complete(alerts: seq<Alert>, m: Sample)
  {
    && (Grade(CpuPercent(m), 80.0, 90.0).Some? ==>
         Threshold(Cpu, Grade(CpuPercent(m), 80.0, 90.0).value, CpuPercent(m)) in alerts)
    && (Grade(MemoryPercent(m), 80.0, 90.0).Some? ==>
         Threshold(Memory, Grade(MemoryPercent(m), 80.0, 90.0).value, MemoryPercent(m)) in alerts)
    && (Grade(DiskPercent(m), 85.0, 95.0).Some? ==>
         Threshold(Disk, Grade(DiskPercent(m), 85.0, 95.0).value, DiskPercent(m)) in alerts)
    && (Cores(m).None? ==> CheckFailed in alerts)
    && (Cores(m).Some? ==>
         var c := Cores(m).value;
         && (Grade(LoadAvg(m), c as real, (c * 2) as real).Some? ==>
              Threshold(Load, Grade(LoadAvg(m), c as real, (c * 2) as real).value, LoadAvg(m)) in alerts)
         && (!m.app.connectivity ==> Unreachable in alerts)
         && (m.app.connectivity ==>
              && (Grade(ResponseTimeMs(m), 1000.0, 2000.0).Some? ==>
                   Threshold(ResponseTime, Grade(ResponseTimeMs(m), 1000.0, 2000.0).value, ResponseTimeMs(m)) in alerts)
              && (Grade(ErrorRatePercent(m), 5.0, 10.0).Some? ==>
                   Threshold(ErrorRate, Grade(ErrorRatePercent(m), 5.0, 10.0).value, ErrorRatePercent(m)) in alerts)
              && (IsUnhealthy(m.app.health.status) ==> StatusUnhealthy in alerts)
              && (IsDegraded(m.app.health.status) ==> StatusDegraded in alerts)))
  }

  /** The alert one threshold rule raises, if any. */
  function Rule(metric: Metric, value: real, high: real, critical: real): (r: seq<Alert>)
    ensures |r| <= 1
  {
    match Grade(value, high, critical)
    case None => []
    case Some(sev) => [Threshold(metric, sev, value)]
  }

  /** `status.lower() == 'unhealthy'`. */
  predicate IsUnhealthy(status: string)
  {
    Lower(status) == "unhealthy"
  }

  /** `status.lower() == 'degraded'`. */
  predicate IsDegraded(status: string)
  {
    Lower(status) == "degraded"
  }

  function StatusRule(status: string): seq<Alert>
  {
    if IsUnhealthy(status) then [StatusUnhealthy]
    else if IsDegraded(status) then [StatusDegraded]
    else []
  }

  /** The rules after the resource rules, once the core count is known. */
  function ApplicationAlerts(m: Sample): seq<Alert>
  {
    if !m.app.connectivity then [Unreachable]
    else
      Rule(ResponseTime, ResponseTimeMs(m), 1000.0, 2000.0)
      + Rule(ErrorRate, ErrorRatePercent(m), 5.0, 10.0)
      + StatusRule(m.app.health.status)
  }

  function ResourceAlerts(m: Sample): seq<Alert>
  {
    Rule(Cpu, CpuPercent(m), 80.0, 90.0)
    + Rule(Memory, MemoryPercent(m), 80.0, 90.0)
    + Rule(Disk, DiskPercent(m), 85.0, 95.0)
  }

  /** The alert list of a sample, rule by rule. */
  function AlertsOf(m: Sample): seq<Alert>
  {
    ResourceAlerts(m) +
    match Cores(m)
    case None => [CheckFailed]
    case Some(c) => Rule(Load, LoadAvg(m), c as real, (c * 2) as real) + ApplicationAlerts(m)
  }

  /** Every alert of `s` comes from a rule ranked in [lo, hi). */
  predicate RanksIn(s: seq<Alert>, lo: nat, hi: nat)
  {
    forall i :: 0 <= i < |s| ==> lo <= Rank(s[i]) < hi
  }

  lemma OrderedConcat(a: seq<Alert>, b: seq<Alert>, lo: nat, mid: nat, hi: nat)
    requires lo <= mid <= hi && Ordered(a) && Ordered(b) && RanksIn(a, lo, mid) && RanksIn(b, mid, hi)
    ensures Ordered(a + b) && RanksIn(a + b, lo, hi)
  {
    var r := a + b;
    forall i | 0 <= i < |r|
      ensures lo <= Rank(r[i]) < hi
    {
      if i < |a| {
        assert r[i] == a[i];
      } else {
        assert r[i] == b[i - |a|];
      }
    }
    forall i, j | 0 <= i < j < |r|
      ensures Rank(r[i]) < Rank(r[j])
    {
      if j < |a| {
        assert r[i] == a[i] && r[j] == a[j];
      } else if i < |a| {
        assert r[i] == a[i] && r[j] == b[j - |a|];
      } else {
        assert r[i] == b[i - |a|] && r[j] == b[j - |a|];
      }
    }
  }

  lemma ApplicationAlertsOrdered(m: Sample)
    ensures Ordered(ApplicationAlerts(m)) && RanksIn(ApplicationAlerts(m), 4, 8)
  {
    if m.app.connectivity {
      var rt := Rule(ResponseTime, ResponseTimeMs(m), 1000.0, 2000.0);
      var er := Rule(ErrorRate, ErrorRatePercent(m), 5.0, 10.0);
      OrderedConcat(rt, er, 5, 6, 7);
      OrderedConcat(rt + er, StatusRule(m.app.health.status), 5, 7, 8);
    }
  }

  /** The alerts are in rule order, at most one per rule. */
  lemma AlertsOrdered(m: Sample)
    ensures Ordered(AlertsOf(m))
  {
    var cpu := Rule(Cpu, CpuPercent(m), 80.0, 90.0);
    var memory := Rule(Memory, MemoryPercent(m), 80.0, 90.0);
    var disk := Rule(Disk, DiskPercent(m), 85.0, 95.0);
    OrderedConcat(cpu, memory, 0, 1, 2);
    OrderedConcat(cpu + memory, disk, 0, 2, 3);
    match Cores(m)
    case None =>
      OrderedConcat(ResourceAlerts(m), [CheckFailed], 0, 3, 9);
    case Some(c) =>
      var load := Rule(Load, LoadAvg(m), c as real, (c * 2) as real);
      ApplicationAlertsOrdered(m);
      OrderedConcat(load, ApplicationAlerts(m), 3, 4, 8);
      OrderedConcat(ResourceAlerts(m), load + ApplicationAlerts(m), 0, 3, 8);
  }

  /** Every alert raised has its rule's condition. */
  lemma AlertsJustified(m: Sample)
    ensures forall a :: a in AlertsOf(m) ==> Justified(a, m)
  {
    forall a | a in AlertsOf(m)
      ensures Justified(a, m)
    {
      if a in ResourceAlerts(m) {
        if a in Rule(Cpu, CpuPercent(m), 80.0, 90.0) {
          RuleAlert(Cpu, CpuPercent(m), 80.0, 90.0, a);
        } else if a in Rule(Memory, MemoryPercent(m), 80.0, 90.0) {
          RuleAlert(Memory, MemoryPercent(m), 80.0, 90.0, a);
        } else {
          RuleAlert(Disk, DiskPercent(m), 85.0, 95.0, a);
        }
      } else if Cores(m).Some? {
        var c := Cores(m).value;
        if a in Rule(Load, LoadAvg(m), c as real, (c * 2) as real) {
          RuleAlert(Load, LoadAvg(m), c as real, (c * 2) as real, a);
        } else if m.app.connectivity {
          if a in Rule(ResponseTime, ResponseTimeMs(m), 1000.0, 2000.0) {
            RuleAlert(ResponseTime, ResponseTimeMs(m), 1000.0, 2000.0, a);
          } else if a in Rule(ErrorRate, ErrorRatePercent(m), 5.0, 10.0) {
            RuleAlert(ErrorRate, ErrorRatePercent(m), 5.0, 10.0, a);
          } else {
            assert a in StatusRule(m.app.health.status);
          }
        }
      }
    }
  }

  /** An alert of a threshold rule names the rule's metric and the value it
      graded, with the severity of that grade. */
  lemma RuleAlert(metric: Metric, value: real, high: real, critical: real, a: Alert)
    requires a in Rule(metric, value, high, critical)
    ensures a.Threshold? && a.metric == metric && a.value == value
    ensures Grade(value, high, critical) == Some(a.severity)
  {
  }

  /** Every rule whose condition holds raised its alert. */
  lemma AlertsComplete(m: Sample)
    ensures Complete(AlertsOf(m), m)
  {
    if Cores(m).Some? && m.app.connectivity {
      var s := Lower(m.app.health.status);
      assert s == "degraded" ==> s != "unhealthy";
    }
  }

  /** Without connectivity the only application alert is "unreachable". */
  lemma UnreachableIsTheOnlyApplicationAlert(m: Sample)
    requires !m.app.connectivity
    ensures forall a :: a in AlertsOf(m) && IsApplicationAlert(a) ==> a == Unreachable
  {
  }

  /** `_check_alerts`, rule by rule: an unknown core count makes the load
      rule raise, which keeps the alerts found so far, adds the error alert
      and skips the application rules. What the list means is proved about
      `AlertsOf`: AlertsOrdered, AlertsJustified, AlertsComplete and
      UnreachableIsTheOnlyApplicationAlert. */
  method CheckAlerts(m: Sample) returns (alerts: seq<Alert>)
    ensures alerts == AlertsOf(m)
  {
    alerts := [];
    alerts := RaiseThreshold(alerts, Cpu, CpuPercent(m), 80.0, 90.0);
    alerts := RaiseThreshold(alerts, Memory, MemoryPercent(m), 80.0, 90.0);
    alerts := RaiseThreshold(alerts, Disk, DiskPercent(m), 85.0, 95.0);
    ghost var resourceAlerts := alerts;
    assert resourceAlerts == ResourceAlerts(m);
    match Cores(m)
    case None =>
      // `load_avg > cpu_count * 2` raises a TypeError, caught by the handler
      alerts := alerts + [CheckFailed];
    case Some(count) =>
      alerts := RaiseThreshold(alerts, Load, LoadAvg(m), count as real, (count * 2) as real);
      ghost var loadAlert := Rule(Load, LoadAvg(m), count as real, (count * 2) as real);
      ghost var systemAlerts := alerts;
      if !m.app.connectivity {
        alerts := alerts + [Unreachable];
      } else {
        alerts := RaiseThreshold(alerts, ResponseTime, ResponseTimeMs(m), 1000.0, 2000.0);
        alerts := RaiseThreshold(alerts, ErrorRate, ErrorRatePercent(m), 5.0, 10.0);
        alerts := RaiseStatus(alerts, m.app.health.status);
      }
      assert alerts == systemAlerts + ApplicationAlerts(m);
      assert alerts == resourceAlerts + (loadAlert + ApplicationAlerts(m));
  }

  /** The status rule of `_check_alerts`, appended to `alerts`. */
  method RaiseStatus(alerts: seq<Alert>, status: string) returns (r: seq<Alert>)
    ensures r == alerts + StatusRule(status)
  {
    if IsUnhealthy(status) {
      r := alerts + [StatusUnhealthy];
    } else if IsDegraded(status) {
      r := alerts + [StatusDegraded];
    } else {
      r := alerts;
    }
  }

  /** One threshold rule of `_check_alerts`: the critical alert above
      `critical`, else the high alert above `high`, appended to `alerts`. */
  method RaiseThreshold(alerts: seq<Alert>, metric: Metric, value: real, high: real, critical: real)
    returns (r: seq<Alert>)
    ensures r == alerts + Rule(metric, value, high, critical)
  {
    if value > critical {
      r := alerts + [Threshold(metric, Critical, value)];
    } else if value > high {
      r := alerts + [Threshold(metric, High, value)];
    } else {
      r := alerts;
    }
  }

  /** A status alert needs a 200 answer from `/health`: any other status code
      leaves the recorded status at "unknown". */
  lemma StatusAlertNeedsOk(system: Option<SystemMetrics>, p: AppProbe)
    ensures var m := Sample(system, CollectAppMetrics(p));
      Justified(StatusDegraded, m) || Justified(StatusUnhealthy, m) ==>
        p.Answered? && p.health.statusCode == 200
  {
    var status := CollectAppMetrics(p).health.status;
    if p.Answered? && p.health.statusCode != 200 {
      assert status == "unknown";
      LowerKeeps("unknown");
      assert !IsDegraded(status) && !IsUnhealthy(status);
    }
  }

  /** The status comparison ignores letter case: statuses that differ only in
      case raise the same status alert, and so does the lower-cased status. */
  lemma StatusIgnoresCase(s: string, t: string)
    ensures Lower(s) == Lower(t) ==> StatusRule(s) == StatusRule(t)
    ensures StatusRule(Lower(s)) == StatusRule(s)
  {
    LowerIdempotent(s);
  }

  // ---------------------------------------------------------------------
  // The sample history

  const HistoryLimit: nat := 100

  /** The newest `HistoryLimit` samples, oldest first. */
  function Newest(xs: seq<Sample>): (r: seq<Sample>)
    ensures |r| == Min(|xs|, HistoryLimit)
    ensures r == xs[|xs| - |r|..]
  {
    if |xs| > HistoryLimit then xs[|xs| - HistoryLimit..] else xs
  }

  /** Truncating after every append keeps the same samples as truncating once. */
  lemma NewestAppend(xs: seq<Sample>, s: Sample)
    ensures Newest(Newest(xs) + [s]) == Newest(xs + [s])
  {
    var n := Newest(xs);
    if |xs| > HistoryLimit {
      assert (n + [s])[1..] == (xs + [s])[|xs| + 1 - HistoryLimit..];
    }
  }

  /** The samples the loop stores: all of them, or only the first when the
      interval is negative. */
  function Recorded(interval: int, samples: seq<Sample>): seq<Sample>
  {
    if interval < 0 then samples[..Min(1, |samples|)] else samples
  }

  lemma PrefixStep(start: seq<Sample>, samples: seq<Sample>, k: nat)
    requires k < |samples|
    ensures start + samples[..k + 1] == (start + samples[..k]) + [samples[k]]
  {
    assert samples[..k + 1] == samples[..k] + [samples[k]];
  }

  class SystemMonitor {
    const appUrl: string
    var monitoring: bool
    var metricsHistory: seq<Sample>

    ghost predicate Valid()
      reads this
    {
      |metricsHistory| <= HistoryLimit
    }

    constructor (url: string)
      ensures Valid() && appUrl == url && !monitoring && metricsHistory == []
    {
      appUrl := url;
      monitoring := false;
      metricsHistory := [];
    }

    /** One pass of `monitor_loop`: append, then keep the last 100. */
    method RecordSample(s: Sample)
      requires Valid()
      modifies this
      ensures Valid() && monitoring == old(monitoring)
      ensures metricsHistory == Newest(old(metricsHistory) + [s])
    {
      metricsHistory := metricsHistory + [s];
      if |metricsHistory| > HistoryLimit {
        metricsHistory := metricsHistory[|metricsHistory| - HistoryLimit..];
      }
    }

    /** `monitor_loop` over the samples collected before monitoring is turned
        off. A negative interval makes `time.sleep` raise after the first
        sample; the handler's own `time.sleep` raises again and the loop's
        thread ends. */
    method MonitorLoop(interval: int, samples: seq<Sample>)
      requires Valid()
      modifies this
      ensures Valid() && monitoring == old(monitoring)
      ensures metricsHistory == Newest(old(metricsHistory) + (if old(monitoring) then Recorded(interval, samples) else []))
    {
      ghost var start := metricsHistory;
      assert start + [] == start;
      if !monitoring {
        return;
      }
      var k := 0;
      assert start + samples[..0] == start;
      while k < |samples|
        invariant 0 <= k <= |samples|
        invariant interval < 0 ==> k == 0
        invariant Valid() && monitoring == old(monitoring)
        invariant metricsHistory == Newest(start + samples[..k])
      {
        NewestAppend(start + samples[..k], samples[k]);
        PrefixStep(start, samples, k);
        RecordSample(samples[k]);
        k := k + 1;
        if interval < 0 {
          break;
        }
      }
      assert samples[..k] == Recorded(interval, samples);
    }

    /** `start_monitoring`: turn monitoring on and run the loop. */
    method StartMonitoring(interval: int, samples: seq<Sample>)
      requires Valid()
      modifies this
      ensures Valid() && monitoring
      ensures metricsHistory == Newest(old(metricsHistory) + Recorded(interval, samples))
    {
      monitoring := true;
      MonitorLoop(interval, samples);
    }

    /** `_prepare_dataframe`: one row per sample of the history, in order. */
    method PrepareDataframe() returns (rows: seq<Row>)
      ensures |rows| == |metricsHistory|
      ensures forall i :: 0 <= i < |rows| ==> rows[i] == RowOf(metricsHistory[i])
    {
      rows := [];
      var k := 0;
      while k < |metricsHistory|
        invariant 0 <= k <= |metricsHistory| && |rows| == k
        invariant forall i :: 0 <= i < k ==> rows[i] == RowOf(metricsHistory[i])
      {
        rows := rows + [RowOf(metricsHistory[k])];
        k := k + 1;
      }
    }

    /** `stop_monitoring`: the loop ends; the history is kept. */
    method StopMonitoring()
      modifies this
      ensures !monitoring && metricsHistory == old(metricsHistory)
    {
      monitoring := false;
    }
  }

  // ---------------------------------------------------------------------
  // Bars and rows

  /** `_create_progress_bar`: `int(value / max_value * width)` cells of `char`,
      at most `width`; green below half the maximum, yellow below 0.8, else red. */
  function ProgressBar(value: real, maxValue: real, width: int): (b: Bar)
    ensures maxValue == 0.0 ==> b == Bar(Plain, 0, Max(width, 0))
    ensures maxValue != 0.0 ==> b.color != Plain
    ensures maxValue > 0.0 ==> (b.color == Green <==> value < 0.5 * maxValue)
    ensures maxValue > 0.0 ==> (b.color == Red <==> value >= 0.8 * maxValue)
  {
    if maxValue == 0.0 then
      Bar(Plain, 0, Max(width, 0))
    else
      var filled := ScaledCells(value, maxValue, width);
      Bar(BarColor(value, maxValue), Max(filled, 0), Max(width - filled, 0))
  }

  /** A bar on a positive maximum has `width` cells, the full ones being the
      truncated share of `value`, and is all full once `value` reaches the maximum. */
  lemma ProgressBarCells(value: real, maxValue: real, width: int)
    requires maxValue > 0.0 && value >= 0.0 && width >= 0
    ensures var b := ProgressBar(value, maxValue, width);
      && b.filled + b.empty == width
      && b.filled == Min((value / maxValue * width as real).Floor, width)
      && (value >= maxValue ==> b.filled == width && b.empty == 0)
  {
  }

  /** Green below half the maximum, yellow below 0.8 of it, else red. */
  function BarColor(value: real, maxValue: real): (c: Color)
    requires maxValue != 0.0
    ensures c != Plain
    ensures maxValue > 0.0 ==> (c == Green <==> value < 0.5 * maxValue)
    ensures maxValue > 0.0 ==> (c == Red <==> value >= 0.8 * maxValue)
  {
    var ratio := value / maxValue;
    RatioCompare(value, maxValue, 0.5);
    RatioCompare(value, maxValue, 0.8);
    if ratio < 0.5 then Green else if ratio < 0.8 then Yellow else Red
  }

  /** The drawn bar `char * filled + '▱' * (width - filled)`: the fill glyph in
      each full cell and '▱' in each empty one. */
  function Render(b: Bar, cell: char): (s: string)
    ensures |s| == b.filled + b.empty
    ensures forall i :: 0 <= i < |s| ==> s[i] == (if i < b.filled then cell else '▱')
  {
    RenderCells(b, cell);
    Repeat([cell], b.filled) + Repeat("▱", b.empty)
  }

  lemma RenderCells(b: Bar, cell: char)
    ensures var s := Repeat([cell], b.filled) + Repeat("▱", b.empty);
      && |s| == b.filled + b.empty
      && forall i :: 0 <= i < |s| ==> s[i] == (if i < b.filled then cell else '▱')
  {
    var f := Repeat([cell], b.filled);
    var e := Repeat("▱", b.empty);
    assert |f| == b.filled && |e| == b.empty;
    forall i | 0 <= i < |f + e|
      ensures (f + e)[i] == (if i < b.filled then cell else '▱')
    {
      if i < b.filled {
        RepeatOne(cell, b.filled, i);
      } else {
        RepeatOne('▱', b.empty, i - b.filled);
      }
    }
  }

  /** `_create_response_time_bar`'s four dots. */
  datatype Dot = GreenDot | YellowDot | OrangeDot | RedDot

  function ResponseTimeBand(ms: real): Dot
  {
    if ms < 100.0 then GreenDot
    else if ms < 500.0 then YellowDot
    else if ms < 1000.0 then OrangeDot
    else RedDot
  }

  function DotRank(d: Dot): nat
  {
    match d
    case GreenDot => 0
    case YellowDot => 1
    case OrangeDot => 2
    case RedDot => 3
  }

  /** A slower response never gets a better dot; the cut points are 100, 500 and 1000 ms. */
  lemma ResponseTimeBandMonotone(a: real, b: real)
    requires a <= b
    ensures DotRank(ResponseTimeBand(a)) <= DotRank(ResponseTimeBand(b))
    ensures ResponseTimeBand(a) == GreenDot <==> a < 100.0
    ensures ResponseTimeBand(a) == YellowDot <==> 100.0 <= a < 500.0
    ensures ResponseTimeBand(a) == OrangeDot <==> 500.0 <= a < 1000.0
    ensures ResponseTimeBand(a) == RedDot <==> a >= 1000.0
  {
  }

  /** A row of `_prepare_dataframe`, timestamps left out. */
  datatype Row = Row(
    cpuPercent: real, memoryPercent: real, diskPercent: real, loadAvg1m: real,
    responseTimeMs: real, appStatus: string,
    totalRequests: int, errorCount: int, errorRate: real, connectivity: bool)

  /** The row of a sample: a missing section reads as zero. */
  function RowOf(m: Sample): (r: Row)
    ensures m.system.None? ==> r.cpuPercent == r.memoryPercent == r.diskPercent == r.loadAvg1m == 0.0
    ensures m.app.stats.None? ==> r.totalRequests == 0 && r.errorCount == 0 && r.errorRate == 0.0
    ensures r.cpuPercent == CpuPercent(m) && r.memoryPercent == MemoryPercent(m) && r.diskPercent == DiskPercent(m)
    ensures r.loadAvg1m == LoadAvg(m)
    ensures m.app.stats.Some? ==>
      r.totalRequests == m.app.stats.value.totalRequests && r.errorCount == m.app.stats.value.errorCount
    ensures r.responseTimeMs == ResponseTimeMs(m) && r.errorRate == ErrorRatePercent(m)
    ensures r.appStatus == m.app.health.status && r.connectivity == m.app.connectivity
  {
    var stats := if m.app.stats.Some? then m.app.stats.value else AppStats(0, 0, 0.0);
    Row(CpuPercent(m), MemoryPercent(m), DiskPercent(m), LoadAvg(m),
        m.app.health.responseTime * 1000.0, m.app.health.status,
        stats.totalRequests, stats.errorCount, stats.errorRate * 100.0, m.app.connectivity)
  }
}
