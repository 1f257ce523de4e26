/**
 * backend/monitoring.py: the in-memory stores of the service's monitoring.
 * A performance monitor counts requests, errors and anomalies and keeps a
 * window of the last 1000 response times with their mean; a registry keeps
 * three boolean health checks and the time of the last update; an alert
 * manager keeps the last 1000 alerts. Log output is not modelled.
 */
module Monitoring {
  import opened Wrappers
  import opened PySeq

  /** How many response times, and how many alerts, are kept. */
  const WindowSize: nat := 1000

  /** What get_metrics returns. */
  datatype Metrics = Metrics(totalRequests: nat, totalErrors: nat, totalAnomaliesDetected: nat,
                             avgResponseTime: real, responseTimes: seq<real>, errorRate: real)

  /** `sum(times) / len(times)` as record_request stores it; 0 before the first request. */
  function AverageOf(times: seq<real>): real {
    if |times| == 0 then 0.0 else Mean(times)
  }

  class PerformanceMonitor {
    var totalRequests: nat
    var totalErrors: nat
    var totalAnomaliesDetected: nat
    var avgResponseTime: real
    var responseTimes: seq<real>
    /** Every response time recorded since the last reset, oldest first. */
    ghost var recorded: seq<real>

    ghost predicate Valid()
      reads this
    {
      && totalErrors <= totalRequests
      && |recorded| == totalRequests
      && responseTimes == TailSlice(recorded, WindowSize)
      && avgResponseTime == AverageOf(responseTimes)
    }

    constructor ()
      ensures Valid()
      ensures totalRequests == 0 && totalErrors == 0 && totalAnomaliesDetected == 0
      ensures avgResponseTime == 0.0 && responseTimes == []
    {
      totalRequests := 0;
      totalErrors := 0;
      totalAnomaliesDetected := 0;
      avgResponseTime := 0.0;
      responseTimes := [];
      recorded := [];
    }

    /**
     * record_request: one more request, one more error when it failed; the
     * time joins the window, which keeps its last 1000 entries, newest last;
     * the average is that of the window.
     */
    method RecordRequest(responseTime: real, success: bool)
      requires Valid()
      modifies this
      ensures Valid()
      ensures totalRequests == old(totalRequests) + 1
      ensures totalErrors == old(totalErrors) + (if success then 0 else 1)
      ensures totalAnomaliesDetected == old(totalAnomaliesDetected)
      ensures recorded == old(recorded) + [responseTime]
      ensures responseTimes == TailSlice(old(responseTimes) + [responseTime], WindowSize)
      ensures 0 < |responseTimes| <= WindowSize && responseTimes[|responseTimes| - 1] == responseTime
      ensures avgResponseTime == Mean(responseTimes)
    {
      totalRequests := totalRequests + 1;
      TailSliceAppend(recorded, responseTime, WindowSize);
      recorded := recorded + [responseTime];
      responseTimes := responseTimes + [responseTime];
      if !success {
        totalErrors := totalErrors + 1;
      }
      if |responseTimes| > WindowSize {
        responseTimes := responseTimes[|responseTimes| - WindowSize..];
      }
      avgResponseTime := Sum(responseTimes) / (|responseTimes| as real);
    }

    /** record_anomaly: one more anomaly; the score is only logged. */
    method RecordAnomaly(anomalyScore: real)
      requires Valid()
      modifies this
      ensures Valid()
      ensures totalAnomaliesDetected == old(totalAnomaliesDetected) + 1
      ensures totalRequests == old(totalRequests) && totalErrors == old(totalErrors)
      ensures responseTimes == old(responseTimes) && avgResponseTime == old(avgResponseTime)
      ensures recorded == old(recorded)
    {
      totalAnomaliesDetected := totalAnomaliesDetected + 1;
    }

    /** The error rate of get_metrics: a percentage of the requests, 0 before any. */
    function ErrorRate(): (rate: real)
      reads this
      requires Valid()
      ensures 0.0 <= rate <= 100.0
      ensures totalRequests == 0 ==> rate == 0.0
      ensures totalRequests > 0 ==> rate * (totalRequests as real) == (totalErrors as real) * 100.0
    {
      if totalRequests > 0 then ErrorPercentage(totalErrors, totalRequests) else 0.0
    }

    /** get_metrics: the counters and the window as they are, with the error rate. */
    function GetMetrics(): (m: Metrics)
      reads this
      requires Valid()
      ensures m.totalErrors <= m.totalRequests
      ensures 0.0 <= m.errorRate <= 100.0
      ensures |m.responseTimes| <= WindowSize
      ensures m.responseTimes == TailSlice(recorded, WindowSize)
    {
      Metrics(totalRequests, totalErrors, totalAnomaliesDetected, avgResponseTime, responseTimes, ErrorRate())
    }

    /** reset_metrics: every counter back to 0, the window emptied. */
    method ResetMetrics()
      modifies this
      ensures Valid()
      ensures totalRequests == 0 && totalErrors == 0 && totalAnomaliesDetected == 0
      ensures avgResponseTime == 0.0 && responseTimes == [] && recorded == []
    {
      totalRequests := 0;
      totalErrors := 0;
      totalAnomaliesDetected := 0;
      avgResponseTime := 0.0;
      responseTimes := [];
      recorded := [];
    }
  }

  /** `errors / total * 100` */
  function ErrorPercentage(errors: nat, total: nat): (rate: real)
    requires 0 < total && errors <= total
    ensures 0.0 <= rate <= 100.0
    ensures rate * (total as real) == (errors as real) * 100.0
  {
    var rate := (errors as real) / (total as real) * 100.0;
    assert rate <= 100.0 by {
      assert (errors as real) / (total as real) <= 1.0;
    }
    rate
  }

  /**
   * The window of a monitor holds the most recent times only: after a
   * request, it is the last min(n, 1000) of the n recorded times in order,
   * and its average lies between the smallest and largest of them.
   */
  lemma WindowIsRecentHistory(recorded: seq<real>, lo: real, hi: real)
    requires |recorded| > 0
    requires forall i :: 0 <= i < |recorded| ==> lo <= recorded[i] <= hi
    ensures |TailSlice(recorded, WindowSize)| == if |recorded| < WindowSize then |recorded| else WindowSize
    ensures forall i :: 0 <= i < |TailSlice(recorded, WindowSize)| ==>
      TailSlice(recorded, WindowSize)[i] == recorded[|recorded| - |TailSlice(recorded, WindowSize)| + i]
    ensures lo <= AverageOf(TailSlice(recorded, WindowSize)) <= hi
  {
    var w := TailSlice(recorded, WindowSize);
    TailSlicePositive(recorded, WindowSize);
    MeanBounds(w, lo, hi);
  }

  // ---------------------------------------------------------------------
  // HealthCheckRegistry

  /** The check names the registry starts with; only these can be updated. */
  const CheckNames: set<string> := {"model_loaded", "csv_accessible", "api_responding"}

  /** What get_status returns. */
  datatype HealthStatusView = HealthStatusView(checks: map<string, bool>, lastCheck: Option<int>, overall: string)

  class HealthCheckRegistry {
    /** The boolean checks; `last_check` is kept apart. */
    var checks: map<string, bool>
    /** The clock reading of the last accepted update, None before any. */
    var lastCheck: Option<int>

    ghost predicate Valid()
      reads this
    {
      checks.Keys == CheckNames
    }

    constructor ()
      ensures Valid()
      ensures checks == map["model_loaded" := false, "csv_accessible" := false, "api_responding" := true]
      ensures lastCheck == None
      ensures !IsHealthy()
    {
      checks := map["model_loaded" := false, "csv_accessible" := false, "api_responding" := true];
      lastCheck := None;
    }

    /**
     * update_check: a name the registry does not hold changes nothing; a
     * held name gets the status and stamps the time. Updating
     * "last_check" itself only stamps the time, the stamp overwriting
     * the status just stored under that name.
     */
    method UpdateCheck(checkName: string, status: bool, now: int)
      requires Valid()
      modifies this
      ensures Valid()
      ensures checkName !in CheckNames && checkName != "last_check" ==>
        checks == old(checks) && lastCheck == old(lastCheck)
      ensures checkName in CheckNames ==> checks == old(checks)[checkName := status] && lastCheck == Some(now)
      ensures checkName == "last_check" ==> checks == old(checks) && lastCheck == Some(now)
    {
      if checkName in checks || checkName == "last_check" {
        if checkName != "last_check" {
          checks := checks[checkName := status];
        }
        lastCheck := Some(now);
      }
    }

    /** is_healthy: every check other than last_check is true. */
    predicate IsHealthy()
      reads this
      requires Valid()
      ensures IsHealthy() <==> checks["model_loaded"] && checks["csv_accessible"] && checks["api_responding"]
    {
      forall k :: k in checks ==> checks[k]
    }

    function GetStatus(): (s: HealthStatusView)
      reads this
      requires Valid()
      ensures s.overall == "Healthy" <==> IsHealthy()
      ensures s.overall == "Unhealthy" <==> !IsHealthy()
      ensures s.checks == checks && s.lastCheck == lastCheck
    {
      HealthStatusView(checks, lastCheck, if IsHealthy() then "Healthy" else "Unhealthy")
    }
  }

  // ---------------------------------------------------------------------
  // AlertManager

  /** One alert; `details or {}` gives the empty map for absent details. */
  datatype Alert = Alert(timestamp: int, severity: string, message: string, details: map<string, string>)

  /** `[a for a in alerts if a['severity'] == severity]` */
  function WithSeverity(alerts: seq<Alert>, severity: string): (r: seq<Alert>)
    ensures |r| <= |alerts|
  {
    if |alerts| == 0 then []
    else
      var last := alerts[|alerts| - 1];
      WithSeverity(alerts[..|alerts| - 1], severity) + (if last.severity == severity then [last] else [])
  }

  /**
   * The filter keeps exactly the alerts of the severity: each kept alert
   * has it and is in the list, each alert that has it is kept, as many
   * times as it occurs, and no other alert is kept.
   */
  lemma {:induction false} WithSeverityMeaning(alerts: seq<Alert>, severity: string)
    ensures forall a :: a in WithSeverity(alerts, severity) <==> a in alerts && a.severity == severity
    ensures forall a ::
      multiset(WithSeverity(alerts, severity))[a] == if a.severity == severity then multiset(alerts)[a] else 0
  {
    if |alerts| > 0 {
      var init := alerts[..|alerts| - 1];
      WithSeverityMeaning(init, severity);
      assert alerts == init + [alerts[|alerts| - 1]];
    }
  }

  /**
   * The filter keeps order: filtering two lists one after the other is
   * filtering each, so alerts created later come later.
   */
  lemma {:induction false} WithSeverityConcat(xs: seq<Alert>, ys: seq<Alert>, severity: string)
    ensures WithSeverity(xs + ys, severity) == WithSeverity(xs, severity) + WithSeverity(ys, severity)
    decreases |ys|
  {
    if |ys| == 0 {
      assert xs + ys == xs;
    } else {
      var init := ys[..|ys| - 1];
      var last := ys[|ys| - 1];
      WithSeverityConcat(xs, init, severity);
      assert xs + ys == (xs + init) + [last];
      assert ys == init + [last];
      WithSeverityAppend(xs + init, last, severity);
      WithSeverityAppend(init, last, severity);
    }
  }

  lemma WithSeverityAppend(alerts: seq<Alert>, a: Alert, severity: string)
    ensures WithSeverity(alerts + [a], severity) ==
      WithSeverity(alerts, severity) + if a.severity == severity then [a] else []
  {
    assert (alerts + [a])[..|alerts|] == alerts;
  }

  class AlertManager {
    var alerts: seq<Alert>
    const maxAlerts: nat
    /** Every alert created since the last clear, oldest first. */
    ghost var created: seq<Alert>

    ghost predicate Valid()
      reads this
    {
      maxAlerts == WindowSize && alerts == TailSlice(created, maxAlerts)
    }

    constructor ()
      ensures Valid() && alerts == [] && created == []
    {
      alerts := [];
      maxAlerts := 1000;
      created := [];
    }

    /**
     * create_alert: appended, then only the last 1000 kept; the alert is
     * returned and is the newest one held.
     */
    method CreateAlert(severity: string, message: string, details: Option<map<string, string>>, now: int)
      returns (alert: Alert)
      requires Valid()
      modifies this
      ensures Valid()
      ensures alert == Alert(now, severity, message, details.GetOr(map[]))
      ensures created == old(created) + [alert]
      ensures alerts == TailSlice(old(alerts) + [alert], maxAlerts)
      ensures 0 < |alerts| <= maxAlerts && alerts[|alerts| - 1] == alert
    {
      var d := if details.Some? then details.value else map[];
      alert := Alert(now, severity, message, d);
      TailSliceAppend(created, alert, maxAlerts);
      created := created + [alert];
      alerts := alerts + [alert];
      if |alerts| > maxAlerts {
        alerts := alerts[|alerts| - maxAlerts..];
      }
    }

    /** The alerts get_alerts slices: those of the severity when a non-empty one is given, else all. */
    function SelectedAlerts(severity: Option<string>): (sel: seq<Alert>)
      reads this
      ensures forall a :: a in sel <==> a in alerts && (severity.None? || severity.value == "" || a.severity == severity.value)
    {
      WithSeverityMeaning(alerts, if severity.Some? then severity.value else "");
      if severity.Some? && severity.value != "" then WithSeverity(alerts, severity.value) else alerts
    }

    /**
     * get_alerts: filtered by severity when a non-empty one is given, then
     * `[-limit:]`. With a positive limit the answer is the newest at most
     * `limit` alerts selected, in the order they were created.
     */
    function GetAlerts(severity: Option<string>, limit: int): (r: seq<Alert>)
      reads this
      ensures r == TailSlice(SelectedAlerts(severity), limit)
      ensures limit > 0 ==>
        |r| == (if limit < |SelectedAlerts(severity)| then limit else |SelectedAlerts(severity)|)
        && r == SelectedAlerts(severity)[|SelectedAlerts(severity)| - |r|..]
      ensures limit > 0 ==> |r| <= limit
      ensures |r| <= |alerts| && forall a :: a in r ==> a in alerts
      ensures severity.Some? && severity.value != "" ==> forall a :: a in r ==> a.severity == severity.value
      ensures severity.Some? && severity.value != "" && limit > 0 && |WithSeverity(alerts, severity.value)| <= limit ==>
        r == WithSeverity(alerts, severity.value)
      ensures (severity.None? || severity.value == "") && limit > 0 ==> r == alerts[|alerts| - |r|..]
      ensures (severity.None? || severity.value == "") && limit == 0 ==> r == alerts
    {
      var selected := SelectedAlerts(severity);
      if limit > 0 then
        TailSlicePositive(selected, limit);
        TailSlice(selected, limit)
      else
        TailSlice(selected, limit)
    }

    method ClearAlerts()
      requires Valid()
      modifies this
      ensures Valid()
      ensures alerts == [] && created == []
    {
      alerts := [];
      created := [];
    }
  }
}
