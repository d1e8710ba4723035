/**
 * The ReliaKit health monitor. A `HealthChecker` runs a status machine
 * (HEALTHY, FAILING, OFFLINE, RECOVERING) over the outcomes of its probes,
 * counting consecutive failures and successes and keeping a bounded history.
 * The `ReliakitSelfHealingManager` owns one checker per target and turns the
 * checkers' callbacks into a bounded event log and a bounded recovery log.
 *
 * A probe's HTTP request is an outcome passed in; the clock is `now`.
 * Callbacks are modelled as a trace of notifications that the checker
 * appends to, which the manager then handles in the order they fired.
 */
module ReliakitIntegration {
  import opened Common
  import opened Strings
  import opened Dicts

  datatype HealthStatus = Healthy | Degraded | Failing | Offline | Recovering
  {
    function Value(): string
    {
      match this
      case Healthy => "healthy"
      case Degraded => "degraded"
      case Failing => "failing"
      case Offline => "offline"
      case Recovering => "recovering"
    }
  }

  /** What the GET of `<target_url><health_endpoint>` came back with. */
  datatype ProbeOutcome =
    | Responded(statusCode: int, latencyMs: real)
    /** A 200 reply with a body that is not JSON: decoding it raises `message` after the success handling ran. */
    | RespondedUndecodable(message: string, latencyMs: real)
    | TimedOut
    | Raised(message: string, latencyMs: real)

  datatype HealthCheckResult = HealthCheckResult(
    timestamp: int, healthy: bool, status: HealthStatus, latencyMs: real, error: Option<string>)

  /** One callback firing: a status change, a failure, or a recovery. */
  datatype Notification =
    | StatusChanged(from: HealthStatus, to: HealthStatus)
    | FailureAlert(error: string)
    | RecoveryAlert

  /** The checker's status and its two streak counters. */
  datatype Counters = Counters(status: HealthStatus, failures: int, successes: int)

  /** The counters after one outcome, and the callbacks fired on the way. */
  datatype Transition = Transition(next: Counters, notices: seq<Notification>)

  const MaxHistory := 100
  const MaxEvents := 500
  const MaxRecoveries := 100

  /** `log.append(x)` followed by one `log.pop(0)` when the log outgrew `cap`. */
  function PushBounded<T>(log: seq<T>, x: T, cap: int): seq<T>
  {
    var grown := log + [x];
    if |grown| > cap then grown[1..] else grown
  }

  /** A bounded log stays within its cap, ends with the new entry and drops only the oldest. */
  lemma PushBoundedSpec<T>(log: seq<T>, x: T, cap: int)
    requires 1 <= cap && |log| <= cap
    ensures var r := PushBounded(log, x, cap);
      && |r| == Min(|log| + 1, cap)
      && r[|r| - 1] == x
      && (forall i :: 0 <= i < |r| - 1 ==> r[i] == log[|log| - |r| + 1 + i])
  {
  }

  // ---------------------------------------------------------------------------
  // The status machine

  /** A 200 response: the success streak grows; a failing or offline target recovers. */
  function OnSuccess(c: Counters, recoveryThreshold: int): Transition
  {
    var successes := c.successes + 1;
    var counted := c.(failures := 0, successes := successes);
    if c.status == Failing || c.status == Offline then
      if successes >= recoveryThreshold then
        Transition(counted.(status := Healthy), [StatusChanged(c.status, Healthy), RecoveryAlert])
      else
        Transition(counted.(status := Recovering), [StatusChanged(c.status, Recovering)])
    else Transition(counted, [])
  }

  /** `_handle_failure`: the failure streak grows and may take the target offline. */
  function OnFailure(c: Counters, failureThreshold: int, error: string): Transition
  {
    var failures := c.failures + 1;
    var counted := c.(failures := failures, successes := 0);
    if failures >= failureThreshold then
      if c.status != Offline then
        Transition(counted.(status := Offline), [StatusChanged(c.status, Offline), FailureAlert(error)])
      else Transition(counted, [])
    else if failures >= 2 then
      Transition(counted.(status := Failing), [StatusChanged(c.status, Failing)])
    else Transition(counted, [])
  }

  /** The error a probe reports; `None` for a 200 response. */
  function ProbeError(outcome: ProbeOutcome): (r: Option<string>)
    ensures r.None? <==> outcome.Responded? && outcome.statusCode == 200
  {
    match outcome
    case Responded(code, _) => if code == 200 then None else Some("HTTP " + IntToString(code))
    case RespondedUndecodable(message, _) => Some(message)
    case TimedOut => Some("Timeout")
    case Raised(message, _) => Some(message)
  }

  /** The latency recorded for a probe; a timeout counts the whole timeout. */
  function ProbeLatency(outcome: ProbeOutcome, timeout: int): real
  {
    match outcome
    case Responded(_, latency) => latency
    case RespondedUndecodable(_, latency) => latency
    case TimedOut => (timeout * 1000) as real
    case Raised(_, latency) => latency
  }

  /**
   * One probe outcome applied to the counters. An undecodable 200 reply runs
   * the success handling and then, from the `except` clause, the failure
   * handling.
   */
  function Step(c: Counters, outcome: ProbeOutcome, failureThreshold: int, recoveryThreshold: int): Transition
  {
    if outcome.RespondedUndecodable? then
      var first := OnSuccess(c, recoveryThreshold);
      var second := OnFailure(first.next, failureThreshold, outcome.message);
      Transition(second.next, first.notices + second.notices)
    else
      var error := ProbeError(outcome);
      if error.None? then OnSuccess(c, recoveryThreshold) else OnFailure(c, failureThreshold, error.value)
  }

  /** The record `check` returns and stores. */
  function CheckResult(outcome: ProbeOutcome, status: HealthStatus, timeout: int, now: int): HealthCheckResult
  {
    HealthCheckResult(now, ProbeError(outcome).None?, status, ProbeLatency(outcome, timeout), ProbeError(outcome))
  }

  /**
   * What every reachable state satisfies: at most one streak is running,
   * DEGRADED is never entered, the target is OFFLINE exactly from
   * `failure_threshold` consecutive failures on (for a threshold of at least
   * one), and two or more failures below the threshold mean FAILING.
   */
  predicate CountersOk(c: Counters, failureThreshold: int)
  {
    && c.failures >= 0 && c.successes >= 0
    && (c.failures == 0 || c.successes == 0)
    && c.status != Degraded
    && (failureThreshold >= 1 ==> (c.status == Offline <==> c.failures >= failureThreshold))
    && (2 <= c.failures < failureThreshold ==> c.status == Failing)
  }

  lemma StepKeepsCountersOk(c: Counters, outcome: ProbeOutcome, failureThreshold: int, recoveryThreshold: int)
    requires CountersOk(c, failureThreshold)
    ensures CountersOk(Step(c, outcome, failureThreshold, recoveryThreshold).next, failureThreshold)
  {
  }

  /**
   * A success from FAILING or OFFLINE recovers the target (HEALTHY with the
   * recovery callback) once the streak reaches the recovery threshold, and
   * is RECOVERING before that; from any other status it changes nothing
   * but the counters and fires nothing.
   */
  lemma SuccessRules(c: Counters, recoveryThreshold: int)
    ensures var t := OnSuccess(c, recoveryThreshold);
      && t.next.failures == 0 && t.next.successes == c.successes + 1
      && (c.status == Failing || c.status == Offline ==>
            t.next.status == (if c.successes + 1 >= recoveryThreshold then Healthy else Recovering))
      && (c.status != Failing && c.status != Offline ==> t.next.status == c.status && t.notices == [])
      && (RecoveryAlert in t.notices <==> t.next.status == Healthy && c.status != Healthy)
  {
  }

  /**
   * A failure reaching the threshold takes the target OFFLINE, firing the
   * failure callback only when it was not offline already; from two failures
   * below the threshold it is FAILING; a first failure below the threshold
   * leaves the status as it was.
   */
  lemma FailureRules(c: Counters, failureThreshold: int, error: string)
    ensures var t := OnFailure(c, failureThreshold, error);
      var failures := c.failures + 1;
      && t.next.failures == failures && t.next.successes == 0
      && (failures >= failureThreshold ==> t.next.status == Offline)
      && (2 <= failures < failureThreshold ==> t.next.status == Failing)
      && (failures < 2 && failures < failureThreshold ==> t.next.status == c.status && t.notices == [])
      && (FailureAlert(error) in t.notices <==> failures >= failureThreshold && c.status != Offline)
      && (forall n :: n in t.notices && n.FailureAlert? ==> n == FailureAlert(error))
  {
  }

  /**
   * A 200 reply whose body fails to decode counts a success and then a
   * failure: the check is unhealthy with the decoding error, the streaks
   * end at one failure, a recovery still fires when the success completes
   * one, and the target goes OFFLINE, firing the failure callback, exactly
   * when a single failure meets the threshold.
   */
  lemma UndecodableRules(c: Counters, message: string, latency: real, failureThreshold: int, recoveryThreshold: int,
                         timeout: int, now: int)
    ensures var outcome := RespondedUndecodable(message, latency);
      var first := OnSuccess(c, recoveryThreshold);
      var t := Step(c, outcome, failureThreshold, recoveryThreshold);
      var r := CheckResult(outcome, t.next.status, timeout, now);
      && t.next.failures == 1 && t.next.successes == 0
      && t.next.status == (if failureThreshold <= 1 then Offline else first.next.status)
      && (RecoveryAlert in t.notices <==> first.next.status == Healthy && c.status != Healthy)
      && (FailureAlert(message) in t.notices <==> failureThreshold <= 1)
      && !r.healthy && r.error == Some(message) && r.latencyMs == latency && r.status == t.next.status
  {
    SuccessRules(c, recoveryThreshold);
    FailureRules(OnSuccess(c, recoveryThreshold).next, failureThreshold, message);
  }

  /** The counters and callbacks after a run of consecutive failures. */
  function FailureRun(c: Counters, failureThreshold: int, errors: seq<string>): Transition
    decreases |errors|
  {
    if errors == [] then Transition(c, [])
    else
      var first := OnFailure(c, failureThreshold, errors[0]);
      var rest := FailureRun(first.next, failureThreshold, errors[1..]);
      Transition(rest.next, first.notices + rest.notices)
  }

  /** The counters and callbacks after `n` consecutive successes. */
  function SuccessRun(c: Counters, recoveryThreshold: int, n: nat): Transition
    decreases n
  {
    if n == 0 then Transition(c, [])
    else
      var first := OnSuccess(c, recoveryThreshold);
      var rest := SuccessRun(first.next, recoveryThreshold, n - 1);
      Transition(rest.next, first.notices + rest.notices)
  }

  function FailureAlerts(ns: seq<Notification>): nat
  {
    if ns == [] then 0 else (if ns[0].FailureAlert? then 1 else 0) + FailureAlerts(ns[1..])
  }

  lemma {:induction false} FailureAlertsConcat(a: seq<Notification>, b: seq<Notification>)
    ensures FailureAlerts(a + b) == FailureAlerts(a) + FailureAlerts(b)
  {
    if a != [] {
      assert (a + b)[1..] == a[1..] + b;
      FailureAlertsConcat(a[1..], b);
    } else {
      assert a + b == b;
    }
  }

  /** Failures while OFFLINE at or over the threshold fire nothing at all. */
  lemma {:induction false} OfflineFailuresAreSilent(c: Counters, failureThreshold: int, errors: seq<string>)
    requires c.status == Offline && c.failures >= failureThreshold
    ensures FailureRun(c, failureThreshold, errors).notices == []
    ensures FailureRun(c, failureThreshold, errors).next.status == Offline
    ensures FailureRun(c, failureThreshold, errors).next.failures == c.failures + |errors|
    decreases |errors|
  {
    if errors != [] {
      OfflineFailuresAreSilent(OnFailure(c, failureThreshold, errors[0]).next, failureThreshold, errors[1..]);
    }
  }

  /**
   * Over any run of consecutive failures the failure callback fires at most
   * once: exactly when the run takes a target that was not offline to the
   * threshold. The run ends OFFLINE exactly when it reaches the threshold.
   */
  lemma {:induction false} FailureRunAlerts(c: Counters, failureThreshold: int, errors: seq<string>)
    requires CountersOk(c, failureThreshold) && failureThreshold >= 1
    ensures var t := FailureRun(c, failureThreshold, errors);
      && t.next.failures == c.failures + |errors|
      && (t.next.status == Offline <==> c.failures + |errors| >= failureThreshold)
      && FailureAlerts(t.notices) == if c.status != Offline && c.failures + |errors| >= failureThreshold then 1 else 0
    decreases |errors|
  {
    if errors != [] {
      var first := OnFailure(c, failureThreshold, errors[0]);
      var rest := FailureRun(first.next, failureThreshold, errors[1..]);
      FailureAlertsConcat(first.notices, rest.notices);
      if c.failures + 1 >= failureThreshold {
        OfflineFailuresAreSilent(first.next, failureThreshold, errors[1..]);
        assert FailureAlerts(first.notices) == if c.status != Offline then 1 else 0;
      } else {
        FailureRunAlerts(first.next, failureThreshold, errors[1..]);
        assert FailureAlerts(first.notices) == 0;
      }
    }
  }

  /**
   * Successes never lead out of RECOVERING: the promotion to HEALTHY is only
   * checked from FAILING and OFFLINE, so a target that entered RECOVERING
   * stays there however many successes follow.
   */
  lemma {:induction false} RecoveringIsSticky(c: Counters, recoveryThreshold: int, n: nat)
    requires c.status == Recovering
    ensures SuccessRun(c, recoveryThreshold, n).next.status == Recovering
    ensures SuccessRun(c, recoveryThreshold, n).notices == []
    decreases n
  {
    if n > 0 {
      RecoveringIsSticky(OnSuccess(c, recoveryThreshold).next, recoveryThreshold, n - 1);
    }
  }

  /**
   * From an outage, any number of successes ends HEALTHY only when a single
   * success meets the recovery threshold; otherwise it ends RECOVERING.
   */
  lemma SuccessRunFromOutage(c: Counters, recoveryThreshold: int, n: nat)
    requires (c.status == Failing || c.status == Offline) && c.successes == 0 && n >= 1
    ensures SuccessRun(c, recoveryThreshold, n).next.status == if recoveryThreshold <= 1 then Healthy else Recovering
  {
    var first := OnSuccess(c, recoveryThreshold);
    if recoveryThreshold <= 1 {
      HealthyIsStable(first.next, recoveryThreshold, n - 1);
    } else {
      RecoveringIsSticky(first.next, recoveryThreshold, n - 1);
    }
  }

  lemma {:induction false} HealthyIsStable(c: Counters, recoveryThreshold: int, n: nat)
    requires c.status == Healthy
    ensures SuccessRun(c, recoveryThreshold, n).next.status == Healthy
    decreases n
  {
    if n > 0 {
      HealthyIsStable(OnSuccess(c, recoveryThreshold).next, recoveryThreshold, n - 1);
    }
  }

  // ---------------------------------------------------------------------------
  // Statistics

  function HealthyCount(rs: seq<HealthCheckResult>): (n: nat)
    ensures n <= |rs|
  {
    if rs == [] then 0 else (if rs[0].healthy then 1 else 0) + HealthyCount(rs[1..])
  }

  function LatencySum(rs: seq<HealthCheckResult>): real
  {
    if rs == [] then 0.0 else rs[0].latencyMs + LatencySum(rs[1..])
  }

  lemma {:induction false} HealthyCountAll(rs: seq<HealthCheckResult>)
    ensures HealthyCount(rs) == |rs| <==> forall i :: 0 <= i < |rs| ==> rs[i].healthy
    ensures HealthyCount(rs) == 0 <==> forall i :: 0 <= i < |rs| ==> !rs[i].healthy
  {
    if rs != [] {
      HealthyCountAll(rs[1..]);
      assert forall i :: 1 <= i < |rs| ==> rs[i] == rs[1..][i - 1];
    }
  }

  /** The share of healthy results in a non-empty window. */
  function SuccessRate(rs: seq<HealthCheckResult>): real
    requires rs != []
  {
    HealthyCount(rs) as real / |rs| as real
  }

  lemma SuccessRateSpec(rs: seq<HealthCheckResult>)
    requires rs != []
    ensures 0.0 <= SuccessRate(rs) <= 1.0
    ensures SuccessRate(rs) == 1.0 <==> forall i :: 0 <= i < |rs| ==> rs[i].healthy
    ensures SuccessRate(rs) == 0.0 <==> forall i :: 0 <= i < |rs| ==> !rs[i].healthy
  {
    HealthyCountAll(rs);
    RatioBounds(HealthyCount(rs) as real, |rs| as real);
  }

  datatype Stats =
    | NoChecks(target: string, status: string)
    | Summary(target: string, status: string, consecutiveFailures: int, consecutiveSuccesses: int,
              checks: int, recentSuccessRate: real, avgLatencyMs: real, lastCheck: Option<int>)

  // ---------------------------------------------------------------------------
  // The health checker

  class HealthChecker {
    const targetName: string
    const targetUrl: string
    const healthEndpoint: string
    const checkInterval: int
    const timeout: int
    const failureThreshold: int
    const recoveryThreshold: int
    const maxHistory: int
    var currentStatus: HealthStatus
    var consecutiveFailures: int
    var consecutiveSuccesses: int
    var lastCheckTime: Option<int>
    var history: seq<HealthCheckResult>
    /** Every callback fired so far, in order. */
    var notifications: seq<Notification>

    function State(): Counters
      reads this
    {
      Counters(currentStatus, consecutiveFailures, consecutiveSuccesses)
    }

    predicate Valid()
      reads this
    {
      CountersOk(State(), failureThreshold) && maxHistory == MaxHistory && |history| <= maxHistory
    }

    constructor (name: string, url: string, endpoint: string, interval: int, timeoutSeconds: int,
                 failures: int, recoveries: int)
      ensures Valid()
      ensures targetName == name && targetUrl == url && healthEndpoint == endpoint
      ensures checkInterval == interval && timeout == timeoutSeconds
      ensures failureThreshold == failures && recoveryThreshold == recoveries
      ensures State() == Counters(Healthy, 0, 0) && lastCheckTime == None
      ensures history == [] && notifications == []
    {
      targetName := name;
      targetUrl := url;
      healthEndpoint := endpoint;
      checkInterval := interval;
      timeout := timeoutSeconds;
      failureThreshold := failures;
      recoveryThreshold := recoveries;
      maxHistory := MaxHistory;
      currentStatus := Healthy;
      consecutiveFailures := 0;
      consecutiveSuccesses := 0;
      lastCheckTime := None;
      history := [];
      notifications := [];
    }

    /** `_transition_to`: the status-change callbacks fire even when the status stays the same. */
    method TransitionTo(newStatus: HealthStatus)
      modifies this
      ensures currentStatus == newStatus
      ensures notifications == old(notifications) + [StatusChanged(old(currentStatus), newStatus)]
      ensures consecutiveFailures == old(consecutiveFailures) && consecutiveSuccesses == old(consecutiveSuccesses)
      ensures history == old(history) && lastCheckTime == old(lastCheckTime)
    {
      var oldStatus := currentStatus;
      currentStatus := newStatus;
      notifications := notifications + [StatusChanged(oldStatus, newStatus)];
    }

    /** `_handle_failure`. */
    method HandleFailure(error: string)
      requires Valid()
      modifies this
      ensures Valid()
      ensures var t := OnFailure(old(State()), failureThreshold, error);
        State() == t.next && notifications == old(notifications) + t.notices
      ensures history == old(history) && lastCheckTime == old(lastCheckTime)
    {
      consecutiveSuccesses := 0;
      consecutiveFailures := consecutiveFailures + 1;
      if consecutiveFailures >= failureThreshold {
        if currentStatus != Offline {
          TransitionTo(Offline);
          notifications := notifications + [FailureAlert(error)];
        }
      } else if consecutiveFailures >= 2 {
        TransitionTo(Failing);
      }
    }

    /** The success branch of `check`. */
    method HandleSuccess()
      requires Valid()
      modifies this
      ensures Valid()
      ensures var t := OnSuccess(old(State()), recoveryThreshold);
        State() == t.next && notifications == old(notifications) + t.notices
      ensures history == old(history) && lastCheckTime == old(lastCheckTime)
    {
      consecutiveFailures := 0;
      consecutiveSuccesses := consecutiveSuccesses + 1;
      if currentStatus == Failing || currentStatus == Offline {
        if consecutiveSuccesses >= recoveryThreshold {
          TransitionTo(Healthy);
          notifications := notifications + [RecoveryAlert];
        } else {
          TransitionTo(Recovering);
        }
      }
    }

    /** `check`, with the probe's outcome passed in. */
    method Check(outcome: ProbeOutcome, now: int) returns (result: HealthCheckResult)
      requires Valid()
      modifies this
      ensures Valid()
      ensures var t := Step(old(State()), outcome, failureThreshold, recoveryThreshold);
        && State() == t.next && notifications == old(notifications) + t.notices
        && result == CheckResult(outcome, t.next.status, timeout, now)
      ensures lastCheckTime == Some(now) && history == PushBounded(old(history), result, maxHistory)
    {
      match outcome {
      case Responded(code, latency) =>
        if code == 200 {
          HandleSuccess();
          result := HealthCheckResult(now, true, currentStatus, latency, None);
        } else {
          HandleFailure("HTTP " + IntToString(code));
          result := HealthCheckResult(now, false, currentStatus, latency, Some("HTTP " + IntToString(code)));
        }
      case RespondedUndecodable(message, latency) =>
        HandleSuccess();
        HandleFailure(message);
        result := HealthCheckResult(now, false, currentStatus, latency, Some(message));
      case TimedOut =>
        HandleFailure("Timeout");
        result := HealthCheckResult(now, false, currentStatus, (timeout * 1000) as real, Some("Timeout"));
      case Raised(message, latency) =>
        HandleFailure(message);
        result := HealthCheckResult(now, false, currentStatus, latency, Some(message));
      }
      lastCheckTime := Some(now);
      history := history + [result];
      if |history| > maxHistory {
        history := history[1..];
      }
    }

    /** `get_stats`: the counters, and the success rate and mean latency of the last 20 checks. */
    function GetStats(): Stats
      reads this
    {
      if history == [] then NoChecks(targetName, currentStatus.Value())
      else
        var recent := SliceFrom(history, -20);
        Summary(targetName, currentStatus.Value(), consecutiveFailures, consecutiveSuccesses, |history|,
                SuccessRate(recent), LatencySum(recent) / |recent| as real,
                lastCheckTime)
    }

    /**
     * The statistics cover the whole history's length and a window of its
     * last `min(20, checks)` results, whose success rate is a fraction that
     * is 1 exactly when every check in the window was healthy and 0 exactly
     * when none was.
     */
    lemma GetStatsSpec()
      ensures GetStats().NoChecks? <==> history == []
      ensures GetStats().Summary? ==>
        var from := |history| - Min(20, |history|);
        var rate := GetStats().recentSuccessRate;
        && GetStats().checks == |history|
        && GetStats().consecutiveFailures == consecutiveFailures
        && GetStats().consecutiveSuccesses == consecutiveSuccesses
        && 0.0 <= rate <= 1.0
        && (rate == 1.0 <==> forall i :: from <= i < |history| ==> history[i].healthy)
        && (rate == 0.0 <==> forall i :: from <= i < |history| ==> !history[i].healthy)
    {
      if history != [] {
        SliceFromLast(history, 20);
        var from := |history| - Min(20, |history|);
        var recent := history[from..];
        assert SliceFrom(history, -20) == recent;
        assert GetStats().recentSuccessRate == SuccessRate(recent);
        SuccessRateSpec(recent);
        assert forall i :: from <= i < |history| ==> history[i] == recent[i - from];
      }
    }
  }

  // ---------------------------------------------------------------------------
  // The manager's logs

  datatype Datum = Text(text: string) | Time(at: int)

  datatype Event = Event(timestamp: int, eventType: string, data: map<string, Datum>)

  datatype RecoveryAction = RecoveryAction(
    actionType: string, target: string, params: map<string, string>, timestamp: int, success: bool,
    error: Option<string>)

  datatype Logs = Logs(events: seq<Event>, recoveries: seq<RecoveryAction>)

  predicate LogsOk(logs: Logs)
  {
    |logs.events| <= MaxEvents && |logs.recoveries| <= MaxRecoveries
  }

  /** `_log_event`. */
  function LogEvent(logs: Logs, eventType: string, data: map<string, Datum>, now: int): Logs
  {
    logs.(events := PushBounded(logs.events, Event(now, eventType, data), MaxEvents))
  }

  predicate IsExoTarget(target: string)
  {
    Contains(Lower(target), "exo")
  }

  /** The action `_recover_exo_node` or `_recover_cloud_provider` records. */
  function RecoveryFor(target: string, now: int): RecoveryAction
  {
    if IsExoTarget(target) then RecoveryAction("failover", target, map["reason" := "node_offline"], now, true, None)
    else RecoveryAction("reset", target, map["reason" := "provider_failure"], now, true, None)
  }

  /** `_attempt_recovery`: log the strategy's event, then record its action. */
  function AttemptRecovery(logs: Logs, target: string, now: int): Logs
  {
    var logged :=
      if IsExoTarget(target) then
        LogEvent(logs, "exo_failover",
                 map["node" := Text(target), "action" := Text("failover_to_cloud"), "timestamp" := Time(now)], now)
      else
        LogEvent(logs, "cloud_provider_failure", map["provider" := Text(target), "timestamp" := Time(now)], now);
    logged.(recoveries := PushBounded(logged.recoveries, RecoveryFor(target, now), MaxRecoveries))
  }

  /** The manager's callback for one notification of `target`'s checker. */
  function OnNotification(logs: Logs, target: string, n: Notification, autoRecovery: bool, now: int): Logs
  {
    match n
    case StatusChanged(from, to) =>
      LogEvent(logs, "status_change",
               map["target" := Text(target), "old_status" := Text(from.Value()), "new_status" := Text(to.Value()),
                   "timestamp" := Time(now)], now)
    case FailureAlert(error) =>
      var logged := LogEvent(logs, "target_failure",
                             map["target" := Text(target), "error" := Text(error), "timestamp" := Time(now)], now);
      if autoRecovery then AttemptRecovery(logged, target, now) else logged
    case RecoveryAlert =>
      LogEvent(logs, "target_recovery", map["target" := Text(target), "timestamp" := Time(now)], now)
  }

  function OnNotifications(logs: Logs, target: string, ns: seq<Notification>, autoRecovery: bool, now: int): Logs
  {
    if ns == [] then logs
    else OnNotification(OnNotifications(logs, target, ns[..|ns| - 1], autoRecovery, now), target, ns[|ns| - 1],
                        autoRecovery, now)
  }

  lemma {:induction false} OnNotificationsKeepLogsOk(logs: Logs, target: string, ns: seq<Notification>,
                                                    autoRecovery: bool, now: int)
    requires LogsOk(logs)
    ensures LogsOk(OnNotifications(logs, target, ns, autoRecovery, now))
  {
    if ns != [] {
      OnNotificationsKeepLogsOk(logs, target, ns[..|ns| - 1], autoRecovery, now);
    }
  }

  /**
   * A recovery is attempted for a failure alert only, and only with auto
   * recovery on; its action is a failover exactly for targets whose name
   * contains "exo" in any case, and a reset otherwise.
   */
  lemma RecoveryRule(logs: Logs, target: string, n: Notification, autoRecovery: bool, now: int)
    ensures var r := OnNotification(logs, target, n, autoRecovery, now);
      && (n.FailureAlert? && autoRecovery ==>
            r.recoveries == PushBounded(logs.recoveries, RecoveryFor(target, now), MaxRecoveries))
      && (!n.FailureAlert? || !autoRecovery ==> r.recoveries == logs.recoveries)
    ensures RecoveryFor(target, now).actionType == "failover" <==> Contains(Lower(target), "exo")
    ensures RecoveryFor(target, now).actionType == "reset" <==> !Contains(Lower(target), "exo")
  {
  }

  /**
   * Through the checker and the manager's callbacks together: a probe adds a
   * recovery action exactly when it takes a target that was not offline to
   * its failure threshold and auto recovery is on.
   */
  lemma RecoveryOnlyOnEnteringOffline(logs: Logs, target: string, c: Counters, outcome: ProbeOutcome,
                                      failureThreshold: int, recoveryThreshold: int, autoRecovery: bool, now: int)
    ensures var t := Step(c, outcome, failureThreshold, recoveryThreshold);
      var base := if outcome.RespondedUndecodable? then OnSuccess(c, recoveryThreshold).next else c;
      var entering := ProbeError(outcome).Some? && base.failures + 1 >= failureThreshold && base.status != Offline;
      OnNotifications(logs, target, t.notices, autoRecovery, now).recoveries ==
        if entering && autoRecovery then PushBounded(logs.recoveries, RecoveryFor(target, now), MaxRecoveries)
        else logs.recoveries
  {
    var ns := Step(c, outcome, failureThreshold, recoveryThreshold).notices;
    StepNotices(c, outcome, failureThreshold, recoveryThreshold);
    if ns != [] && ns[|ns| - 1].FailureAlert? {
      var k := |ns| - 1;
      QuietNotices(logs, target, ns[..k], autoRecovery, now);
      var mid := OnNotifications(logs, target, ns[..k], autoRecovery, now);
      assert OnNotifications(logs, target, ns, autoRecovery, now) == OnNotification(mid, target, ns[k], autoRecovery, now);
    } else {
      QuietNotices(logs, target, ns, autoRecovery, now);
    }
  }

  /** Callbacks without a failure alert among them attempt no recovery. */
  lemma {:induction false} QuietNotices(logs: Logs, target: string, ns: seq<Notification>, autoRecovery: bool, now: int)
    requires forall k :: 0 <= k < |ns| ==> !ns[k].FailureAlert?
    ensures OnNotifications(logs, target, ns, autoRecovery, now).recoveries == logs.recoveries
  {
    if ns != [] {
      var init := ns[..|ns| - 1];
      assert forall k :: 0 <= k < |init| ==> init[k] == ns[k];
      QuietNotices(logs, target, init, autoRecovery, now);
    }
  }

  /**
   * One probe fires at most one failure alert, as its last notice, and does
   * so exactly when its failure handling takes a target that was not
   * offline to the threshold.
   */
  lemma StepNotices(c: Counters, outcome: ProbeOutcome, failureThreshold: int, recoveryThreshold: int)
    ensures var ns := Step(c, outcome, failureThreshold, recoveryThreshold).notices;
      var base := if outcome.RespondedUndecodable? then OnSuccess(c, recoveryThreshold).next else c;
      && (forall k :: 0 <= k < |ns| - 1 ==> !ns[k].FailureAlert?)
      && (ns != [] && ns[|ns| - 1].FailureAlert? <==>
            ProbeError(outcome).Some? && base.failures + 1 >= failureThreshold && base.status != Offline)
  {
    if outcome.RespondedUndecodable? {
      var first := OnSuccess(c, recoveryThreshold);
      var second := OnFailure(first.next, failureThreshold, outcome.message);
      assert forall k :: 0 <= k < |first.notices| ==> !first.notices[k].FailureAlert?;
      assert forall k :: 0 <= k < |second.notices| - 1 ==> !second.notices[k].FailureAlert?;
      var ns := first.notices + second.notices;
      forall k | 0 <= k < |ns| - 1
        ensures !ns[k].FailureAlert?
      {
        if k >= |first.notices| {
          assert ns[k] == second.notices[k - |first.notices|];
        }
      }
    }
  }

  // ---------------------------------------------------------------------------
  // The manager

  /**
   * Filing a new valid checker under its own name, replacing a checker of
   * that name or adding it last, keeps the names distinct, the other entries
   * in place and the checkers well organised.
   */
  lemma PutChecker(before: Dict<string, HealthChecker>, repr: set<HealthChecker>, name: string, checker: HealthChecker)
    requires CheckersOk(before, repr) && checker !in repr && checker.Valid() && checker.targetName == name
    ensures CheckersOk(Put(before, name, checker), repr + {checker})
  {
    PutOrigin(before, name, checker);
    PutWellFormed(before, name, checker);
    PutDistinctValues(before, name, checker);
    CheckersOkFrom(before, Put(before, name, checker), repr, name, checker);
  }

  lemma CheckersOkFrom(before: Dict<string, HealthChecker>, after: Dict<string, HealthChecker>,
                       repr: set<HealthChecker>, name: string, checker: HealthChecker)
    requires CheckersOk(before, repr) && checker.Valid() && checker.targetName == name
    requires WellFormed(after)
    requires forall i :: 0 <= i < |after| ==> after[i] == (name, checker) || (i < |before| && after[i] == before[i])
    requires forall i, j :: 0 <= i < j < |after| ==> after[i].1 != after[j].1
    ensures CheckersOk(after, repr + {checker})
  {
  }

  /** A new value filed in a dictionary of distinct values keeps the values distinct. */
  lemma PutDistinctValues<V>(d: Dict<string, V>, k: string, v: V)
    requires WellFormed(d)
    requires forall i :: 0 <= i < |d| ==> d[i].1 != v
    requires forall i, j :: 0 <= i < j < |d| ==> d[i].1 != d[j].1
    ensures forall i, j :: 0 <= i < j < |Put(d, k, v)| ==> Put(d, k, v)[i].1 != Put(d, k, v)[j].1
  {
    var after := Put(d, k, v);
    PutOrigin(d, k, v);
    PutWellFormed(d, k, v);
    forall i, j | 0 <= i < j < |after|
      ensures after[i].1 != after[j].1
    {
      if after[i].1 == v {
        assert after[i].0 == k && after[j].0 != k;
      } else if after[j].1 == v {
        assert after[j].0 == k && after[i].0 != k;
      }
    }
  }

  /** Distinct names, each with its own valid checker from `repr`, named after it. */
  ghost predicate CheckersOk(cs: Dict<string, HealthChecker>, repr: set<HealthChecker>)
    reads repr
  {
    && WellFormed(cs)
    && (forall i :: 0 <= i < |cs| ==> cs[i].1 in repr && cs[i].1.Valid())
    && (forall i :: 0 <= i < |cs| ==> cs[i].1.targetName == cs[i].0)
    && (forall i, j :: 0 <= i < j < |cs| ==> cs[i].1 != cs[j].1)
  }

  datatype ForceResult = Single(result: HealthCheckResult) | Every(results: Dict<string, HealthCheckResult>)

  /** The notices each checker of `cs` fires when checked with the outcome `probe` gives its name. */
  ghost function Fired(cs: Dict<string, HealthChecker>, probe: string -> ProbeOutcome): (r: seq<seq<Notification>>)
    reads set i | 0 <= i < |cs| :: cs[i].1
    ensures |r| == |cs|
    ensures forall j :: 0 <= j < |cs| ==>
      r[j] == Step(cs[j].1.State(), probe(cs[j].0), cs[j].1.failureThreshold, cs[j].1.recoveryThreshold).notices
    decreases |cs|
  {
    if cs == [] then []
    else
      var k := |cs| - 1;
      assert forall i :: 0 <= i < k ==> cs[..k][i] == cs[i];
      Fired(cs[..k], probe) + [Step(cs[k].1.State(), probe(cs[k].0), cs[k].1.failureThreshold, cs[k].1.recoveryThreshold).notices]
  }

  /**
   * A checker with thresholds `failureThreshold` and `recoveryThreshold`
   * went from `before` and `history` to `after` and `history'` by one check
   * with `outcome`, recording `result` as its newest check.
   */
  predicate CheckedFrom(before: Counters, history: seq<HealthCheckResult>, after: Counters,
                        history': seq<HealthCheckResult>, failureThreshold: int, recoveryThreshold: int,
                        timeout: int, outcome: ProbeOutcome, result: HealthCheckResult, now: int)
  {
    var t := Step(before, outcome, failureThreshold, recoveryThreshold);
    && after == t.next
    && result == CheckResult(outcome, t.next.status, timeout, now)
    && history' == PushBounded(history, result, MaxHistory)
  }

  /** The state of each checker of `cs`. */
  ghost function States(cs: Dict<string, HealthChecker>): (r: seq<Counters>)
    reads set i | 0 <= i < |cs| :: cs[i].1
    ensures |r| == |cs| && forall j :: 0 <= j < |cs| ==> r[j] == cs[j].1.State()
    decreases |cs|
  {
    if cs == [] then []
    else
      var k := |cs| - 1;
      assert forall i :: 0 <= i < k ==> cs[..k][i] == cs[i];
      States(cs[..k]) + [cs[k].1.State()]
  }

  /** The history of each checker of `cs`. */
  ghost function Histories(cs: Dict<string, HealthChecker>): (r: seq<seq<HealthCheckResult>>)
    reads set i | 0 <= i < |cs| :: cs[i].1
    ensures |r| == |cs| && forall j :: 0 <= j < |cs| ==> r[j] == cs[j].1.history
    decreases |cs|
  {
    if cs == [] then []
    else
      var k := |cs| - 1;
      assert forall i :: 0 <= i < k ==> cs[..k][i] == cs[i];
      Histories(cs[..k]) + [cs[k].1.history]
  }

  /** A check's result is the newest entry of the history it leaves. */
  lemma CheckedFromLast(before: Counters, history: seq<HealthCheckResult>, after: Counters,
                        history': seq<HealthCheckResult>, failureThreshold: int, recoveryThreshold: int,
                        timeout: int, outcome: ProbeOutcome, result: HealthCheckResult, now: int)
    requires |history| <= MaxHistory && before.failures >= 0
    requires CheckedFrom(before, history, after, history', failureThreshold, recoveryThreshold, timeout, outcome,
                         result, now)
    ensures history' != [] && history'[|history'| - 1] == result
    ensures after.failures >= 1 <==> ProbeError(outcome).Some?
    ensures result.healthy <==> ProbeError(outcome).None?
  {
    PushBoundedSpec(history, result, MaxHistory);
  }

  /** The logs after the manager's callbacks ran for each target's notices, target by target in order. */
  function NotifyAll(logs: Logs, names: seq<string>, fired: seq<seq<Notification>>, autoRecovery: bool, now: int): Logs
    requires |names| == |fired|
  {
    if names == [] then logs
    else
      var k := |names| - 1;
      OnNotifications(NotifyAll(logs, names[..k], fired[..k], autoRecovery, now), names[k], fired[k], autoRecovery, now)
  }

  /** One more target's callbacks extend the logs of the targets before it. */
  lemma NotifyAllNext(logs: Logs, names: seq<string>, fired: seq<seq<Notification>>, i: int, autoRecovery: bool, now: int)
    requires |names| == |fired| && 0 <= i < |names|
    ensures NotifyAll(logs, names[..i + 1], fired[..i + 1], autoRecovery, now) ==
            OnNotifications(NotifyAll(logs, names[..i], fired[..i], autoRecovery, now), names[i], fired[i], autoRecovery, now)
  {
    assert names[..i + 1][..i] == names[..i] && fired[..i + 1][..i] == fired[..i];
  }

  class ReliakitSelfHealingManager {
    const checkInterval: int
    const enableAutoRecovery: bool
    var checkers: Dict<string, HealthChecker>
    var recoveryLog: seq<RecoveryAction>
    var eventLog: seq<Event>
    /** The checkers this manager created. */
    ghost var Repr: set<HealthChecker>

    function CurrentLogs(): Logs
      reads this
    {
      Logs(eventLog, recoveryLog)
    }

    /** Distinct names, each with its own valid checker named after it, and bounded logs. */
    ghost predicate Valid()
      reads this, Repr
    {
      CheckersOk(checkers, Repr) && LogsOk(CurrentLogs())
    }

    constructor (interval: int, autoRecovery: bool)
      ensures Valid() && checkInterval == interval && enableAutoRecovery == autoRecovery
      ensures checkers == [] && eventLog == [] && recoveryLog == []
    {
      checkInterval := interval;
      enableAutoRecovery := autoRecovery;
      checkers := [];
      recoveryLog := [];
      eventLog := [];
      Repr := {};
    }

    /** `_log_event`. */
    method LogEventStep(eventType: string, data: map<string, Datum>, now: int)
      requires LogsOk(CurrentLogs())
      modifies this
      ensures LogsOk(CurrentLogs()) && checkers == old(checkers) && Repr == old(Repr)
      ensures CurrentLogs() == LogEvent(old(CurrentLogs()), eventType, data, now)
    {
      eventLog := eventLog + [Event(now, eventType, data)];
      if |eventLog| > MaxEvents {
        eventLog := eventLog[1..];
      }
    }

    /** `_attempt_recovery` with `_recover_exo_node` and `_recover_cloud_provider`. */
    method AttemptRecoveryStep(target: string, now: int)
      requires LogsOk(CurrentLogs())
      modifies this
      ensures LogsOk(CurrentLogs()) && checkers == old(checkers) && Repr == old(Repr)
      ensures CurrentLogs() == AttemptRecovery(old(CurrentLogs()), target, now)
    {
      var action: RecoveryAction;
      if Contains(Lower(target), "exo") {
        action := RecoveryAction("failover", target, map["reason" := "node_offline"], now, true, None);
        LogEventStep("exo_failover",
                     map["node" := Text(target), "action" := Text("failover_to_cloud"), "timestamp" := Time(now)], now);
      } else {
        action := RecoveryAction("reset", target, map["reason" := "provider_failure"], now, true, None);
        LogEventStep("cloud_provider_failure", map["provider" := Text(target), "timestamp" := Time(now)], now);
      }
      recoveryLog := recoveryLog + [action];
      if |recoveryLog| > MaxRecoveries {
        recoveryLog := recoveryLog[1..];
      }
    }

    /** `_on_status_change`, `_on_target_failure` and `_on_target_recovery`. */
    method HandleNotification(target: string, n: Notification, now: int)
      requires LogsOk(CurrentLogs())
      modifies this
      ensures LogsOk(CurrentLogs()) && checkers == old(checkers) && Repr == old(Repr)
      ensures CurrentLogs() == OnNotification(old(CurrentLogs()), target, n, enableAutoRecovery, now)
    {
      match n {
        case StatusChanged(from, to) =>
          LogEventStep("status_change",
                       map["target" := Text(target), "old_status" := Text(from.Value()),
                           "new_status" := Text(to.Value()), "timestamp" := Time(now)], now);
        case FailureAlert(error) =>
          LogEventStep("target_failure",
                       map["target" := Text(target), "error" := Text(error), "timestamp" := Time(now)], now);
          if enableAutoRecovery {
            AttemptRecoveryStep(target, now);
          }
        case RecoveryAlert =>
          LogEventStep("target_recovery", map["target" := Text(target), "timestamp" := Time(now)], now);
      }
    }

    /** Runs the manager's callbacks for the notifications one check fired, in order. */
    method HandleNotifications(target: string, ns: seq<Notification>, now: int)
      requires LogsOk(CurrentLogs())
      modifies this
      ensures LogsOk(CurrentLogs()) && checkers == old(checkers) && Repr == old(Repr)
      ensures CurrentLogs() == OnNotifications(old(CurrentLogs()), target, ns, enableAutoRecovery, now)
    {
      for i := 0 to |ns|
        invariant LogsOk(CurrentLogs()) && checkers == old(checkers) && Repr == old(Repr)
        invariant CurrentLogs() == OnNotifications(old(CurrentLogs()), target, ns[..i], enableAutoRecovery, now)
      {
        assert ns[..i + 1][..i] == ns[..i];
        HandleNotification(target, ns[i], now);
      }
      assert ns[..|ns|] == ns;
    }

    /** Files `checker` under `name`, replacing any checker of that name. */
    method Install(name: string, checker: HealthChecker)
      requires Valid() && checker !in Repr && checker.Valid() && checker.targetName == name
      modifies this
      ensures Valid() && checkers == Put(old(checkers), name, checker) && CurrentLogs() == old(CurrentLogs())
    {
      checkers := Put(checkers, name, checker);
      Repr := Repr + {checker};
      PutChecker(old(checkers), old(Repr), name, checker);
    }

    /** `add_target`: a checker with the default timeout and thresholds, replacing any of that name. */
    method AddTarget(name: string, url: string, endpoint: string, now: int) returns (checker: HealthChecker)
      requires Valid()
      modifies this
      ensures Valid() && fresh(checker)
      ensures checkers == Put(old(checkers), name, checker)
      ensures checker.targetUrl == url && checker.healthEndpoint == endpoint && checker.checkInterval == checkInterval
      ensures checker.timeout == 5 && checker.failureThreshold == 3 && checker.recoveryThreshold == 2
      ensures checker.State() == Counters(Healthy, 0, 0) && checker.history == []
      ensures CurrentLogs() == LogEvent(old(CurrentLogs()), "target_added",
                                        map["name" := Text(name), "url" := Text(url)], now)
    {
      checker := new HealthChecker(name, url, endpoint, checkInterval, 5, 3, 2);
      Install(name, checker);
      LogEventStep("target_added", map["name" := Text(name), "url" := Text(url)], now);
    }

    /** The newest result in a checker's history. */
    function LastResult(c: HealthChecker): Option<HealthCheckResult>
      reads c
    {
      if c.history == [] then None else Some(c.history[|c.history| - 1])
    }

    /** The check of the `i`-th target, with the manager's callbacks run on what it fired. */
    method RunCheck(i: int, outcome: ProbeOutcome, now: int) returns (result: HealthCheckResult)
      requires Valid() && 0 <= i < |checkers|
      modifies this, checkers[i].1
      ensures Valid() && checkers == old(checkers) && Repr == old(Repr)
      ensures CheckedFrom(old(checkers[i].1.State()), old(checkers[i].1.history), checkers[i].1.State(),
                          checkers[i].1.history, checkers[i].1.failureThreshold, checkers[i].1.recoveryThreshold,
                          checkers[i].1.timeout, outcome, result, now)
      ensures var c := checkers[i].1;
        var t := Step(old(c.State()), outcome, c.failureThreshold, c.recoveryThreshold);
        CurrentLogs() == OnNotifications(old(CurrentLogs()), checkers[i].0, t.notices, enableAutoRecovery, now)
      ensures forall j :: 0 <= j < |checkers| && j != i ==>
        checkers[j].1.State() == old(checkers[j].1.State()) && checkers[j].1.history == old(checkers[j].1.history)
    {
      var checker := checkers[i].1;
      var before := checker.notifications;
      result := checker.Check(outcome, now);
      var fired := checker.notifications[|before|..];
      assert checker.notifications == before + fired;
      HandleNotifications(checker.targetName, fired, now);
    }

    /**
     * The first `i` targets were checked in order from the states and
     * histories they had, giving `results` and leaving the logs as the
     * callbacks for their notices made them from `logs`; the others are as
     * they were, and `fired` holds the notices each would fire.
     */
    ghost predicate CheckedUpTo(i: int, probe: string -> ProbeOutcome, now: int, results: Dict<string, HealthCheckResult>,
                                states: seq<Counters>, histories: seq<seq<HealthCheckResult>>,
                                fired: seq<seq<Notification>>, logs: Logs)
      reads this, set j | 0 <= j < |checkers| :: checkers[j].1
    {
      && 0 <= i <= |checkers| && |results| == i
      && |states| == |checkers| && |histories| == |checkers| && |fired| == |checkers|
      && (forall j :: 0 <= j < i ==> results[j].0 == checkers[j].0)
      && (forall j :: 0 <= j < i ==>
            CheckedFrom(states[j], histories[j], checkers[j].1.State(), checkers[j].1.history,
                        checkers[j].1.failureThreshold, checkers[j].1.recoveryThreshold, checkers[j].1.timeout,
                        probe(checkers[j].0), results[j].1, now))
      && (forall j :: i <= j < |checkers| ==> checkers[j].1.State() == states[j] && checkers[j].1.history == histories[j])
      && (forall j :: i <= j < |checkers| ==>
            fired[j] == Step(states[j], probe(checkers[j].0), checkers[j].1.failureThreshold,
                             checkers[j].1.recoveryThreshold).notices)
      && CurrentLogs() == NotifyAll(logs, Keys(checkers)[..i], fired[..i], enableAutoRecovery, now)
    }

    /** Checks the `i`-th target of an in-order pass over all of them. */
    method CheckNext(i: int, probe: string -> ProbeOutcome, now: int, results: Dict<string, HealthCheckResult>,
                     ghost states: seq<Counters>, ghost histories: seq<seq<HealthCheckResult>>,
                     ghost fired: seq<seq<Notification>>, ghost logs: Logs)
      returns (results': Dict<string, HealthCheckResult>)
      requires Valid() && 0 <= i < |checkers| && CheckedUpTo(i, probe, now, results, states, histories, fired, logs)
      modifies this, checkers[i].1
      ensures Valid() && checkers == old(checkers) && Repr == old(Repr)
      ensures CheckedUpTo(i + 1, probe, now, results', states, histories, fired, logs)
    {
      var result := RunCheck(i, probe(checkers[i].0), now);
      results' := results + [(checkers[i].0, result)];
      NotifyAllNext(logs, Keys(checkers), fired, i, enableAutoRecovery, now);
    }

    /** The every-target branch of `force_check`, checking the targets in order. */
    method CheckAll(probe: string -> ProbeOutcome, now: int) returns (results: Dict<string, HealthCheckResult>)
      requires Valid()
      modifies this, Repr
      ensures Valid() && checkers == old(checkers) && Repr == old(Repr)
      ensures Keys(results) == Keys(checkers)
      ensures forall j :: 0 <= j < |checkers| ==>
        CheckedFrom(old(States(checkers))[j], old(Histories(checkers))[j], checkers[j].1.State(), checkers[j].1.history,
                    checkers[j].1.failureThreshold, checkers[j].1.recoveryThreshold, checkers[j].1.timeout,
                    probe(checkers[j].0), results[j].1, now)
      ensures CurrentLogs() == NotifyAll(old(CurrentLogs()), Keys(checkers), old(Fired(checkers, probe)),
                                         enableAutoRecovery, now)
    {
      ghost var states, histories, fired, logs := StartChecks(probe, now);
      results := [];
      for i := 0 to |checkers|
        invariant Valid() && checkers == old(checkers) && Repr == old(Repr)
        invariant CheckedUpTo(i, probe, now, results, states, histories, fired, logs)
      {
        results := CheckNext(i, probe, now, results, states, histories, fired, logs);
      }
      ChecksDone(probe, now, results, states, histories, fired, logs);
    }

    /** Before the pass nothing is checked; the snapshots are the checkers' states, histories and notices. */
    ghost method StartChecks(probe: string -> ProbeOutcome, now: int)
      returns (states: seq<Counters>, histories: seq<seq<HealthCheckResult>>, fired: seq<seq<Notification>>, logs: Logs)
      ensures states == States(checkers) && histories == Histories(checkers) && fired == Fired(checkers, probe)
      ensures logs == CurrentLogs()
      ensures CheckedUpTo(0, probe, now, [], states, histories, fired, logs)
    {
      states, histories, fired, logs := States(checkers), Histories(checkers), Fired(checkers, probe), CurrentLogs();
      assert Keys(checkers)[..0] == [] && fired[..0] == [];
    }

    /** After the pass every target is checked, keyed in table order, and every target's callbacks ran. */
    lemma ChecksDone(probe: string -> ProbeOutcome, now: int, results: Dict<string, HealthCheckResult>,
                     states: seq<Counters>, histories: seq<seq<HealthCheckResult>>,
                     fired: seq<seq<Notification>>, logs: Logs)
      requires CheckedUpTo(|checkers|, probe, now, results, states, histories, fired, logs)
      ensures Keys(results) == Keys(checkers)
      ensures forall j :: 0 <= j < |checkers| ==>
        CheckedFrom(states[j], histories[j], checkers[j].1.State(), checkers[j].1.history,
                    checkers[j].1.failureThreshold, checkers[j].1.recoveryThreshold, checkers[j].1.timeout,
                    probe(checkers[j].0), results[j].1, now)
      ensures CurrentLogs() == NotifyAll(logs, Keys(checkers), fired, enableAutoRecovery, now)
    {
      assert Keys(results) == Keys(checkers);
      assert Keys(checkers)[..|checkers|] == Keys(checkers) && fired[..|checkers|] == fired;
    }

    /**
     * `force_check`: a named target is checked alone and an unknown name is
     * an error; without a name (or with an empty one) every target is
     * checked in order. `probe` gives each target's outcome.
     */
    method ForceCheck(targetName: Option<string>, probe: string -> ProbeOutcome, now: int)
      returns (r: Result<ForceResult, string>)
      requires Valid()
      modifies this, Repr
      ensures Valid() && checkers == old(checkers) && Repr == old(Repr)
      ensures r.Err? <==> targetName.Some? && targetName.value != "" && !HasKey(checkers, targetName.value)
      ensures r.Err? ==> r.error == "Unknown target: " + targetName.value && unchanged(this) && unchanged(Repr)
      ensures r.Ok? && targetName.Some? && targetName.value != "" ==>
        var i := IndexOf(checkers, targetName.value);
        var t := Step(old(checkers[i].1.State()), probe(targetName.value), checkers[i].1.failureThreshold,
                      checkers[i].1.recoveryThreshold);
        && r.value.Single?
        && Get(checkers, targetName.value) == Some(checkers[i].1)
        && CheckedFrom(old(checkers[i].1.State()), old(checkers[i].1.history),
                       checkers[i].1.State(), checkers[i].1.history, checkers[i].1.failureThreshold,
                       checkers[i].1.recoveryThreshold, checkers[i].1.timeout, probe(targetName.value),
                       r.value.result, now)
        && CurrentLogs() == OnNotifications(old(CurrentLogs()), targetName.value, t.notices, enableAutoRecovery, now)
        && forall j :: 0 <= j < |checkers| && j != i ==>
             checkers[j].1.State() == old(checkers[j].1.State()) && checkers[j].1.history == old(checkers[j].1.history)
      ensures r.Ok? && (targetName.None? || targetName.value == "") ==>
        && r.value.Every?
        && Keys(r.value.results) == Keys(checkers)
        && (forall j :: 0 <= j < |checkers| ==>
              CheckedFrom(old(States(checkers))[j], old(Histories(checkers))[j], checkers[j].1.State(),
                          checkers[j].1.history, checkers[j].1.failureThreshold, checkers[j].1.recoveryThreshold,
                          checkers[j].1.timeout, probe(checkers[j].0), r.value.results[j].1, now))
        && CurrentLogs() == NotifyAll(old(CurrentLogs()), Keys(checkers), old(Fired(checkers, probe)),
                                      enableAutoRecovery, now)
    {
      if targetName.Some? && targetName.value != "" {
        var name := targetName.value;
        if !HasKey(checkers, name) {
          return Err("Unknown target: " + name);
        }
        var i := IndexOf(checkers, name);
        GetAt(checkers, i);
        var result := RunCheck(i, probe(name), now);
        return Ok(Single(result));
      }
      var results := CheckAll(probe, now);
      return Ok(Every(results));
    }
  }
}
