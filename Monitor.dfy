/**
 * EnhancedHardwareMonitor's alert engine: the object that owns the per-metric alert
 * records and sample histories, and the operations that read and update them.
 */
module Monitor {
  import opened Common
  import opened Classifier
  import opened AlertTracker
  import opened Dispatcher
  import opened History

  /** The metrics that have an alert record. */
  const AlertMetrics: set<string> := {"cpu", "ram", "disk", "temperature", "network", "battery"}

  /** The metrics that have a history; the network's is "network_speed", not "network". */
  const HistoryMetrics: set<string> := {"cpu", "ram", "disk", "network_speed", "temperature", "battery"}

  /**
   * check_metric on values: classify the sample, and hand only alert results (those with a
   * message) to send_notification.
   */
  function Evaluate(states: map<string, AlertState>, pushbullet: bool, metric: string, value: real,
                    t: Thresholds, now: int, sinks: SinkOutcomes): (r: (CheckResult, Notified))
    ensures r.0 == Classify(metric, value, t)
    ensures r.0.status == Ok ==> r.1 == Notified(states, [], None)
    ensures r.0.status != Ok ==> r.1 == Notify(states, pushbullet, AlertMessage(r.0.status, metric), r.0.status, metric, now, sinks)
  {
    var result := Classify(metric, value, t);
    if result.message.Some? then
      (result, Notify(states, pushbullet, result.message.value, result.status, metric, now, sinks))
    else
      (result, Notified(states, [], None))
  }

  /**
   * A recovery in between does not restart the cooldown: 'ok' results never reach the tracker,
   * so critical, then ok, then critical again within five minutes sends nothing the third time.
   */
  lemma RecoveryDoesNotResetCooldown(states: map<string, AlertState>, pushbullet: bool, metric: string,
                                     high: real, low: real, t: Thresholds, t0: int, t1: int, t2: int,
                                     sinks: SinkOutcomes)
    requires metric in states && states[metric].currentStatus != Critical
    requires Classify(metric, high, t).status == Critical && Classify(metric, low, t).status == Ok
    requires t0 <= t2 < t0 + 5 * SecondsPerMinute
    ensures var n1 := Evaluate(states, pushbullet, metric, high, t, t0, sinks).1;
      && n1.effects != []
      && var n2 := Evaluate(n1.states, pushbullet, metric, low, t, t1, sinks).1;
      && n2.states == n1.states
      && var n3 := Evaluate(n2.states, pushbullet, metric, high, t, t2, sinks).1;
      && n3.effects == [] && n3.raised == None && n3.states == n1.states
  {
    var n1 := Evaluate(states, pushbullet, metric, high, t, t0, sinks).1;
    TransitionNotifies(states[metric], Critical, t0);
    assert n1.states == states[metric := AlertState(Some(t0), Critical, 1)];
    SustainedStatusThrottled(n1.states[metric], Critical, t2);
  }

  /**
   * An end-to-end run: CPU at 95 against {80, 90} on a fresh record, with pushbullet
   * configured and every sink answering, records, pushes and broadcasts the first notification.
   */
  lemma FirstCriticalAlertReachesEverySink(states: map<string, AlertState>, now: int)
    requires "cpu" in states && states["cpu"] == InitialAlertState
    ensures var msg := "Critical: High cpu";
      var n := Evaluate(states, true, "cpu", 95.0, DefaultThresholds["cpu_usage"], now, SinkOutcomes(true, true, true)).1;
      && n.effects == [RecordAlert("cpu", Critical, msg), PushNote(PushTitle, msg), AlertBroadcast("cpu", Critical, msg, now, 1)]
      && n.raised == None
      && n.states["cpu"] == AlertState(Some(now), Critical, 1)
  {
    TableBoundaries();
  }

  /** get_network_stats sends a latency to check_metric only when the ping produced a non-zero one. */
  function LatencyGate(latency: Option<real>): (checked: Option<real>)
    ensures checked.None? <==> latency.None? || latency.value == 0.0
    ensures checked.Some? ==> checked == latency
  {
    if latency.Some? && latency.value != 0.0 then latency else None
  }

  class HardwareMonitor {
    const thresholds: map<string, Thresholds>
    /** Whether a pushbullet client exists; fixed at construction. */
    const pushbullet: bool
    var alertStates: map<string, AlertState>
    var history: map<string, seq<HistoryEntry>>

    /** The monitor's invariant: the tables keep their keys, records stay reachable, histories stay bounded. */
    ghost predicate Valid()
      reads this
    {
      && thresholds == DefaultThresholds
      && alertStates.Keys == AlertMetrics
      && history.Keys == HistoryMetrics
      && (forall m :: m in alertStates ==> WellFormed(alertStates[m]))
      && (forall m :: m in history ==> |history[m]| <= HistoryCapacity)
    }

    /** The pushbullet client exists when a non-empty key was given and connecting did not raise. */
    constructor (pushbulletApiKey: Option<string>, pushbulletConnects: bool)
      ensures Valid()
      ensures pushbullet <==> pushbulletApiKey.Some? && pushbulletApiKey.value != "" && pushbulletConnects
      ensures forall m :: m in AlertMetrics ==> alertStates[m] == InitialAlertState
      ensures forall m :: m in HistoryMetrics ==> history[m] == []
    {
      thresholds := DefaultThresholds;
      pushbullet := pushbulletApiKey.Some? && pushbulletApiKey.value != "" && pushbulletConnects;
      alertStates := map m | m in AlertMetrics :: InitialAlertState;
      history := map m | m in HistoryMetrics :: [];
    }

    /** should_send_notification: updates the named metric's record in place and answers whether to notify. */
    method ShouldSendNotification(metric: string, status: Status, now: int) returns (r: Result<bool>)
      requires Valid()
      modifies this
      ensures Valid() && history == old(history)
      ensures var verdict := ShouldSend(old(alertStates), metric, status, now);
        && (verdict.Failure? ==> r == Failure(verdict.fault) && alertStates == old(alertStates))
        && (verdict.Success? ==> r == Success(verdict.value.0) && alertStates == verdict.value.1)
    {
      if metric !in alertStates {
        return Failure(UnknownMetric(metric));
      }
      var state := alertStates[metric];
      StepPreservesWellFormed(state, status, now);
      if state.lastNotificationTime.None? || state.currentStatus != status {
        alertStates := alertStates[metric := AlertState(Some(now), status, 1)];
        return Success(true);
      }
      var cooldown := CooldownMinutes(status);
      if cooldown.None? {
        return Failure(NoCooldown(status));
      }
      if now - state.lastNotificationTime.value >= cooldown.value * SecondsPerMinute {
        alertStates := alertStates[metric := state.(lastNotificationTime := Some(now),
                                                    notificationCount := state.notificationCount + 1)];
        return Success(true);
      }
      return Success(false);
    }

    /** send_notification: the tracker first; only an approval reaches the sinks. */
    method SendNotification(message: string, status: Status, metric: string, now: int, sinks: SinkOutcomes)
      returns (effects: seq<Effect>, raised: Option<Fault>)
      requires Valid()
      modifies this
      ensures Valid() && history == old(history)
      ensures var n := Notify(old(alertStates), pushbullet, message, status, metric, now, sinks);
        alertStates == n.states && effects == n.effects && raised == n.raised
    {
      var approved := ShouldSendNotification(metric, status, now);
      if approved.Failure? {
        return [], Some(approved.fault);
      }
      if !approved.value {
        return [], None;
      }
      var d := DispatchAlert(pushbullet, metric, status, message, now, alertStates[metric].notificationCount, sinks);
      effects, raised := d.effects, d.raised;
    }

    /** update_history: append one sample to the metric's bounded deque. */
    method UpdateHistory(metric: string, value: real, now: int) returns (raised: Option<Fault>)
      requires Valid()
      modifies this
      ensures Valid() && alertStates == old(alertStates)
      ensures metric !in old(history) ==> raised == Some(UnknownMetric(metric)) && history == old(history)
      ensures metric in old(history) ==>
        raised == None && history == old(history)[metric := Append(old(history)[metric], HistoryEntry(now, value))]
    {
      if metric !in history {
        return Some(UnknownMetric(metric));
      }
      history := history[metric := Append(history[metric], HistoryEntry(now, value))];
      raised := None;
    }

    /**
     * get_history: the metric's entries newer than `minutes` before `now`, oldest first;
     * a metric without a history gives the empty list.
     */
    function GetHistory(metric: string, now: int, minutes: int := DefaultWindowMinutes): (r: seq<HistoryEntry>)
      reads this
      ensures metric !in history ==> r == []
      ensures metric in history ==>
        forall e :: e in r <==> e in history[metric] && e.timestamp > now - minutes * SecondsPerMinute
      ensures metric in history ==> IsSubsequence(r, history[metric])
      ensures metric in history ==>
        forall e :: multiset(r)[e] == if e.timestamp > now - minutes * SecondsPerMinute then multiset(history[metric])[e] else 0
      ensures metric in history ==> r == Window(history[metric], now - minutes * SecondsPerMinute)
    {
      if metric !in history then []
      else
        var cutoff := now - minutes * SecondsPerMinute;
        WindowIsSubsequence(history[metric], cutoff);
        WindowCounts(history[metric], cutoff);
        Window(history[metric], cutoff)
    }

    /**
     * check_metric: classify, notify on alerts, and return the classification. When
     * send_notification raises, check_metric returns nothing: `result` is then None.
     */
    method CheckMetric(metric: string, value: real, t: Thresholds, now: int, sinks: SinkOutcomes)
      returns (result: Option<CheckResult>, effects: seq<Effect>, raised: Option<Fault>)
      requires Valid()
      modifies this
      ensures Valid() && history == old(history)
      ensures var (expected, n) := Evaluate(old(alertStates), pushbullet, metric, value, t, now, sinks);
        && alertStates == n.states && effects == n.effects && raised == n.raised
        && result == (if raised.None? then Some(expected) else None)
      ensures Classify(metric, value, t).status == Ok ==>
        alertStates == old(alertStates) && effects == [] && raised == None && result == Some(Classify(metric, value, t))
    {
      var classified := Classify(metric, value, t);
      effects, raised := [], None;
      if classified.message.Some? {
        effects, raised := SendNotification(classified.message.value, classified.status, metric, now, sinks);
      }
      result := if raised.None? then Some(classified) else None;
    }

    /**
     * The shared core of check_cpu, check_ram, check_disk, check_temperature and check_battery:
     * record the sample in the history, then check it. A failing history update stops the check.
     * Whatever raises here escapes from the collectors, except from check_temperature, whose
     * `except Exception` turns it into a missing reading. The single `now` stands for both the
     * history timestamp and the tracker's clock read.
     */
    method RecordAndCheck(metric: string, value: real, t: Thresholds, now: int, sinks: SinkOutcomes)
      returns (result: Option<CheckResult>, effects: seq<Effect>, raised: Option<Fault>)
      requires Valid()
      modifies this
      ensures Valid()
      ensures metric !in old(history) ==>
        result == None && effects == [] && raised == Some(UnknownMetric(metric))
        && history == old(history) && alertStates == old(alertStates)
      ensures metric in old(history) ==>
        && history == old(history)[metric := Append(old(history)[metric], HistoryEntry(now, value))]
        && var (expected, n) := Evaluate(old(alertStates), pushbullet, metric, value, t, now, sinks);
        && alertStates == n.states && effects == n.effects && raised == n.raised
        && result == (if raised.None? then Some(expected) else None)
    {
      raised := UpdateHistory(metric, value, now);
      if raised.Some? {
        return None, [], raised;
      }
      result, effects, raised := CheckMetric(metric, value, t, now, sinks);
    }

    /**
     * The latency part of get_network_stats: a missing or zero latency is 'ok' and never reaches
     * the tracker. The verdict is the (status, message) pair, None when check_metric raised.
     */
    method CheckNetworkLatency(latency: Option<real>, now: int, sinks: SinkOutcomes)
      returns (verdict: Option<(Status, Option<string>)>, effects: seq<Effect>, raised: Option<Fault>)
      requires Valid()
      modifies this
      ensures Valid() && history == old(history)
      ensures LatencyGate(latency).None? ==>
        verdict == Some((Ok, None)) && effects == [] && raised == None && alertStates == old(alertStates)
      ensures LatencyGate(latency).Some? ==>
        var (expected, n) := Evaluate(old(alertStates), pushbullet, "network", latency.value,
                                      DefaultThresholds["network_latency"], now, sinks);
        && alertStates == n.states && effects == n.effects && raised == n.raised
        && verdict == (if raised.None? then Some((expected.status, expected.message)) else None)
    {
      var checked := LatencyGate(latency);
      if checked.None? {
        return Some((Ok, None)), [], None;
      }
      var result;
      result, effects, raised := CheckMetric("network", checked.value, thresholds["network_latency"], now, sinks);
      verdict := if result.Some? then Some((result.value.status, result.value.message)) else None;
    }
  }

  /**
   * A client of the class: on a monitor without pushbullet, a critical CPU reading is recorded
   * once and repeated within the cooldown is suppressed, even across a recovery.
   */
  method CriticalRepeatIsSuppressed(t0: int, t1: int, t2: int) returns (first: seq<Effect>, third: seq<Effect>)
    requires t0 <= t2 < t0 + 5 * SecondsPerMinute
    ensures first == [RecordAlert("cpu", Critical, "Critical: High cpu")]
    ensures third == []
  {
    var sinks := SinkOutcomes(true, true, true);
    var m := new HardwareMonitor(None, false);
    var t := DefaultThresholds["cpu_usage"];
    TableBoundaries();
    var states0 := m.alertStates;
    var r, raised;
    r, first, raised := m.CheckMetric("cpu", 95.0, t, t0, sinks);
    var second;
    r, second, raised := m.CheckMetric("cpu", 50.0, t, t1, sinks);
    r, third, raised := m.CheckMetric("cpu", 95.0, t, t2, sinks);
    RecoveryDoesNotResetCooldown(states0, false, "cpu", 95.0, 50.0, t, t0, t1, t2, sinks);
  }
}
