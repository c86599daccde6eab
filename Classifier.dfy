/**
 * The threshold classifier of the monitor (check_metric): a sample and a pair of
 * thresholds become 'ok', 'warning' or 'critical', and a message for the two alert levels.
 */
module Classifier {
  import opened Common

  /** One entry of the monitor's threshold table: {'warning': w, 'critical': c}. */
  datatype Thresholds = Thresholds(warning: real, critical: real)

  /** What check_metric returns: the sample, its status and the alert message (None when ok). */
  datatype CheckResult = CheckResult(value: real, status: Status, message: Option<string>)

  /** The threshold table the monitor is built with, keyed as the monitor keys it. */
  const DefaultThresholds: map<string, Thresholds> := map[
    "cpu_usage" := Thresholds(80.0, 90.0),
    "ram_usage" := Thresholds(80.0, 90.0),
    "disk_usage" := Thresholds(85.0, 95.0),
    "temperature" := Thresholds(75.0, 85.0),
    "network_latency" := Thresholds(150.0, 300.0),
    "disk_read_speed" := Thresholds(10.0, 5.0),
    "disk_write_speed" := Thresholds(10.0, 5.0),
    "battery_level" := Thresholds(20.0, 10.0)
  ]

  /**
   * Polarity is decided by the metric's name, not by the table: only the metric
   * named exactly "battery" is bad when low; every other metric is bad when high.
   */
  predicate BadWhenLow(metric: string) {
    metric == "battery"
  }

  /**
   * The alert text: the status word, the direction and the metric's name.
   * The formatted sample value the monitor appends is not modelled.
   */
  function AlertMessage(status: Status, metric: string): (text: string)
    requires status != Ok
    ensures |text| > 0
  {
    (if status == Critical then "Critical" else "Warning") + ": "
      + (if BadWhenLow(metric) then "Low " else "High ") + metric
  }

  /** check_metric's classification; every comparison is strict, so a value equal to a threshold is on the safe side. */
  function Classify(metric: string, value: real, t: Thresholds): (r: CheckResult)
    ensures r.value == value
    ensures r.message.None? <==> r.status == Ok
    ensures r.message.Some? ==> r.message.value == AlertMessage(r.status, metric)
    ensures !BadWhenLow(metric) ==>
      && (r.status == Critical <==> value > t.critical)
      && (r.status == Warning <==> t.warning < value <= t.critical)
      && (r.status == Ok <==> value <= t.warning && value <= t.critical)
    ensures BadWhenLow(metric) ==>
      && (r.status == Critical <==> value < t.critical)
      && (r.status == Warning <==> t.critical <= value < t.warning)
      && (r.status == Ok <==> value >= t.warning && value >= t.critical)
  {
    if BadWhenLow(metric) then
      if value < t.critical then CheckResult(value, Critical, Some(AlertMessage(Critical, metric)))
      else if value < t.warning then CheckResult(value, Warning, Some(AlertMessage(Warning, metric)))
      else CheckResult(value, Ok, None)
    else
      if value > t.critical then CheckResult(value, Critical, Some(AlertMessage(Critical, metric)))
      else if value > t.warning then CheckResult(value, Warning, Some(AlertMessage(Warning, metric)))
      else CheckResult(value, Ok, None)
  }

  /** Severity never drops as a sample gets worse: higher for bad-when-high metrics, lower for the battery. */
  lemma ClassifyMonotone(metric: string, v1: real, v2: real, t: Thresholds)
    requires v1 <= v2
    ensures !BadWhenLow(metric) ==>
      Severity(Classify(metric, v1, t).status) <= Severity(Classify(metric, v2, t).status)
    ensures BadWhenLow(metric) ==>
      Severity(Classify(metric, v1, t).status) >= Severity(Classify(metric, v2, t).status)
  {
  }

  /** The boundaries of the monitor's own table, and two worked alerts. */
  lemma TableBoundaries()
    ensures Classify("cpu", 90.0, DefaultThresholds["cpu_usage"]).status == Warning
    ensures Classify("cpu", 80.0, DefaultThresholds["cpu_usage"]).status == Ok
    ensures Classify("cpu", 95.0, DefaultThresholds["cpu_usage"])
      == CheckResult(95.0, Critical, Some("Critical: High cpu"))
    ensures Classify("battery", 10.0, DefaultThresholds["battery_level"]).status == Warning
    ensures Classify("battery", 20.0, DefaultThresholds["battery_level"]).status == Ok
    ensures Classify("battery", 8.0, DefaultThresholds["battery_level"])
      == CheckResult(8.0, Critical, Some("Critical: Low battery"))
  {
    assert "Critical" + ": " + "High " + "cpu" == "Critical: High cpu";
    assert "Critical" + ": " + "Low " + "battery" == "Critical: Low battery";
  }
}
