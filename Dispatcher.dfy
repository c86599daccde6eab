/**
 * The notification dispatch of the monitor (send_notification), as the list of calls it
 * makes on the outside world: the alert record, the push note and the live broadcast.
 */
module Dispatcher {
  import opened Common
  import opened AlertTracker

  const PushTitle := "Hardware Monitor Critical Alert"
  const MonitorGroup := "hardware_monitor"

  /** One call into an external sink, or the line logged when a caught call failed. */
  datatype Effect =
    | RecordAlert(metric: string, status: Status, message: string)   // Alert.objects.create
    | PushNote(title: string, body: string)                          // pushbullet.push_note
    | BroadcastAlert(group: string, metric: string, status: Status, message: string,
                     timestamp: int, notificationCount: int)         // channel layer group_send
    | LogFailure                                                     // "Failed to send notification"

  /** Whether each sink call returns normally; an external fact, so a parameter. */
  datatype SinkOutcomes = SinkOutcomes(recordOk: bool, pushOk: bool, broadcastOk: bool)

  datatype Dispatched = Dispatched(effects: seq<Effect>, raised: Option<Fault>)

  /** The broadcast that dispatch would send for this alert. */
  function AlertBroadcast(metric: string, status: Status, message: string, now: int, count: int): Effect {
    BroadcastAlert(MonitorGroup, metric, status, message, now, count)
  }

  /**
   * What an approved notification does. The record is always attempted and is not guarded,
   * so its failure escapes. Push and broadcast happen only when pushbullet is configured, in
   * one guarded block: the push (critical only) comes first, and its failure skips the broadcast.
   */
  function DispatchAlert(pushbullet: bool, metric: string, status: Status, message: string,
                         now: int, count: int, sinks: SinkOutcomes): (r: Dispatched)
    ensures |r.effects| >= 1 && r.effects[0] == RecordAlert(metric, status, message)
    ensures r.raised.Some? <==> !sinks.recordOk
    ensures r.raised.Some? ==> r.raised == Some(RecordFailed) && r.effects == [RecordAlert(metric, status, message)]
    ensures PushNote(PushTitle, message) in r.effects <==> sinks.recordOk && pushbullet && status == Critical
    ensures AlertBroadcast(metric, status, message, now, count) in r.effects <==>
      sinks.recordOk && pushbullet && (status == Critical ==> sinks.pushOk)
    ensures forall e :: e in r.effects && e.PushNote? ==> e == PushNote(PushTitle, message)
    ensures forall e :: e in r.effects && e.BroadcastAlert? ==> e == AlertBroadcast(metric, status, message, now, count)
    ensures LogFailure in r.effects <==>
      sinks.recordOk && pushbullet && (if status == Critical && !sinks.pushOk then true else !sinks.broadcastOk)
    ensures forall i, j :: 0 <= i < |r.effects| && 0 <= j < |r.effects| && r.effects[i].PushNote? && r.effects[j].BroadcastAlert? ==> i < j
    ensures forall i, j :: 0 <= i < j < |r.effects| ==> r.effects[i] != r.effects[j]
    ensures forall i :: 0 < i < |r.effects| ==> !r.effects[i].RecordAlert?
    ensures LogFailure in r.effects ==> r.effects[|r.effects| - 1] == LogFailure
  {
    var record := [RecordAlert(metric, status, message)];
    if !sinks.recordOk then Dispatched(record, Some(RecordFailed))
    else if !pushbullet then Dispatched(record, None)
    else
      var push := if status == Critical then [PushNote(PushTitle, message)] else [];
      if status == Critical && !sinks.pushOk then
        Dispatched(record + push + [LogFailure], None)
      else
        var broadcast := [AlertBroadcast(metric, status, message, now, count)];
        Dispatched(record + push + broadcast + (if sinks.broadcastOk then [] else [LogFailure]), None)
  }

  /** The monitor's alert records and effects after one send_notification. */
  datatype Notified = Notified(states: map<string, AlertState>, effects: seq<Effect>, raised: Option<Fault>)

  /**
   * send_notification: consult the tracker and dispatch only what it approves. A rejection
   * produces no effect; a tracker fault escapes before anything is sent.
   */
  function Notify(states: map<string, AlertState>, pushbullet: bool, message: string, status: Status,
                  metric: string, now: int, sinks: SinkOutcomes): (r: Notified)
    ensures var verdict := ShouldSend(states, metric, status, now);
      && (verdict.Failure? ==> r == Notified(states, [], Some(verdict.fault)))
      && (verdict.Success? ==> r.states == verdict.value.1)
      && (r.effects != [] <==> verdict.Success? && verdict.value.0)
      && (verdict.Success? && !verdict.value.0 ==> r == Notified(verdict.value.1, [], None))
    ensures var verdict := ShouldSend(states, metric, status, now);
      verdict.Success? && verdict.value.0 ==>
        var d := DispatchAlert(pushbullet, metric, status, message, now, verdict.value.1[metric].notificationCount, sinks);
        r == Notified(verdict.value.1, d.effects, d.raised)
    ensures r.effects != [] ==> r.effects[0] == RecordAlert(metric, status, message)
    ensures r.effects != [] ==> metric in r.states
    ensures r.effects != [] ==>
      forall e :: e in r.effects && e.BroadcastAlert? ==> e.notificationCount == r.states[metric].notificationCount
  {
    match ShouldSend(states, metric, status, now)
    case Failure(f) => Notified(states, [], Some(f))
    case Success((approved, next)) =>
      if !approved then Notified(next, [], None)
      else
        var d := DispatchAlert(pushbullet, metric, status, message, now, next[metric].notificationCount, sinks);
        Notified(next, d.effects, d.raised)
  }

  /** Without pushbullet, send_notification broadcasts and pushes nothing: the record is its only call. */
  lemma NoPushbulletOnlyRecords(states: map<string, AlertState>, message: string, status: Status,
                                metric: string, now: int, sinks: SinkOutcomes)
    ensures var r := Notify(states, false, message, status, metric, now, sinks);
      r.effects == [] || r.effects == [RecordAlert(metric, status, message)]
  {
  }
}
