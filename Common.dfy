/** Values shared by every part of the hardware monitor's alert engine. */
module Common {

  datatype Option<T> = None | Some(value: T)

  /** Severity of one classified sample. The monitor keeps these as the strings 'ok', 'warning' and 'critical'. */
  datatype Status = Ok | Warning | Critical

  /** The exceptions modelled as escaping from the core's operations instead of being caught. */
  datatype Fault =
    | UnknownMetric(metric: string)  // KeyError on alert_states or history
    | NoCooldown(status: Status)     // KeyError on notification_cooldowns
    | RecordFailed                   // Alert.objects.create raised

  /** The outcome of an operation that may raise. */
  datatype Result<T> = Success(value: T) | Failure(fault: Fault)

  /** Severity as a rank: ok < warning < critical. */
  function Severity(s: Status): (rank: nat)
    ensures rank <= 2
    ensures (rank == 0 <==> s == Ok) && (rank == 2 <==> s == Critical)
  {
    match s
    case Ok => 0
    case Warning => 1
    case Critical => 2
  }
}
