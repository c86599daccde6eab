/**
 * The debounce state machine of the monitor (should_send_notification): per metric it
 * remembers the last status it saw and when it last approved a notification.
 */
module AlertTracker {
  import opened Common

  /** Timestamps and durations are integer seconds; the monitor's `datetime.now()` is a parameter. */
  const SecondsPerMinute := 60

  /** The per-metric record; `None` for the time is the monitor's "never notified". */
  datatype AlertState = AlertState(lastNotificationTime: Option<int>, currentStatus: Status, notificationCount: int)

  /** Every metric starts as AlertState(): no time, 'ok', no notifications. */
  const InitialAlertState := AlertState(None, Ok, 0)

  /** notification_cooldowns: minutes between repeated notifications of one status; 'ok' has no entry. */
  function CooldownMinutes(status: Status): (minutes: Option<int>)
    ensures minutes.None? <==> status == Ok
    ensures status == Critical ==> minutes == Some(5)
    ensures status == Warning ==> minutes == Some(15)
  {
    match status
    case Warning => Some(15)
    case Critical => Some(5)
    case Ok => None
  }

  /** The tracker's answer and the record it leaves behind. */
  datatype Decision = Decision(notify: bool, next: AlertState)

  /**
   * One evaluation of one metric's record at time `now`. A first evaluation or a change of
   * status always notifies and restarts the count; a repeated status notifies once its
   * cooldown has elapsed. A repeated 'ok' finds no cooldown and raises.
   */
  function Step(s: AlertState, status: Status, now: int): (r: Result<Decision>)
    ensures r.Failure? <==> s.lastNotificationTime.Some? && s.currentStatus == status && status == Ok
    ensures r.Failure? ==> r.fault == NoCooldown(Ok)
    ensures r.Success? ==> r.value.next.currentStatus == status
    ensures r.Success? && !r.value.notify ==> r.value.next == s
    ensures r.Success? && r.value.notify ==>
      && r.value.next.lastNotificationTime == Some(now)
      && r.value.next.notificationCount in {1, s.notificationCount + 1}
  {
    if s.lastNotificationTime.None? || s.currentStatus != status then
      Success(Decision(true, AlertState(Some(now), status, 1)))
    else
      match CooldownMinutes(status)
      case None => Failure(NoCooldown(status))
      case Some(minutes) =>
        if now - s.lastNotificationTime.value >= minutes * SecondsPerMinute then
          Success(Decision(true, s.(lastNotificationTime := Some(now), notificationCount := s.notificationCount + 1)))
        else
          Success(Decision(false, s))
  }

  /** A first evaluation, or a status different from the stored one, notifies at once and resets the count to 1. */
  lemma TransitionNotifies(s: AlertState, status: Status, now: int)
    requires s.lastNotificationTime.None? || s.currentStatus != status
    ensures Step(s, status, now) == Success(Decision(true, AlertState(Some(now), status, 1)))
  {
  }

  /**
   * A repeated alert status notifies exactly when its cooldown has elapsed (inclusive);
   * it then moves the time to `now` and adds one to the count, and otherwise changes nothing.
   */
  lemma SustainedStatusThrottled(s: AlertState, status: Status, now: int)
    requires s.lastNotificationTime.Some? && s.currentStatus == status && status != Ok
    ensures Step(s, status, now).Success?
    ensures var d := Step(s, status, now).value;
      && (d.notify <==> now - s.lastNotificationTime.value >= CooldownMinutes(status).value * SecondsPerMinute)
      && (d.notify ==> d.next == AlertState(Some(now), status, s.notificationCount + 1))
      && (!d.notify ==> d.next == s)
  {
  }

  /** The records the tracker can reach: the time is missing exactly while nothing was ever notified. */
  ghost predicate WellFormed(s: AlertState) {
    && s.notificationCount >= 0
    && (s.lastNotificationTime.None? <==> s.notificationCount == 0)
    && (s.lastNotificationTime.None? ==> s.currentStatus == Ok)
  }

  lemma StepPreservesWellFormed(s: AlertState, status: Status, now: int)
    requires WellFormed(s)
    ensures Step(s, status, now).Success? ==> WellFormed(Step(s, status, now).value.next)
    ensures Step(s, status, now).Success? ==> Step(s, status, now).value.next.notificationCount >= 1
  {
  }

  /**
   * The tracker applied to the monitor's table of records: a metric without a record raises,
   * and only the named metric's record can change.
   */
  function ShouldSend(states: map<string, AlertState>, metric: string, status: Status, now: int)
    : (r: Result<(bool, map<string, AlertState>)>)
    ensures metric !in states ==> r == Failure(UnknownMetric(metric))
    ensures metric in states && Step(states[metric], status, now).Failure? ==> r == Failure(NoCooldown(status))
    ensures r.Success? <==> metric in states && Step(states[metric], status, now).Success?
    ensures r.Success? ==> metric in states && r.value.1.Keys == states.Keys
    ensures r.Success? ==> forall m :: m in states && m != metric ==> r.value.1[m] == states[m]
    ensures r.Success? ==> r.value.1[metric].currentStatus == status
    ensures r.Success? ==> r.value.1 == states[metric := Step(states[metric], status, now).value.next]
    ensures r.Success? ==> r.value.0 == Step(states[metric], status, now).value.notify
  {
    if metric !in states then Failure(UnknownMetric(metric))
    else match Step(states[metric], status, now)
      case Failure(f) => Failure(f)
      case Success(d) => Success((d.notify, states[metric := d.next]))
  }

  /**
   * The throttling timeline for a sustained critical condition with the 5-minute cooldown:
   * notified at t, suppressed two minutes later, notified again once five minutes have passed.
   */
  lemma CriticalTimeline(t: int)
    ensures var d0 := Step(InitialAlertState, Critical, t).value;
      && d0.notify
      && var d1 := Step(d0.next, Critical, t + 2 * SecondsPerMinute).value;
      && !d1.notify
      && var d2 := Step(d1.next, Critical, t + 5 * SecondsPerMinute).value;
      && d2.notify && d2.next.notificationCount == 2
  {
  }
}
