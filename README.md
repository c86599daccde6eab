# Hardware monitor alert engine, in Dafny

This project models the alert engine of `EnhancedHardwareMonitor` in
`hardware_monitor.py`. The monitor samples host metrics and classifies each sample
against a warning/critical threshold pair. It debounces repeated alerts with a
per-metric cooldown and sends approved alerts to three sinks: a database record, a
pushbullet note and a channel-layer broadcast. It also keeps a bounded history per metric.

The modules follow the parts of that class:

- `Common`: `Option`, `Result`, `Status` (ok / warning / critical) and `Fault`. `Fault` lists the exceptions modelled as escaping from the code.
- `Classifier`: `check_metric`'s classification. The threshold table is `DefaultThresholds`. Polarity goes by metric name: only `"battery"` is bad when low.
- `AlertTracker`: the `AlertState` record. `Step` is one evaluation of one record. `ShouldSend` applies it to the table of records. It has the 15/5-minute cooldown table.
- `Dispatcher`: `send_notification` as a list of `Effect`s. An effect is a call into a sink, or the log line written when a caught call fails. `DispatchAlert` covers what happens after approval. `Notify` covers the whole call.
- `History`: the `deque(maxlen=1440)` (`Append`) and `get_history`'s time-window filter (`Window`).
- `Monitor`: the class `HardwareMonitor`. Its fields `alertStates` and `history` are maps that its methods reassign. Each method is specified by the pure functions above. `Evaluate` is `check_metric` on values.

Time is a parameter. Every `datetime.now()` becomes `now: int`, in seconds, and a cooldown is minutes × 60. Sample values and thresholds are `real`, because the code only compares them. Whether each sink call succeeds is a parameter too (`SinkOutcomes`).

The model follows the code in these places, where a reader might expect otherwise:

- Polarity is chosen by the metric's name (`metric == 'battery'`), not by a configuration field.
- 'ok' results never reach the tracker (hardware_monitor.py:168). So critical, then ok, then critical again is seen as "unchanged" and throttled (`RecoveryDoesNotResetCooldown`).
- The sinks are not isolated from each other:
  - `Alert.objects.create` is outside the `try`. If it fails, the exception escapes (`Fault.RecordFailed`) and nothing is pushed or broadcast.
  - The alert broadcast is inside the pushbullet branch, after the push. A failed push skips the broadcast, and without pushbullet `send_notification` never broadcasts an alert. (`check_all` still broadcasts every non-ok message on each cycle; that path is not modelled, see "## Left out".)
- An unchanged 'ok' status that reached the tracker would raise a `KeyError` on the cooldown table (`Fault.NoCooldown`). The same goes for a metric with no alert record or no history (`Fault.UnknownMetric`). The model keeps these error paths and does not exclude them by preconditions.

## Model

| member | source | states |
|---|---|---|
| `Classifier.Classify` | hardware_monitor.py:144-166 | For a non-battery metric: critical iff value > critical; warning iff warning < value <= critical; otherwise ok. For "battery": critical iff value < critical; warning iff critical <= value < warning; otherwise ok. The message is None exactly when the status is ok, and the value is returned unchanged. |
| `Classifier.AlertMessage` | hardware_monitor.py:149-168 | An alert message is never empty, so `if message:` always forwards an alert. |
| `Classifier.ClassifyMonotone` | hardware_monitor.py:145-166 | For a bad-when-high metric, a larger sample never gets a lower severity; for the battery, a smaller sample never does. |
| `Classifier.TableBoundaries` | hardware_monitor.py:29-38 | With the monitor's own table: cpu at 90 is a warning, at 80 ok, at 95 critical with "Critical: High cpu". Battery at 10 is a warning, at 20 ok, at 8 critical with "Critical: Low battery". |
| `AlertTracker.CooldownMinutes` | hardware_monitor.py:40-43 | Warning has a cooldown of 15 minutes and critical of 5. 'ok' has no entry. |
| `AlertTracker.Step` | hardware_monitor.py:77-94 | It raises exactly when an unchanged 'ok' reaches the cooldown lookup. On success the record's status is the evaluated status. A rejection leaves the record unchanged. An approval stamps `now` and sets the count to 1 or to the old count plus 1. |
| `AlertTracker.TransitionNotifies` | hardware_monitor.py:81-86 | A first evaluation, or a status different from the stored one, approves and sets the record to (now, status, 1). |
| `AlertTracker.SustainedStatusThrottled` | hardware_monitor.py:88-94 | A repeated alert status approves iff now − last >= cooldown (inclusive). On approval the time becomes now and the count grows by one; otherwise the record is unchanged. |
| `AlertTracker.StepPreservesWellFormed` | hardware_monitor.py:21-25 | Starting from a reachable record (no time exactly when the count is 0, and then status ok), every successful evaluation leaves a reachable record with count >= 1. |
| `AlertTracker.ShouldSend` | hardware_monitor.py:77-94 | A metric without a record raises KeyError. It succeeds exactly when the metric has a record and `Step` succeeds on it. On success only the named metric's record changes, the keys stay the same, and that record's status is the evaluated one. |
| `AlertTracker.CriticalTimeline` | hardware_monitor.py:88-94 | A sustained critical condition is approved at t, rejected at t+2 min, and approved again at t+5 min with count 2. |
| `Dispatcher.DispatchAlert` | hardware_monitor.py:100-124 | An approved alert starts with exactly one record (metric, status, message), and no later effect is a record. A record failure escapes and nothing follows it. A push happens iff pushbullet is set and the status is critical. The alert broadcast, carrying the given count, happens iff pushbullet is set and the push did not fail. No effect repeats, the push comes before the broadcast, and a logged failure is the last effect. A failure is logged iff a caught call failed. |
| `Dispatcher.Notify` | hardware_monitor.py:96-124 | A tracker fault escapes with no effects and no record changed. A rejection produces no effects and raises nothing. An approval produces exactly `DispatchAlert`'s effects and fault, with the notification count of the updated record. The records left behind are the tracker's. |
| `Dispatcher.NoPushbulletOnlyRecords` | hardware_monitor.py:102-122 | Without pushbullet, an evaluation produces either nothing or only the database record. |
| `History.Append` | hardware_monitor.py:126-130 | After an append the length is min(old+1, 1440) and the new entry is last. The entries kept before it are the newest of the old ones, in their old order. |
| `History.AppendEvictsOldest` | hardware_monitor.py:54-61 | On a full deque, an append drops exactly the oldest entry. |
| `History.AppendAllKeepsNewest` | hardware_monitor.py:54-61 | Any run of appends leaves the newest min(n, 1440) entries of old + new, in order. |
| `History.OverflowDropsFirst` | hardware_monitor.py:54-61 | 1441 appends into an empty deque leave all entries but the first, in order. |
| `History.Window` | hardware_monitor.py:139-142 | Every returned entry is stored and newer than the cutoff. Every stored entry newer than the cutoff is returned. |
| `History.WindowCounts` | hardware_monitor.py:139-142 | Each entry newer than the cutoff is returned as many times as it is stored; no other entry is returned. |
| `History.WindowIsSubsequence` | hardware_monitor.py:139-142 | The window preserves the stored order, as an order-preserving subsequence. |
| `History.WindowConcat` | hardware_monitor.py:139-142 | The filter is decided entry by entry: window(a + b) == window(a) + window(b). |
| `History.WindowAfterAppend` | hardware_monitor.py:126-142 | Reading after an append gives the earlier window, less the evicted front entry when the deque was full, plus the new entry when it is newer than the cutoff. |
| `History.WindowOfChronologicalIsSuffix` | hardware_monitor.py:132-142 | On a history in time order, the window is a suffix: all of the most recent entries. |
| `History.AppendKeepsChronological` | hardware_monitor.py:126-130 | Appending an entry no older than the last keeps the history in time order. |
| `Monitor.Evaluate` | hardware_monitor.py:144-175 | An ok result leaves the records untouched and produces no effects. An alert result goes to send_notification with its message. |
| `Monitor.RecoveryDoesNotResetCooldown` | hardware_monitor.py:168-169 | Critical, then ok, then critical again within 5 minutes: the first alerts, the ok changes no record, and the third sends nothing and changes nothing. |
| `Monitor.FirstCriticalAlertReachesEverySink` | hardware_monitor.py:96-124 | CPU at 95 on a fresh record, with pushbullet and working sinks, gives exactly record, push and broadcast with count 1. |
| `Monitor.LatencyGate` | hardware_monitor.py:375-379 | A missing or zero latency is not checked; any other latency is passed on unchanged. |
| `Monitor.CriticalRepeatIsSuppressed` | hardware_monitor.py:168-169 | On a real monitor object without pushbullet, the first critical CPU reading produces only the record. A repeat within the cooldown produces nothing, even after an ok in between. |
| `Monitor.HardwareMonitor.constructor` | hardware_monitor.py:28-73 | Six alert records start as (None, ok, 0) and six histories start empty. The pushbullet client exists iff a non-empty key was given and connecting did not raise. |
| `Monitor.HardwareMonitor.ShouldSendNotification` | hardware_monitor.py:77-94 | The record table and answer follow `ShouldSend`. The invariant is kept and the histories are untouched. |
| `Monitor.HardwareMonitor.SendNotification` | hardware_monitor.py:96-124 | Records, effects and fault follow `Notify`. |
| `Monitor.HardwareMonitor.UpdateHistory` | hardware_monitor.py:126-130 | An unknown metric raises and changes nothing. Otherwise only that metric's deque becomes `Append(old, (now, value))`. |
| `Monitor.HardwareMonitor.GetHistory` | hardware_monitor.py:132-142 | An unknown metric gives []. Otherwise it returns `Window` of the stored entries at cutoff now − minutes: each entry with a later timestamp, as often as it is stored, in stored order. The default is 60 minutes. |
| `Monitor.HardwareMonitor.CheckMetric` | hardware_monitor.py:144-175 | Records, effects and fault follow `Evaluate`. The classification is returned unless send_notification raised; in that case nothing is returned. An ok result changes no record and has no effect. |
| `Monitor.HardwareMonitor.RecordAndCheck` | hardware_monitor.py:217-223 | The history gets the sample, then the check runs as `Evaluate`. An unknown history key raises before any check. Nothing is returned once something raised. |
| `Monitor.HardwareMonitor.CheckNetworkLatency` | hardware_monitor.py:375-379 | A missing or zero latency is ok with no message, and no record changes. Any other latency is checked as "network" against the network_latency thresholds, and gives no verdict if the check raised. |

## Left out

- Metric collection through psutil, platform and the ping subprocess, including parsing ping output: these are OS and foreign calls. The collectors' shared core, which records the sample and then checks it, is `RecordAndCheck`. Its faults escape from check_cpu, check_ram, check_disk and check_battery. check_temperature's `except Exception` (hardware_monitor.py:313-331) turns them into a missing reading, and that wrapper is not modelled.
- The byte-rate computations for disk and network, and the `network_speed` history they feed: floating-point arithmetic over wall-clock differences.
- The formatted sample value (`.1f`, and the battery's `%`) at the end of each message: float formatting. A message is its status word, direction and metric name.
- GetHistory: does not model datetime's range. `timedelta(minutes=minutes)` beyond 999999999 days, or a cutoff `datetime.now() - timedelta(...)` outside years 1 to 9999, raises `OverflowError` (hardware_monitor.py:136-137). The model returns a window for every integer `minutes`, and `Fault` has no overflow case.
- History timestamps as isoformat strings: integer seconds instead, so the round trip through `fromisoformat` is not modelled.
- The clock: `datetime.now()` is a parameter. The code reads it separately in `update_history` (hardware_monitor.py:128), in `should_send_notification` (line 79) and again in `send_notification` for the broadcast timestamp. The model uses one `now` for all of these reads, so `RecordAndCheck` stamps the history entry with the same instant the tracker sees.
- Pushbullet, the Django `Alert` table (its auto timestamp included) and the channel layer: abstract effects whose success is a parameter.
- `check_all` (hardware_monitor.py:393-424): the snapshot broadcast, and the `{message, status}` broadcast it sends for every non-ok metric on every cycle. That second broadcast does not depend on pushbullet and is not debounced by the tracker. Also `run_monitor`'s endless loop with sleep and exception catching. Both are loop and transport plumbing.
- `get_system_info`: a library wrapper. The first `check_battery` (hardware_monitor.py:177-197) is shadowed by the later definition.
- fault_detection/consumers.py, views.py, models.py, urls.py, routing.py and test-redis.py: websocket, HTTP, ORM and Redis glue with no logic of their own.
