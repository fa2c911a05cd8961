# GMAO reliability engine, record store and notifications, in Dafny

This project models the core of a maintenance-management application (GMAO) for a
thermal plant: heat exchangers, cooling towers, pumps and filters. It has three parts:

- **`PerformanceCalculator`** computes, for one piece of equipment and a time window,
  - MTBF (mean time between failures), MTTR (mean time to repair), availability, and the
    number of interventions;
  - per-equipment and fleet-wide averages of those four values;
  - an availability status band (excellent / good / warning / critical);
  - the direction of a trend.

  Files: `calculations.dfy` holds the operations and `calculation_properties.dfy` the
  lemmas about them.
- **`StorageManager`** is the application's record store: equipment, sensors, breakdowns,
  maintenance and planning tasks, notifications and thermal readings. A class models it,
  with one field per storage key. `None` means the key was never written. The behaviour
  modelled:
  - reads fall back to default data, and some of them store those defaults;
  - additions append, except notifications, which go to the front;
  - updates merge into the first record with the id, and deletes remove every record with it;
  - a sensor value update classifies the sensor against its thresholds.

  File: `storage.dfy`.
- **`NotificationManager`** works on top of the store. It models:
  - the maintenance-due priority ladder, sensor alerts, and breakdown alerts with a severity
    mapping;
  - the three periodic checks: maintenance due and sensor alerts, each with its duplicate
    suppression, and recurring tasks, which have none;
  - unread counters and priority buckets.

  File: `notifications.dfy`.

Shared pieces:

- `records.dfy`: the record types.
- `time.dfy`: milliseconds, hours, the rounded-up day count and the start of a UTC day.
- `seqs.dfy`: `filter`, `reduce` with `+`, `findIndex`/`find` followed by an in-place
  replacement, as functions on sequences, with their lemmas.
- `wrappers.dfy`: `Option`, JavaScript truthiness of an optional number, and min/max.

Conventions:

- **Instants** are integer milliseconds since the epoch. Durations in hours are `real`.
- **The measurement window** is closed: a breakdown or task whose start or scheduled date
  equals `periodStart` or `periodEnd` counts.
- **IEEE floating point** is replaced by exact reals. Where the source would divide by zero
  and produce NaN or Infinity, the model states the divisor as a precondition:
  availability needs a non-empty window, and the trend needs a non-zero previous value.
- **Parameters** stand in for:
  - the clock (`now`);
  - generated ids (`idOf`, `taskIdOf`, `noticeIdOf`, `newId`), as functions of the index
    of the record being processed;
  - calendar-month arithmetic (`addMonths`);
  - the randomly generated sample thermal readings (`sample`).

Behaviour worth knowing. Where it departs from the source's own comments, the model
follows the code:

- **Trend direction.** The comment at `src/lib/calculations.ts:265` reads the trend as
  improvement or degradation. `calculateTrend` decides up or down by the sign of
  `(current - previous) / previous`. With a negative previous value, a rise is therefore
  reported as "down" (`TrendForNegativeBaseline`).
- **Overlapping breakdowns.** The comment at `src/lib/calculations.ts:21` defines MTBF as
  total operating time divided by the number of failures. The code sums the clipped downtime
  of each breakdown without merging overlaps. Unlike availability, MTBF is not floored at 0.
  Two breakdowns covering the same window therefore give a negative "operating time" and a
  negative MTBF (`MtbfNegativeForOverlappingBreakdowns`).
- **A task late by less than a day.** The comment at `src/lib/notifications.ts:148` lists late
  tasks among those to notify. The day count is rounded up, so a task late by less than a day
  counts as "due today" (high priority). It is "late" (urgent) only from a full day overdue
  (`UrgentIffADayLate`).
- **Recurring tasks are generated again on every run.** The maintenance and sensor checks
  first look for a similar existing notification (comments at
  `src/lib/notifications.ts:150` and `:173`). `generateRecurringNotifications` has no such
  check before it adds a new occurrence. The completed task stays completed with its
  completion date, so each later run adds the same occurrence and its notice once more
  (`RecurringRunRepeats`).
- **The maintenance-check condition.** `daysUntilDue <= 7 || daysUntilDue < 0` at
  `src/lib/notifications.ts:149` is the same as `daysUntilDue <= 7`.

## Model

| member | source | states |
|---|---|---|
| Calculations.AccumulateDowntime | src/lib/calculations.ts:44-51 | the downtime loop returns the sum over the breakdowns of their resolved duration clipped to the window; unresolved ones add nothing |
| Calculations.CalculateMTBF | src/lib/calculations.ts:23-55 | returns exactly the MTBF specification `Mtbf` (whole window without failures, else the window minus the clipped downtime, shared among the breakdowns) |
| Calculations.CalculateAvailability | src/lib/calculations.ts:93-135 | returns exactly `Availability`, and the result is never negative |
| Calculations.CalculateEquipmentMetrics | src/lib/calculations.ts:165-186 | the four numeric indicators of one equipment, each equal to its specification |
| Calculations.CalculateGlobalMetrics | src/lib/calculations.ts:191-216 | the loop over the fleet yields unweighted means of the per-equipment MTBF, MTTR and availability (0 for an empty fleet) and the sum of their interventions |
| Calculations.Mttr | src/lib/calculations.ts:61-87 | 0 without resolved in-window breakdowns; otherwise MTTR times their number is their total unclipped repair time |
| Calculations.InterventionCount | src/lib/calculations.ts:140-160 | the count is at least the number of in-window breakdowns and at most the number of breakdowns plus tasks given |
| Calculations.GetPerformanceStatus | src/lib/calculations.ts:257-262 | excellent exactly from 95 up, critical exactly below 80 |
| Calculations.CalculateTrend | src/lib/calculations.ts:267-273 | stable exactly when the change is below 5% of the magnitude of the previous value |
| CalculationProperties.MtbfWithoutFailures | src/lib/calculations.ts:29-38 | no breakdown of this equipment starting in the window: MTBF is the window length in hours |
| CalculationProperties.OpenBreakdownsAddNoDowntime | src/lib/calculations.ts:45-51 | the downtime of a list equals that of its resolved breakdowns only |
| CalculationProperties.MtbfAllOpen | src/lib/calculations.ts:40-54 | unresolved breakdowns count in the denominator only: if all are open, MTBF is the window divided by their number |
| CalculationProperties.ClippedDowntimeBounds | src/lib/calculations.ts:46-50 | the clipped downtime of a well-formed breakdown starting in the window lies between 0 and the window length |
| CalculationProperties.WindowDowntimeNonNegative | src/lib/calculations.ts:44-51 | for well-formed breakdowns, the total clipped downtime is not negative |
| CalculationProperties.MtbfAtMostWindow | src/lib/calculations.ts:35-54 | for a forward window and well-formed breakdowns, MTBF never exceeds the window length |
| CalculationProperties.MtbfNegativeForOverlappingBreakdowns | src/lib/calculations.ts:44-54 | two breakdowns that both cover a 10-hour window give MTBF -5: overlaps are not merged and MTBF is not floored |
| CalculationProperties.MttrWithinRepairRange | src/lib/calculations.ts:61-87 | MTTR lies between the smallest and largest unclipped repair time of the resolved in-window breakdowns |
| CalculationProperties.MttrNonNegative | src/lib/calculations.ts:67-86 | MTTR is 0 without resolved in-window breakdowns, and never negative for well-formed ones |
| CalculationProperties.MttrIsNotClipped | src/lib/calculations.ts:78-86 | a 12-hour repair at the start of a 10-hour window gives MTTR 12 (unclipped) but MTBF 0 (clipped) |
| CalculationProperties.ThirtyDayScenario | src/lib/calculations.ts:23-87 | two 4-hour repairs in a 720-hour window give MTTR 4 and MTBF 356 |
| CalculationProperties.MaintenanceDowntimeNonNegative | src/lib/calculations.ts:119-129 | maintenance downtime is not negative when every task's effective duration is not |
| CalculationProperties.AvailabilityIsPercentage | src/lib/calculations.ts:100-134 | for a forward window, well-formed breakdowns and non-negative durations, availability lies in [0, 100] |
| CalculationProperties.AvailabilityWithoutDowntime | src/lib/calculations.ts:100-134 | without resolved in-window breakdowns and without completed in-window tasks, availability is exactly 100 |
| CalculationProperties.AvailabilityAgreesWithMtbf | src/lib/calculations.ts:40-54 | with at least one in-window breakdown, availability is max(0, (MTBF × breakdown count − maintenance downtime) / window hours × 100): both indicators subtract the same breakdown downtime |
| CalculationProperties.MaintenanceDowntimeAppend | src/lib/calculations.ts:119-129 | one more task adds actualDuration (or estimatedDuration when that is absent or 0) exactly when it is a completed task of the equipment with a completion date, scheduled in the window |
| CalculationProperties.InterventionCountAppendBreakdown | src/lib/calculations.ts:147-151 | one more breakdown adds one intervention exactly when it is of the equipment and starts in the window |
| CalculationProperties.InterventionCountAppendTask | src/lib/calculations.ts:153-157 | one more task adds one intervention exactly when it is of the equipment and scheduled in the window, whatever its status |
| CalculationProperties.InterventionCountCoversDowntimeEvents | src/lib/calculations.ts:140-160 | the intervention count is at least the in-window breakdowns plus the tasks counted as maintenance downtime |
| CalculationProperties.MeanWithin | src/lib/calculations.ts:203-213 | a fleet mean lies between the per-equipment extremes |
| CalculationProperties.GlobalMetricsOfEmptyFleet | src/lib/calculations.ts:208-215 | an empty fleet gives all-zero global metrics |
| CalculationProperties.GlobalAvailabilityIsPercentage | src/lib/calculations.ts:191-216 | global availability lies in [0, 100] under the per-equipment conditions |
| CalculationProperties.GlobalMetricsOfTwo | src/lib/calculations.ts:198-215 | with two pieces of equipment the global values are the plain averages and the plain sum of interventions |
| CalculationProperties.PerformanceStatusBands | src/lib/calculations.ts:257-262 | excellent iff at least 95, good iff in [90, 95), warning iff in [80, 90), critical iff below 80 |
| CalculationProperties.PerformanceStatusMonotone | src/lib/calculations.ts:257-262 | a higher availability never gets a worse status |
| CalculationProperties.TrendForPositiveBaseline | src/lib/calculations.ts:267-273 | for previous > 0: up iff current ≥ 1.05·previous, down iff current ≤ 0.95·previous, stable strictly between |
| CalculationProperties.TrendForNegativeBaseline | src/lib/calculations.ts:267-273 | for previous < 0 the directions are swapped: up iff current ≤ 1.05·previous, down iff current ≥ 0.95·previous |
| Time.DaysUntil | src/lib/notifications.ts:32 | the rounded-up day count d satisfies (d-1) days < t − now ≤ d days |
| Time.DayStart | src/lib/notifications.ts:227 | the date-only re-parse is the UTC midnight at or before the instant, less than a day before it |
| Time.DaysUntilNotPositive | src/lib/notifications.ts:221-223 | the day count is ≤ 0 exactly when the instant is not after now |
| Time.DaysUntilAtMost | src/lib/notifications.ts:146-149 | the day count is ≤ k exactly when the instant is at most k whole days after now |
| Time.DaysUntilMonotone | src/lib/notifications.ts:32 | a later instant is never fewer days away |
| Storage.StorageManager.constructor | src/lib/storage.ts:92-100 | a fresh store has no key written |
| Storage.StorageManager.GetCurrentUser | src/lib/storage.ts:103-106 | the stored user, or none |
| Storage.StorageManager.SetCurrentUser | src/lib/storage.ts:108-110 | stores the user |
| Storage.StorageManager.Logout | src/lib/storage.ts:112-114 | removes the user |
| Storage.StorageManager.GetEquipments | src/lib/storage.ts:117-120 | returns the stored list, or the four default equipments, which are then stored |
| Storage.StorageManager.AddEquipment | src/lib/storage.ts:126-130 | appends to the (defaulted) list |
| Storage.StorageManager.UpdateEquipment | src/lib/storage.ts:132-139 | the new list merges the updates into the first equipment with the id only |
| Storage.StorageManager.GetSensors | src/lib/storage.ts:142-145 | returns the stored sensors, or the six defaults stamped with now, which are then stored |
| Storage.StorageManager.UpdateSensorValue | src/lib/storage.ts:151-169 | the first sensor with the id gets the value, the time and its threshold status; the others are unchanged |
| Storage.StorageManager.GetBreakdowns | src/lib/storage.ts:172-175 | the stored breakdowns, or the empty list |
| Storage.StorageManager.AddBreakdown | src/lib/storage.ts:181-185 | appends |
| Storage.StorageManager.GetMaintenanceTasks | src/lib/storage.ts:188-191 | returns the stored tasks, or the two default tasks, which are then stored |
| Storage.StorageManager.AddMaintenanceTask | src/lib/storage.ts:197-201 | appends to the (defaulted) list |
| Storage.StorageManager.UpdateMaintenanceTask | src/lib/storage.ts:203-210 | merges the updates into the first task with the id only |
| Storage.StorageManager.DeleteMaintenanceTask | src/lib/storage.ts:212-216 | always stores the list without any task of that id |
| Storage.StorageManager.GetPlanningTasks | src/lib/storage.ts:219-226 | the stored planning tasks, otherwise the maintenance tasks (storing their defaults if needed) |
| Storage.StorageManager.AddPlanningTask | src/lib/storage.ts:232-241 | appends a copy of the task under the new id |
| Storage.StorageManager.UpdatePlanningTask | src/lib/storage.ts:243-250 | merges into the first planning task with the id; nothing is stored when there is none |
| Storage.StorageManager.DeletePlanningTask | src/lib/storage.ts:252-256 | stores the planning list without any task of that id |
| Storage.StorageManager.GetNotifications | src/lib/storage.ts:259-262 | the stored notifications, or the empty list |
| Storage.StorageManager.AddNotification | src/lib/storage.ts:268-272 | the new notification goes in front of the old ones |
| Storage.StorageManager.MarkNotificationAsRead | src/lib/storage.ts:274-281 | marks the first notification with the id as read; without one nothing is written |
| Storage.StorageManager.GetThermalReadings | src/lib/storage.ts:469-472 | the stored readings, or the sample, which is stored after the equipment list has been read (and defaulted) |
| Storage.StorageManager.AddThermalReading | src/lib/storage.ts:478-482 | appends to the (defaulted) readings |
| Storage.StorageManager.GetThermalReadingsByEquipment | src/lib/storage.ts:484-486 | exactly the readings of that equipment, in order |
| Storage.StorageManager.GetRecentThermalReadings | src/lib/storage.ts:488-495 | the readings of that equipment taken no earlier than `days` days before now; `days` defaults to 30 |
| Storage.UpdatedEquipmentsChangeOnlyFirstMatch | src/lib/storage.ts:132-139 | same length; no element with the id means no change; otherwise only the first match is replaced, by its merge |
| Storage.UpdatedTasksChangeOnlyFirstMatch | src/lib/storage.ts:203-210 | the same for tasks |
| Storage.EmptyUpdateIsNoOp | src/lib/storage.ts:136 | merging an empty update changes nothing |
| Storage.UpdatedEquipmentsIdempotent | src/lib/storage.ts:132-139 | repeating an update that keeps the id changes nothing more |
| Storage.UpdatedTasksIdempotent | src/lib/storage.ts:203-210 | the same for tasks |
| Storage.WithoutTaskRemovesExactlyTheId | src/lib/storage.ts:212-216 | deletion keeps exactly the tasks with another id; kept plus removed is the whole list |
| Storage.WithoutTaskKeepsOrder | src/lib/storage.ts:214 | deletion distributes over concatenation, so relative order is kept |
| Storage.WithoutTaskIdempotent | src/lib/storage.ts:214 | deleting twice is deleting once |
| Storage.ThresholdStatus | src/lib/storage.ts:158-165 | the classification is never "warning" |
| Storage.ZeroThresholdIgnored | src/lib/storage.ts:159-161 | a threshold of 0 behaves exactly as an absent one |
| Storage.ThresholdBands | src/lib/storage.ts:158-165 | with both thresholds non-zero, normal exactly when the value lies between them |
| Storage.SensorUpdateChangesOnlyFirstMatch | src/lib/storage.ts:151-169 | the first sensor with the id gets value, time and status, keeps its identity and thresholds; all others unchanged |
| Storage.WithReadIdempotent | src/lib/storage.ts:274-281 | marking as read twice is marking once |
| Storage.ReadingsByEquipmentAreExact | src/lib/storage.ts:484-486 | membership is exactly "has this equipment id", and order is kept |
| Notifications.NotificationManager.constructor | src/lib/notifications.ts:8-10 | the manager works on the given store |
| Notifications.NotificationManager.CreateMaintenanceNotification | src/lib/notifications.ts:29-70 | the step-by-step ladder adds exactly the specified notice in front, or nothing beyond a week |
| Notifications.NotificationManager.CreateSensorAlert | src/lib/notifications.ts:75-98 | adds one urgent alert about the sensor iff it is critical |
| Notifications.NotificationManager.CreateBreakdownAlert | src/lib/notifications.ts:103-132 | always adds exactly one breakdown alert with the mapped priority |
| Notifications.NotificationManager.CheckMaintenanceDue | src/lib/notifications.ts:137-163 | the loop over scheduled tasks leaves exactly the state of the specification run `DueRun` |
| Notifications.NotificationManager.CheckSensorAlerts | src/lib/notifications.ts:168-187 | the loop over sensors leaves exactly the state of `SensorRun` |
| Notifications.NotificationManager.RecurTask | src/lib/notifications.ts:196-236 | for one task: exactly when it recurs and its next due date has come, stores its next occurrence and adds that occurrence's notice in front; otherwise changes nothing |
| Notifications.NotificationManager.GenerateRecurringNotifications | src/lib/notifications.ts:192-238 | appends exactly `NewTasks` and prepends exactly `RecurringNotices` |
| Notifications.NotificationManager.MarkAsRead | src/lib/notifications.ts:265-267 | delegates to the store's mark-as-read |
| Notifications.NotificationManager.GetUnreadCount | src/lib/notifications.ts:272-275 | the unread count equals the total size of the four priority buckets |
| Notifications.NotificationManager.GetNotificationsByPriority | src/lib/notifications.ts:280-294 | the buckets hold only unread notifications of their priority, and every unread one is in a bucket |
| Notifications.DueRun | src/lib/notifications.ts:144-162 | the check never drops a notification and never shrinks the list |
| Notifications.SensorRun | src/lib/notifications.ts:171-186 | the same for the sensor check |
| Notifications.RecurringNotices | src/lib/notifications.ts:196-237 | the recurring check never shrinks the notification list |
| Notifications.UnreadIsBucketTotal | src/lib/notifications.ts:272-294 | unread count = urgent + high + medium + low bucket sizes |
| Notifications.DuePriorityMonotone | src/lib/notifications.ts:38-54 | an earlier due date never gets a lower priority, and is announced if a later one is |
| Notifications.NoticeIffWithinAWeek | src/lib/notifications.ts:38-69 | a task gets a notice exactly when it is due at most 7 days after now |
| Notifications.UrgentIffADayLate | src/lib/notifications.ts:32-40 | the notice is urgent exactly when the task is at least a full day overdue |
| Notifications.SeverityPriorityPreservesOrder | src/lib/notifications.ts:106-119 | the severity-to-priority mapping is one-to-one and order-preserving |
| Notifications.SensorAlertShape | src/lib/notifications.ts:75-97 | an alert exists iff the sensor is critical, and it is an urgent unread sensor alert about that sensor |
| Notifications.DueRunKeepsOlder | src/lib/notifications.ts:144-162 | older notifications stay, in order, behind the new ones |
| Notifications.DueRunCovers | src/lib/notifications.ts:144-162 | afterwards every scheduled task due within a week has an unread notice |
| Notifications.DueRunQuiet | src/lib/notifications.ts:151-160 | when every such task already has an unread notice, nothing is added |
| Notifications.DueRunIdempotent | src/lib/notifications.ts:137-163 | a second check at the same instant adds nothing, whatever ids it would use |
| Notifications.DueRunAddsNotices | src/lib/notifications.ts:56-68 | at most as many notices as tasks; each added one is an unread maintenance notice about one of the tasks, stamped now |
| Notifications.DueRunOnePerTask | src/lib/notifications.ts:151-160 | no two notices the check adds are about the same task |
| Notifications.DueRunSkipsAnnounced | src/lib/notifications.ts:150-160 | a task whose id already had an unread maintenance notice before the check gets no new notice from it; with `DueRunOnePerTask`, no task is announced twice |
| Notifications.SensorRunKeepsOlder | src/lib/notifications.ts:171-186 | older notifications stay, in order, behind the new ones |
| Notifications.SensorRunSkipsAlerted | src/lib/notifications.ts:173-184 | a sensor that already had an unread alert less than 30 minutes old before the check gets no new alert from it |
| Notifications.SensorRunAddsAlerts | src/lib/notifications.ts:171-186 | at most as many alerts as sensors; each added one is an urgent unread sensor alert about a critical sensor of the list, stamped now |
| Notifications.SensorRunCovers | src/lib/notifications.ts:171-186 | afterwards every critical sensor has an unread alert less than 30 minutes old |
| Notifications.SensorRunQuiet | src/lib/notifications.ts:174-184 | when every critical sensor already has one, nothing is added |
| Notifications.SensorRunIdempotent | src/lib/notifications.ts:168-187 | a second sensor check at the same instant adds nothing |
| Notifications.RecurrenceIsAnnounced | src/lib/notifications.ts:197-234 | the new occurrence is scheduled, without completion or actual duration, keeps the rest of the task, falls on the day of the next due date (no later than now), and is always announced, urgently or with high priority |
| Notifications.NewTasksSkipScheduled | src/lib/notifications.ts:197 | scheduled tasks appended to the list never produce a new occurrence |
| Notifications.RecurringRunRepeats | src/lib/notifications.ts:192-238 | a second run at the same instant, over the list the first run stored, adds the same new occurrences again: no duplicate suppression |
| Notifications.NewTasksCount | src/lib/notifications.ts:196-237 | one new scheduled task per completed recurring task whose next due date has come |
| Notifications.RecurringNoticesCount | src/lib/notifications.ts:233-234 | each new task comes with exactly one notice |
| Notifications.AddNotificationCount | src/lib/storage.ts:268-272 | adding a notification raises the unread count by one exactly when it is unread |
| Notifications.MarkReadCount | src/lib/storage.ts:274-281 | marking as read lowers the unread count by one exactly when it finds an unread notification |

## Left out

- The human-readable `message` of notifications. It is built from locale-formatted dates
  and numbers, so `Notification` has no message field. The condition "title and message
  both non-empty" therefore becomes "title non-empty". The two are equivalent, because the
  code always sets both together.
- `period` of `EquipmentMetrics`, a locale-formatted label, and `generateHistoricalData`,
  which reads the system clock and does calendar-month arithmetic and rounding.
- Browser storage and JSON (de)serialisation. One field per key replaces them. The
  singleton `getInstance` of both managers becomes a single object passed around.
- Timers (`startAutoChecks`, `runAllChecks`) and random id generation. Ids and `now` are
  parameters.
- The generation of sample thermal readings, which uses `Math.random`. `GetThermalReadings`
  receives that data as `sample`, but models that generating it reads, and may default, the
  equipment list.
- Calendar behaviour:
  - `setMonth` and `setFullYear` are abstracted into `addMonths`;
  - `setDate` day steps are exact multiples of 24 hours, so local-time daylight-saving
    shifts are ignored (`NextDueDate`, `GetRecentThermalReadings`);
  - dates that are stored and only displayed (installation and next-maintenance dates)
    stay strings, while dates the code compares or computes with are milliseconds.
- Storage.StorageManager.AddPlanningTask: does not add the `createdAt` timestamp, because
  planning tasks are modelled with the maintenance-task record, which has no such field.
- Storage.EquipmentPatch and Storage.TaskPatch: an update that sets a required field to
  `undefined` is not representable. For required fields `None` means "not in the update";
  optional fields can be cleared.
- IEEE floating point: NaN, infinities and rounding. Reals are exact, and zero divisors are
  excluded by preconditions (`Availability`, `CalculateTrend`).
