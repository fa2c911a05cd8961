/** `NotificationManager` of `src/lib/notifications.ts`: the rules that turn
    tasks, sensors and breakdowns into notifications, the three periodic
    checks, and the unread counters. The clock reading is the parameter `now`
    (milliseconds); the generated ids are supplied by the caller, as functions
    of the position of the element being processed. */
module Notifications {
  import opened Wrappers
  import opened Seqs
  import opened Time
  import opened Records
  import opened Storage

  // ---------------------------------------------------------------------------
  // Maintenance-due notices

  /** The priority ladder of `createMaintenanceNotification`; `None` when the
      task is more than a week away and nothing is announced. */
  function DuePriority(daysUntilDue: int): Option<Priority> {
    if daysUntilDue < 0 then Some(Urgent)
    else if daysUntilDue == 0 then Some(High)
    else if daysUntilDue <= 3 then Some(High)
    else if daysUntilDue <= 7 then Some(Medium)
    else None
  }

  function DueTitle(daysUntilDue: int): string {
    if daysUntilDue < 0 then "Maintenance en retard"
    else if daysUntilDue == 0 then "Maintenance due aujourd'hui"
    else if daysUntilDue <= 3 then "Maintenance bientôt due"
    else if daysUntilDue <= 7 then "Maintenance à programmer"
    else ""
  }

  /** The notification `createMaintenanceNotification` adds for `task` at
      `now`, if any. */
  function MaintenanceNotice(task: MaintenanceTask, now: int, id: string): Option<Notification> {
    var days := DaysUntil(task.scheduledDate, now);
    match DuePriority(days)
    case None => None
    case Some(priority) =>
      Some(Notification(id, MaintenanceDue, DueTitle(days), now, false, priority, Some(task.id), None, None))
  }

  function NoticeList(n: Option<Notification>): seq<Notification> {
    if n.Some? then [n.value] else []
  }

  // ---------------------------------------------------------------------------
  // Sensor and breakdown alerts

  /** `createSensorAlert`: an urgent alert about a critical sensor. */
  function SensorAlertFor(sensor: Sensor, now: int, id: string): Option<Notification> {
    if sensor.status == SensorCritical then
      Some(Notification(id, SensorAlert, "Alerte capteur - " + sensor.location, now, false, Urgent,
                        Some(sensor.id), None, None))
    else None
  }

  /** The severity to priority mapping of `createBreakdownAlert`. */
  function SeverityPriority(severity: Severity): Priority {
    match severity
    case SeverityCritical => Urgent
    case SeverityHigh => High
    case SeverityMedium => Medium
    case SeverityLow => Low
  }

  function PriorityRank(p: Priority): nat {
    match p
    case Low => 0
    case Medium => 1
    case High => 2
    case Urgent => 3
  }

  function SeverityRank(s: Severity): nat {
    match s
    case SeverityLow => 0
    case SeverityMedium => 1
    case SeverityHigh => 2
    case SeverityCritical => 3
  }

  function BreakdownAlertFor(equipmentName: string, severity: Severity, now: int, id: string): Notification {
    Notification(id, BreakdownAlert, "Panne signalée - " + equipmentName, now, false, SeverityPriority(severity),
                 None, None, None)
  }

  // ---------------------------------------------------------------------------
  // Duplicate suppression

  /** An unread maintenance notice about the task is already there. */
  predicate HasUnreadDue(ns: seq<Notification>, taskId: string) {
    exists n :: n in ns && n.kind == MaintenanceDue && n.relatedId == Some(taskId) && !n.read
  }

  /** An unread alert about the sensor less than 30 minutes old is already
      there. */
  predicate HasRecentAlert(ns: seq<Notification>, sensorId: string, now: int) {
    exists n :: n in ns && n.kind == SensorAlert && n.relatedId == Some(sensorId) && !n.read
                && now - n.timestamp < MsPerHalfHour
  }

  predicate IsScheduled(t: MaintenanceTask) { t.status == Scheduled }

  /** One task of `checkMaintenanceDue`: a task due within a week and not yet
      announced gets its notice in front. */
  function DueStep(task: MaintenanceTask, now: int, id: string, ns: seq<Notification>): seq<Notification> {
    if DaysUntil(task.scheduledDate, now) <= 7 && !HasUnreadDue(ns, task.id)
    then NoticeList(MaintenanceNotice(task, now, id)) + ns
    else ns
  }

  /** `checkMaintenanceDue` over `tasks` (the scheduled ones), starting from
      the notifications `ns`; the i-th task's notice gets id `idOf(i)`. Older
      notifications stay, in order, behind the new ones. */
  function DueRun(tasks: seq<MaintenanceTask>, now: int, idOf: nat -> string, ns: seq<Notification>): (r: seq<Notification>)
    ensures |r| >= |ns|
    ensures forall n :: n in ns ==> n in r
  {
    if |tasks| == 0 then ns
    else DueStep(tasks[|tasks| - 1], now, idOf(|tasks| - 1), DueRun(tasks[..|tasks| - 1], now, idOf, ns))
  }

  /** One sensor of `checkSensorAlerts`. */
  function SensorStep(sensor: Sensor, now: int, id: string, ns: seq<Notification>): seq<Notification> {
    if sensor.status == SensorCritical && !HasRecentAlert(ns, sensor.id, now)
    then NoticeList(SensorAlertFor(sensor, now, id)) + ns
    else ns
  }

  function SensorRun(sensors: seq<Sensor>, now: int, idOf: nat -> string, ns: seq<Notification>): (r: seq<Notification>)
    ensures |r| >= |ns|
    ensures forall n :: n in ns ==> n in r
  {
    if |sensors| == 0 then ns
    else SensorStep(sensors[|sensors| - 1], now, idOf(|sensors| - 1), SensorRun(sensors[..|sensors| - 1], now, idOf, ns))
  }

  // ---------------------------------------------------------------------------
  // Recurring tasks

  /** A completed task with a frequency and a completion date. */
  predicate Recurs(t: MaintenanceTask) {
    t.frequency.Some? && t.status == Completed && t.completedDate.Some?
  }

  /** The next due date after a completion. Days are exact; calendar months
      come from `addMonths(instant, months)`, which stands for `setMonth` and
      `setFullYear`. */
  function NextDueDate(completed: int, frequency: Frequency, addMonths: (int, int) -> int): int {
    match frequency
    case Daily => completed + MsPerDay
    case Weekly => completed + 7 * MsPerDay
    case Monthly => addMonths(completed, 1)
    case Quarterly => addMonths(completed, 3)
    case Annually => addMonths(completed, 12)
  }

  function NextDueOf(t: MaintenanceTask, addMonths: (int, int) -> int): int
    requires Recurs(t)
  {
    NextDueDate(t.completedDate.value, t.frequency.value, addMonths)
  }

  /** The task recurs and its next due date is today or past. */
  predicate RecurrenceDue(t: MaintenanceTask, now: int, addMonths: (int, int) -> int) {
    Recurs(t) && DaysUntil(NextDueOf(t, addMonths), now) <= 0
  }

  function IsRecurrenceDue(now: int, addMonths: (int, int) -> int): MaintenanceTask -> bool {
    (t: MaintenanceTask) => RecurrenceDue(t, now, addMonths)
  }

  /** The new occurrence: a copy under a new id, scheduled on the day of the
      next due date, with no completion yet. */
  function Recurrence(t: MaintenanceTask, id: string, addMonths: (int, int) -> int): MaintenanceTask
    requires Recurs(t)
  {
    t.(id := id, scheduledDate := DayStart(NextDueOf(t, addMonths)), status := Scheduled,
       completedDate := None, actualDuration := None)
  }

  /** The tasks `generateRecurringNotifications` appends, in order. */
  function NewTasks(tasks: seq<MaintenanceTask>, now: int, addMonths: (int, int) -> int, taskIdOf: nat -> string)
    : seq<MaintenanceTask>
  {
    if |tasks| == 0 then []
    else
      var last := tasks[|tasks| - 1];
      NewTasks(tasks[..|tasks| - 1], now, addMonths, taskIdOf)
        + (if RecurrenceDue(last, now, addMonths) then [Recurrence(last, taskIdOf(|tasks| - 1), addMonths)] else [])
  }

  /** The notifications it prepends in front of `ns`. */
  function RecurringNotices(tasks: seq<MaintenanceTask>, now: int, addMonths: (int, int) -> int,
                            taskIdOf: nat -> string, noticeIdOf: nat -> string, ns: seq<Notification>)
    : (r: seq<Notification>)
    ensures |r| >= |ns|
  {
    if |tasks| == 0 then ns
    else
      var last := tasks[|tasks| - 1];
      var before := RecurringNotices(tasks[..|tasks| - 1], now, addMonths, taskIdOf, noticeIdOf, ns);
      if RecurrenceDue(last, now, addMonths)
      then NoticeList(MaintenanceNotice(Recurrence(last, taskIdOf(|tasks| - 1), addMonths), now,
                                        noticeIdOf(|tasks| - 1))) + before
      else before
  }

  // ---------------------------------------------------------------------------
  // Counters

  predicate IsUnread(n: Notification) { !n.read }

  function UnreadWith(p: Priority): Notification -> bool {
    (n: Notification) => n.priority == p && !n.read
  }

  function UnreadCount(ns: seq<Notification>): nat { |Filter(ns, IsUnread)| }

  /** The four lists of `getNotificationsByPriority`. */
  datatype Buckets = Buckets(urgent: seq<Notification>, high: seq<Notification>,
                             medium: seq<Notification>, low: seq<Notification>)

  function ByPriority(ns: seq<Notification>): Buckets {
    Buckets(Filter(ns, UnreadWith(Urgent)), Filter(ns, UnreadWith(High)),
            Filter(ns, UnreadWith(Medium)), Filter(ns, UnreadWith(Low)))
  }

  /** The stored value of a key after a run that turned its list `before`
      into `after`: untouched when nothing was added. */
  function Persisted(before: Option<seq<Notification>>, after: seq<Notification>): Option<seq<Notification>> {
    if after == before.GetOr([]) then before else Some(after)
  }

  /** What a run leaves behind is what it computed. */
  lemma PersistedList(before: Option<seq<Notification>>, after: seq<Notification>)
    ensures Persisted(before, after).GetOr([]) == after
  {
  }

  /** Adding in front of a list that kept the old one stores the longer list. */
  lemma PersistedAdd(before: Option<seq<Notification>>, current: seq<Notification>, n: Notification)
    requires |current| >= |before.GetOr([])|
    ensures Persisted(before, [n] + current) == Some([n] + current)
  {
    assert |[n] + current| != |before.GetOr([])|;
  }

  /** The run over one more task is one more step. */
  lemma DueRunSnoc(tasks: seq<MaintenanceTask>, i: nat, now: int, idOf: nat -> string, ns: seq<Notification>)
    requires i < |tasks|
    ensures DueRun(tasks[..i + 1], now, idOf, ns) == DueStep(tasks[i], now, idOf(i), DueRun(tasks[..i], now, idOf, ns))
  {
    assert tasks[..i + 1][..i] == tasks[..i];
  }

  lemma SensorRunSnoc(sensors: seq<Sensor>, i: nat, now: int, idOf: nat -> string, ns: seq<Notification>)
    requires i < |sensors|
    ensures SensorRun(sensors[..i + 1], now, idOf, ns)
         == SensorStep(sensors[i], now, idOf(i), SensorRun(sensors[..i], now, idOf, ns))
  {
    assert sensors[..i + 1][..i] == sensors[..i];
  }

  lemma RecurringSnoc(tasks: seq<MaintenanceTask>, i: nat, now: int, addMonths: (int, int) -> int,
                      taskIdOf: nat -> string, noticeIdOf: nat -> string, ns: seq<Notification>)
    requires i < |tasks|
    ensures NewTasks(tasks[..i + 1], now, addMonths, taskIdOf)
         == NewTasks(tasks[..i], now, addMonths, taskIdOf)
            + (if RecurrenceDue(tasks[i], now, addMonths) then [Recurrence(tasks[i], taskIdOf(i), addMonths)] else [])
    ensures RecurringNotices(tasks[..i + 1], now, addMonths, taskIdOf, noticeIdOf, ns)
         == if RecurrenceDue(tasks[i], now, addMonths)
            then NoticeList(MaintenanceNotice(Recurrence(tasks[i], taskIdOf(i), addMonths), now, noticeIdOf(i)))
                 + RecurringNotices(tasks[..i], now, addMonths, taskIdOf, noticeIdOf, ns)
            else RecurringNotices(tasks[..i], now, addMonths, taskIdOf, noticeIdOf, ns)
  {
    assert tasks[..i + 1][..i] == tasks[..i];
  }

  /** What one more task of the recurring run leaves in the task list. */
  lemma RecurringTasksStep(tasks: seq<MaintenanceTask>, i: nat, now: int, addMonths: (int, int) -> int,
                           taskIdOf: nat -> string)
    requires i < |tasks|
    ensures tasks + NewTasks(tasks[..i + 1], now, addMonths, taskIdOf)
         == if RecurrenceDue(tasks[i], now, addMonths)
            then (tasks + NewTasks(tasks[..i], now, addMonths, taskIdOf)) + [Recurrence(tasks[i], taskIdOf(i), addMonths)]
            else tasks + NewTasks(tasks[..i], now, addMonths, taskIdOf)
  {
    RecurringSnoc(tasks, i, now, addMonths, taskIdOf, taskIdOf, []);
    var added := NewTasks(tasks[..i], now, addMonths, taskIdOf);
    if RecurrenceDue(tasks[i], now, addMonths) {
      assert (tasks + added) + [Recurrence(tasks[i], taskIdOf(i), addMonths)]
          == tasks + (added + [Recurrence(tasks[i], taskIdOf(i), addMonths)]);
    } else {
      assert added + [] == added;
    }
  }

  /** What one more task of the recurring run leaves stored. */
  lemma RecurringPersisted(tasks: seq<MaintenanceTask>, i: nat, now: int, addMonths: (int, int) -> int,
                           taskIdOf: nat -> string, noticeIdOf: nat -> string, before: Option<seq<Notification>>)
    requires i < |tasks|
    ensures var current := RecurringNotices(tasks[..i], now, addMonths, taskIdOf, noticeIdOf, before.GetOr([]));
      Persisted(before, RecurringNotices(tasks[..i + 1], now, addMonths, taskIdOf, noticeIdOf, before.GetOr([])))
      == if RecurrenceDue(tasks[i], now, addMonths)
            && MaintenanceNotice(Recurrence(tasks[i], taskIdOf(i), addMonths), now, noticeIdOf(i)).Some?
         then Some([MaintenanceNotice(Recurrence(tasks[i], taskIdOf(i), addMonths), now, noticeIdOf(i)).value] + current)
         else Persisted(before, current)
  {
    RecurringSnoc(tasks, i, now, addMonths, taskIdOf, noticeIdOf, before.GetOr([]));
    var current := RecurringNotices(tasks[..i], now, addMonths, taskIdOf, noticeIdOf, before.GetOr([]));
    if RecurrenceDue(tasks[i], now, addMonths) {
      var notice := MaintenanceNotice(Recurrence(tasks[i], taskIdOf(i), addMonths), now, noticeIdOf(i));
      if notice.Some? {
        PersistedAdd(before, current, notice.value);
      }
    }
  }

  // ---------------------------------------------------------------------------
  // The manager

  class NotificationManager {
    const store: StorageManager

    constructor (store: StorageManager)
      ensures this.store == store
    {
      this.store := store;
    }

    /** Adds the notice for `task`, if it is due within a week. */
    method CreateMaintenanceNotification(task: MaintenanceTask, now: int, id: string)
      modifies store`notifications
      ensures store.notifications
           == if MaintenanceNotice(task, now, id).Some?
              then Some([MaintenanceNotice(task, now, id).value] + old(store.NotificationList()))
              else old(store.notifications)
    {
      var daysUntilDue := DaysUntil(task.scheduledDate, now);
      var priority := Medium;
      var title := "";
      if daysUntilDue < 0 {
        priority := Urgent;
        title := "Maintenance en retard";
      } else if daysUntilDue == 0 {
        priority := High;
        title := "Maintenance due aujourd'hui";
      } else if daysUntilDue <= 3 {
        priority := High;
        title := "Maintenance bientôt due";
      } else if daysUntilDue <= 7 {
        priority := Medium;
        title := "Maintenance à programmer";
      }
      if title != "" {
        var notification := Notification(id, MaintenanceDue, title, now, false, priority, Some(task.id), None, None);
        store.AddNotification(notification);
      }
    }

    method CreateSensorAlert(sensor: Sensor, now: int, id: string)
      modifies store`notifications
      ensures store.notifications
           == if SensorAlertFor(sensor, now, id).Some?
              then Some([SensorAlertFor(sensor, now, id).value] + old(store.NotificationList()))
              else old(store.notifications)
    {
      if sensor.status == SensorCritical {
        var notification := Notification(id, SensorAlert, "Alerte capteur - " + sensor.location, now, false,
                                          Urgent, Some(sensor.id), None, None);
        store.AddNotification(notification);
      }
    }

    /** Always adds exactly one breakdown alert. */
    method CreateBreakdownAlert(equipmentName: string, severity: Severity, now: int, id: string)
      modifies store`notifications
      ensures store.notifications == Some([BreakdownAlertFor(equipmentName, severity, now, id)] + old(store.NotificationList()))
    {
      var priority := Medium;
      match severity {
        case SeverityCritical => priority := Urgent;
        case SeverityHigh => priority := High;
        case SeverityMedium => priority := Medium;
        case SeverityLow => priority := Low;
      }
      var notification := Notification(id, BreakdownAlert, "Panne signalée - " + equipmentName, now, false,
                                        priority, None, None, None);
      store.AddNotification(notification);
    }

    /** Announces every scheduled task due within a week that has no unread
        notice yet; the i-th scheduled task's notice gets id `idOf(i)`. */
    method CheckMaintenanceDue(now: int, idOf: nat -> string)
      modifies store`maintenanceTasks, store`notifications
      ensures store.maintenanceTasks == Some(old(store.TaskList()))
      ensures store.notifications == Persisted(old(store.notifications),
                DueRun(Filter(old(store.TaskList()), IsScheduled), now, idOf, old(store.NotificationList())))
    {
      var tasks := store.GetMaintenanceTasks();
      var scheduledTasks := Filter(tasks, IsScheduled);
      ghost var start := old(store.NotificationList());
      for i := 0 to |scheduledTasks|
        invariant store.maintenanceTasks == Some(tasks)
        invariant store.notifications == Persisted(old(store.notifications), DueRun(scheduledTasks[..i], now, idOf, start))
      {
        var task := scheduledTasks[i];
        ghost var current := DueRun(scheduledTasks[..i], now, idOf, start);
        DueRunSnoc(scheduledTasks, i, now, idOf, start);
        PersistedList(old(store.notifications), current);
        var daysUntilDue := DaysUntil(task.scheduledDate, now);
        if daysUntilDue <= 7 || daysUntilDue < 0 {
          var existingNotifications := store.GetNotifications();
          var hasExistingNotification := HasUnreadDue(existingNotifications, task.id);
          if !hasExistingNotification {
            CreateMaintenanceNotification(task, now, idOf(i));
            if MaintenanceNotice(task, now, idOf(i)).Some? {
              PersistedAdd(old(store.notifications), current, MaintenanceNotice(task, now, idOf(i)).value);
            }
          }
        }
      }
      assert scheduledTasks[..|scheduledTasks|] == scheduledTasks;
    }

    /** Alerts about every critical sensor without a recent unread alert; the
        i-th sensor's alert gets id `idOf(i)`. */
    method CheckSensorAlerts(now: int, idOf: nat -> string)
      modifies store`sensors, store`notifications
      ensures store.sensors == Some(old(store.SensorList(now)))
      ensures store.notifications == Persisted(old(store.notifications),
                SensorRun(old(store.SensorList(now)), now, idOf, old(store.NotificationList())))
    {
      var sensors := store.GetSensors(now);
      ghost var start := old(store.NotificationList());
      for i := 0 to |sensors|
        invariant store.sensors == Some(sensors)
        invariant store.notifications == Persisted(old(store.notifications), SensorRun(sensors[..i], now, idOf, start))
      {
        var sensor := sensors[i];
        ghost var current := SensorRun(sensors[..i], now, idOf, start);
        SensorRunSnoc(sensors, i, now, idOf, start);
        PersistedList(old(store.notifications), current);
        if sensor.status == SensorCritical {
          var existingNotifications := store.GetNotifications();
          var recentAlert := HasRecentAlert(existingNotifications, sensor.id, now);
          if !recentAlert {
            CreateSensorAlert(sensor, now, idOf(i));
            PersistedAdd(old(store.notifications), current, SensorAlertFor(sensor, now, idOf(i)).value);
          }
        }
      }
      assert sensors[..|sensors|] == sensors;
    }

    /** The callback `generateRecurringNotifications` runs on one task: when the
        task recurs and its next due date has come, stores the next occurrence
        under `taskId` and announces it. */
    method RecurTask(task: MaintenanceTask, now: int, addMonths: (int, int) -> int, taskId: string, noticeId: string)
      requires store.maintenanceTasks.Some?
      modifies store`maintenanceTasks, store`notifications
      ensures store.maintenanceTasks
           == if RecurrenceDue(task, now, addMonths)
              then Some(old(store.TaskList()) + [Recurrence(task, taskId, addMonths)])
              else old(store.maintenanceTasks)
      ensures store.notifications
           == if RecurrenceDue(task, now, addMonths) && MaintenanceNotice(Recurrence(task, taskId, addMonths), now, noticeId).Some?
              then Some([MaintenanceNotice(Recurrence(task, taskId, addMonths), now, noticeId).value] + old(store.NotificationList()))
              else old(store.notifications)
    {
      if task.frequency.Some? && task.status == Completed && task.completedDate.Some? {
        var completedDate := task.completedDate.value;
        var nextDueDate := NextDueDate(completedDate, task.frequency.value, addMonths);
        var daysUntilNext := DaysUntil(nextDueDate, now);
        if daysUntilNext <= 0 {
          var newTask := task.(id := taskId, scheduledDate := DayStart(nextDueDate), status := Scheduled,
                               completedDate := None, actualDuration := None);
          assert newTask == Recurrence(task, taskId, addMonths);
          store.AddMaintenanceTask(newTask);
          CreateMaintenanceNotification(newTask, now, noticeId);
        }
      }
    }

    /** For every completed recurring task whose next due date has come,
        appends its next occurrence and announces it. */
    method GenerateRecurringNotifications(now: int, addMonths: (int, int) -> int,
                                          taskIdOf: nat -> string, noticeIdOf: nat -> string)
      modifies store`maintenanceTasks, store`notifications
      ensures store.maintenanceTasks == Some(old(store.TaskList()) + NewTasks(old(store.TaskList()), now, addMonths, taskIdOf))
      ensures store.notifications == Persisted(old(store.notifications),
                RecurringNotices(old(store.TaskList()), now, addMonths, taskIdOf, noticeIdOf, old(store.NotificationList())))
    {
      var tasks := store.GetMaintenanceTasks();
      ghost var start := old(store.NotificationList());
      assert tasks + NewTasks(tasks[..0], now, addMonths, taskIdOf) == tasks;
      for i := 0 to |tasks|
        invariant store.maintenanceTasks == Some(tasks + NewTasks(tasks[..i], now, addMonths, taskIdOf))
        invariant store.notifications
               == Persisted(old(store.notifications), RecurringNotices(tasks[..i], now, addMonths, taskIdOf, noticeIdOf, start))
      {
        ghost var current := RecurringNotices(tasks[..i], now, addMonths, taskIdOf, noticeIdOf, start);
        RecurringTasksStep(tasks, i, now, addMonths, taskIdOf);
        RecurringPersisted(tasks, i, now, addMonths, taskIdOf, noticeIdOf, old(store.notifications));
        PersistedList(old(store.notifications), current);
        RecurTask(tasks[i], now, addMonths, taskIdOf(i), noticeIdOf(i));
      }
      assert tasks[..|tasks|] == tasks;
    }

    method MarkAsRead(notificationId: string)
      modifies store`notifications
      ensures FindFirst(old(store.NotificationList()), NotificationWithId(notificationId)).None?
              ==> store.notifications == old(store.notifications)
      ensures FindFirst(old(store.NotificationList()), NotificationWithId(notificationId)).Some?
              ==> store.notifications == Some(WithRead(old(store.NotificationList()), notificationId))
    {
      store.MarkNotificationAsRead(notificationId);
    }

    /** The number of unread notifications: the total size of the four
        priority lists. */
    function GetUnreadCount(): (count: nat)
      reads store
      ensures var b := GetNotificationsByPriority();
        count == |b.urgent| + |b.high| + |b.medium| + |b.low|
    {
      UnreadIsBucketTotal(store.NotificationList());
      UnreadCount(store.NotificationList())
    }

    /** The unread notifications split by priority; read ones are in none of
        the lists. */
    function GetNotificationsByPriority(): (b: Buckets)
      reads store
      ensures forall n :: n in b.urgent ==> n in store.NotificationList() && !n.read && n.priority == Urgent
      ensures forall n :: n in b.high ==> n in store.NotificationList() && !n.read && n.priority == High
      ensures forall n :: n in b.medium ==> n in store.NotificationList() && !n.read && n.priority == Medium
      ensures forall n :: n in b.low ==> n in store.NotificationList() && !n.read && n.priority == Low
      ensures forall n :: n in store.NotificationList() && !n.read ==>
        n in b.urgent || n in b.high || n in b.medium || n in b.low
    {
      ByPriority(store.NotificationList())
    }
  }

  // ---------------------------------------------------------------------------
  // Properties

  /** The unread count is the total size of the priority buckets. */
  lemma {:induction false} UnreadIsBucketTotal(ns: seq<Notification>)
    ensures var b := ByPriority(ns);
      UnreadCount(ns) == |b.urgent| + |b.high| + |b.medium| + |b.low|
  {
    if |ns| > 0 {
      UnreadIsBucketTotal(ns[..|ns| - 1]);
    }
  }

  /** The nearer (or later) the due date, the higher the priority; and beyond
      a week there is none. */
  lemma DuePriorityMonotone(d1: int, d2: int)
    requires d1 <= d2 && DuePriority(d2).Some?
    ensures DuePriority(d1).Some?
    ensures PriorityRank(DuePriority(d1).value) >= PriorityRank(DuePriority(d2).value)
  {
  }

  /** A task gets a notice exactly when it is due at most seven whole days
      after `now`. */
  lemma NoticeIffWithinAWeek(task: MaintenanceTask, now: int, id: string)
    ensures MaintenanceNotice(task, now, id).Some? <==> task.scheduledDate - now <= 7 * MsPerDay
  {
    DaysUntilAtMost(task.scheduledDate, now, 7);
  }

  /** A notice is urgent exactly when the task is at least a full day late: a
      task due earlier today counts as due today. */
  lemma UrgentIffADayLate(task: MaintenanceTask, now: int, id: string)
    ensures MaintenanceNotice(task, now, id).Some? && MaintenanceNotice(task, now, id).value.priority == Urgent
        <==> task.scheduledDate - now <= -MsPerDay
  {
    DaysUntilAtMost(task.scheduledDate, now, -1);
  }

  /** Severity maps onto priority one to one and in order. */
  lemma SeverityPriorityPreservesOrder(s1: Severity, s2: Severity)
    ensures SeverityRank(s1) <= SeverityRank(s2) <==> PriorityRank(SeverityPriority(s1)) <= PriorityRank(SeverityPriority(s2))
    ensures SeverityPriority(s1) == SeverityPriority(s2) ==> s1 == s2
  {
  }

  /** A sensor alert is created exactly for a critical sensor, and it is an
      urgent unread alert about that sensor. */
  lemma SensorAlertShape(sensor: Sensor, now: int, id: string)
    ensures SensorAlertFor(sensor, now, id).Some? <==> sensor.status == SensorCritical
    ensures SensorAlertFor(sensor, now, id).Some? ==>
      var n := SensorAlertFor(sensor, now, id).value;
      n.kind == SensorAlert && n.priority == Urgent && n.relatedId == Some(sensor.id) && !n.read
  {
  }

  /** The maintenance check keeps every older notification, in order, behind
      the ones it adds. */
  lemma {:induction false} DueRunKeepsOlder(tasks: seq<MaintenanceTask>, now: int, idOf: nat -> string, ns: seq<Notification>)
    ensures var r := DueRun(tasks, now, idOf, ns); r[|r| - |ns|..] == ns
  {
    if |tasks| > 0 {
      var before := DueRun(tasks[..|tasks| - 1], now, idOf, ns);
      var r := DueRun(tasks, now, idOf, ns);
      DueRunKeepsOlder(tasks[..|tasks| - 1], now, idOf, ns);
      assert r[|r| - |before|..] == before;
      assert r[|r| - |ns|..] == before[|before| - |ns|..];
    }
  }

  /** After the maintenance check every scheduled task due within a week has
      an unread notice. */
  lemma {:induction false} DueRunCovers(tasks: seq<MaintenanceTask>, now: int, idOf: nat -> string, ns: seq<Notification>)
    ensures forall t :: t in tasks && DaysUntil(t.scheduledDate, now) <= 7 ==> HasUnreadDue(DueRun(tasks, now, idOf, ns), t.id)
  {
    if |tasks| > 0 {
      var prefix := tasks[..|tasks| - 1];
      var last := tasks[|tasks| - 1];
      DueRunCovers(prefix, now, idOf, ns);
      var before := DueRun(prefix, now, idOf, ns);
      var after := DueRun(tasks, now, idOf, ns);
      assert after == DueStep(last, now, idOf(|tasks| - 1), before);
      forall t | t in tasks && DaysUntil(t.scheduledDate, now) <= 7
        ensures HasUnreadDue(after, t.id)
      {
        if t in prefix {
          var n :| n in before && n.kind == MaintenanceDue && n.relatedId == Some(t.id) && !n.read;
          assert n in after;
        } else {
          assert t == last;
          if !HasUnreadDue(before, t.id) {
            assert MaintenanceNotice(t, now, idOf(|tasks| - 1)).value in after;
          } else {
            var n :| n in before && n.kind == MaintenanceDue && n.relatedId == Some(t.id) && !n.read;
            assert n in after;
          }
        }
      }
    }
  }

  /** When every task that would be announced already has an unread notice,
      the maintenance check adds nothing. */
  lemma {:induction false} DueRunQuiet(tasks: seq<MaintenanceTask>, now: int, idOf: nat -> string, ns: seq<Notification>)
    requires forall t :: t in tasks && DaysUntil(t.scheduledDate, now) <= 7 ==> HasUnreadDue(ns, t.id)
    ensures DueRun(tasks, now, idOf, ns) == ns
  {
    if |tasks| > 0 {
      var last := tasks[|tasks| - 1];
      DueRunQuiet(tasks[..|tasks| - 1], now, idOf, ns);
      assert last in tasks;
      assert DueStep(last, now, idOf(|tasks| - 1), ns) == ns;
    }
  }

  /** Running the maintenance check twice at the same instant adds nothing
      the second time, whatever ids it would use. */
  lemma DueRunIdempotent(tasks: seq<MaintenanceTask>, now: int, idOf: nat -> string, idOf2: nat -> string,
                         ns: seq<Notification>)
    ensures DueRun(tasks, now, idOf2, DueRun(tasks, now, idOf, ns)) == DueRun(tasks, now, idOf, ns)
  {
    DueRunCovers(tasks, now, idOf, ns);
    DueRunQuiet(tasks, now, idOf2, DueRun(tasks, now, idOf, ns));
  }

  /** The maintenance check adds only unread maintenance notices about the
      given tasks, at most one per task. */
  lemma {:induction false} DueRunAddsNotices(tasks: seq<MaintenanceTask>, now: int, idOf: nat -> string, ns: seq<Notification>)
    ensures var r := DueRun(tasks, now, idOf, ns);
      && |r| - |ns| <= |tasks|
      && forall k :: 0 <= k < |r| - |ns| ==>
           r[k].kind == MaintenanceDue && !r[k].read && r[k].timestamp == now
           && exists t :: t in tasks && r[k].relatedId == Some(t.id)
  {
    if |tasks| > 0 {
      var prefix := tasks[..|tasks| - 1];
      DueRunAddsNotices(prefix, now, idOf, ns);
      var before := DueRun(prefix, now, idOf, ns);
      var r := DueRun(tasks, now, idOf, ns);
      forall k | 0 <= k < |r| - |ns|
        ensures r[k].kind == MaintenanceDue && !r[k].read && r[k].timestamp == now
                && exists t :: t in tasks && r[k].relatedId == Some(t.id)
      {
        if |r| > |before| && k == 0 {
          assert r[0].relatedId == Some(tasks[|tasks| - 1].id);
        } else {
          var k' := k - (|r| - |before|);
          assert r[k] == before[k'];
          var t :| t in prefix && before[k'].relatedId == Some(t.id);
          assert t in tasks;
        }
      }
    }
  }

  /** The maintenance check adds at most one notice per task id: a task whose
      id already has an unread notice gets none. */
  lemma {:induction false} DueRunOnePerTask(tasks: seq<MaintenanceTask>, now: int, idOf: nat -> string, ns: seq<Notification>)
    ensures var r := DueRun(tasks, now, idOf, ns);
      forall j, k :: 0 <= j < k < |r| - |ns| ==> r[j].relatedId != r[k].relatedId
  {
    if |tasks| > 0 {
      var prefix := tasks[..|tasks| - 1];
      var last := tasks[|tasks| - 1];
      DueRunOnePerTask(prefix, now, idOf, ns);
      var before := DueRun(prefix, now, idOf, ns);
      var r := DueRun(tasks, now, idOf, ns);
      assert r == DueStep(last, now, idOf(|tasks| - 1), before);
      if |r| > |before| {
        DueRunAddsNotices(prefix, now, idOf, ns);
        AddedNoticeIsNew(r, before, |ns|, last.id);
      }
    }
  }

  /** A notice put in front of `before` about a task without an unread notice
      there differs, in what it is about, from the maintenance notices of
      `before`. */
  lemma AddedNoticeIsNew(r: seq<Notification>, before: seq<Notification>, older: nat, taskId: string)
    requires older <= |before| && |r| == |before| + 1 && r[1..] == before
    requires r[0].relatedId == Some(taskId) && !HasUnreadDue(before, taskId)
    requires forall k :: 0 <= k < |before| - older ==> before[k].kind == MaintenanceDue && !before[k].read
    requires forall j, k :: 0 <= j < k < |before| - older ==> before[j].relatedId != before[k].relatedId
    ensures forall j, k :: 0 <= j < k < |r| - older ==> r[j].relatedId != r[k].relatedId
  {
    forall j, k | 0 <= j < k < |r| - older
      ensures r[j].relatedId != r[k].relatedId
    {
      assert r[k] == before[k - 1] && before[k - 1] in before;
      if j > 0 {
        assert r[j] == before[j - 1];
      }
    }
  }

  /** A task whose id already has an unread maintenance notice gets no new
      one from the check. */
  lemma {:induction false} DueRunSkipsAnnounced(tasks: seq<MaintenanceTask>, now: int, idOf: nat -> string,
                                                ns: seq<Notification>, id: string)
    requires HasUnreadDue(ns, id)
    ensures forall k :: 0 <= k < |DueRun(tasks, now, idOf, ns)| - |ns| ==> DueRun(tasks, now, idOf, ns)[k].relatedId != Some(id)
  {
    if |tasks| > 0 {
      var prefix := tasks[..|tasks| - 1];
      var last := tasks[|tasks| - 1];
      DueRunSkipsAnnounced(prefix, now, idOf, ns, id);
      var before := DueRun(prefix, now, idOf, ns);
      var r := DueRun(tasks, now, idOf, ns);
      assert r == DueStep(last, now, idOf(|tasks| - 1), before);
      if |r| > |before| {
        var n :| n in ns && n.kind == MaintenanceDue && n.relatedId == Some(id) && !n.read;
        assert n in before;
        assert r[0].relatedId == Some(last.id) && !HasUnreadDue(before, last.id);
        assert last.id != id;
        assert |r| == |before| + 1 && r[1..] == before;
        AddedNoticeIsAbout(r, before, |ns|, id);
      }
    }
  }

  /** A notice put in front of `before` that is not about `id`, where no added
      notice of `before` is, leaves no added notice about `id`. */
  lemma AddedNoticeIsAbout(r: seq<Notification>, before: seq<Notification>, older: nat, id: string)
    requires older <= |before| && |r| == |before| + 1 && r[1..] == before
    requires r[0].relatedId != Some(id)
    requires forall k :: 0 <= k < |before| - older ==> before[k].relatedId != Some(id)
    ensures forall k :: 0 <= k < |r| - older ==> r[k].relatedId != Some(id)
  {
    forall k | 1 <= k < |r| - older
      ensures r[k].relatedId != Some(id)
    {
      assert r[k] == before[k - 1];
    }
  }

  /** The sensor check keeps every older notification, in order, behind the
      ones it adds. */
  lemma {:induction false} SensorRunKeepsOlder(sensors: seq<Sensor>, now: int, idOf: nat -> string, ns: seq<Notification>)
    ensures var r := SensorRun(sensors, now, idOf, ns); r[|r| - |ns|..] == ns
  {
    if |sensors| > 0 {
      var before := SensorRun(sensors[..|sensors| - 1], now, idOf, ns);
      var r := SensorRun(sensors, now, idOf, ns);
      SensorRunKeepsOlder(sensors[..|sensors| - 1], now, idOf, ns);
      assert r[|r| - |before|..] == before;
      assert r[|r| - |ns|..] == before[|before| - |ns|..];
    }
  }

  /** After the sensor check every critical sensor has a recent unread alert. */
  lemma {:induction false} SensorRunCovers(sensors: seq<Sensor>, now: int, idOf: nat -> string, ns: seq<Notification>)
    ensures forall s :: s in sensors && s.status == SensorCritical ==> HasRecentAlert(SensorRun(sensors, now, idOf, ns), s.id, now)
  {
    if |sensors| > 0 {
      var prefix := sensors[..|sensors| - 1];
      var last := sensors[|sensors| - 1];
      SensorRunCovers(prefix, now, idOf, ns);
      var before := SensorRun(prefix, now, idOf, ns);
      var after := SensorRun(sensors, now, idOf, ns);
      assert after == SensorStep(last, now, idOf(|sensors| - 1), before);
      forall s | s in sensors && s.status == SensorCritical
        ensures HasRecentAlert(after, s.id, now)
      {
        if s in prefix {
          var n :| n in before && n.kind == SensorAlert && n.relatedId == Some(s.id) && !n.read
                   && now - n.timestamp < MsPerHalfHour;
          assert n in after;
        } else {
          assert s == last;
          if !HasRecentAlert(before, s.id, now) {
            assert SensorAlertFor(s, now, idOf(|sensors| - 1)).value in after;
          } else {
            var n :| n in before && n.kind == SensorAlert && n.relatedId == Some(s.id) && !n.read
                     && now - n.timestamp < MsPerHalfHour;
            assert n in after;
          }
        }
      }
    }
  }

  /** When every critical sensor already has a recent unread alert, the sensor
      check adds nothing. */
  lemma {:induction false} SensorRunQuiet(sensors: seq<Sensor>, now: int, idOf: nat -> string, ns: seq<Notification>)
    requires forall s :: s in sensors && s.status == SensorCritical ==> HasRecentAlert(ns, s.id, now)
    ensures SensorRun(sensors, now, idOf, ns) == ns
  {
    if |sensors| > 0 {
      var last := sensors[|sensors| - 1];
      SensorRunQuiet(sensors[..|sensors| - 1], now, idOf, ns);
      assert last in sensors;
      assert SensorStep(last, now, idOf(|sensors| - 1), ns) == ns;
    }
  }

  /** A second sensor check at the same instant adds nothing. */
  lemma SensorRunIdempotent(sensors: seq<Sensor>, now: int, idOf: nat -> string, idOf2: nat -> string,
                            ns: seq<Notification>)
    ensures SensorRun(sensors, now, idOf2, SensorRun(sensors, now, idOf, ns)) == SensorRun(sensors, now, idOf, ns)
  {
    SensorRunCovers(sensors, now, idOf, ns);
    SensorRunQuiet(sensors, now, idOf2, SensorRun(sensors, now, idOf, ns));
  }

  /** A sensor that already has an unread alert less than 30 minutes old gets
      no new one from the check. */
  lemma {:induction false} SensorRunSkipsAlerted(sensors: seq<Sensor>, now: int, idOf: nat -> string,
                                                 ns: seq<Notification>, id: string)
    requires HasRecentAlert(ns, id, now)
    ensures forall k :: 0 <= k < |SensorRun(sensors, now, idOf, ns)| - |ns| ==> SensorRun(sensors, now, idOf, ns)[k].relatedId != Some(id)
  {
    if |sensors| > 0 {
      var prefix := sensors[..|sensors| - 1];
      var last := sensors[|sensors| - 1];
      SensorRunSkipsAlerted(prefix, now, idOf, ns, id);
      var before := SensorRun(prefix, now, idOf, ns);
      var r := SensorRun(sensors, now, idOf, ns);
      assert r == SensorStep(last, now, idOf(|sensors| - 1), before);
      if |r| > |before| {
        var n :| n in ns && n.kind == SensorAlert && n.relatedId == Some(id) && !n.read
                 && now - n.timestamp < MsPerHalfHour;
        assert n in before;
        assert r[0].relatedId == Some(last.id) && !HasRecentAlert(before, last.id, now);
        assert last.id != id;
        assert |r| == |before| + 1 && r[1..] == before;
        AddedNoticeIsAbout(r, before, |ns|, id);
      }
    }
  }

  /** What the sensor check adds: at most one alert per sensor, each an
      urgent unread sensor alert about a critical sensor of the list, stamped
      now. */
  lemma {:induction false} SensorRunAddsAlerts(sensors: seq<Sensor>, now: int, idOf: nat -> string, ns: seq<Notification>)
    ensures var r := SensorRun(sensors, now, idOf, ns);
      && |r| - |ns| <= |sensors|
      && forall k :: 0 <= k < |r| - |ns| ==>
           r[k].kind == SensorAlert && !r[k].read && r[k].priority == Urgent && r[k].timestamp == now
           && exists s :: s in sensors && s.status == SensorCritical && r[k].relatedId == Some(s.id)
  {
    if |sensors| > 0 {
      var prefix := sensors[..|sensors| - 1];
      var last := sensors[|sensors| - 1];
      SensorRunAddsAlerts(prefix, now, idOf, ns);
      var before := SensorRun(prefix, now, idOf, ns);
      var r := SensorRun(sensors, now, idOf, ns);
      assert r == SensorStep(last, now, idOf(|sensors| - 1), before);
      forall k | 0 <= k < |r| - |ns|
        ensures r[k].kind == SensorAlert && !r[k].read && r[k].priority == Urgent && r[k].timestamp == now
                && exists s :: s in sensors && s.status == SensorCritical && r[k].relatedId == Some(s.id)
      {
        if |r| > |before| && k == 0 {
          assert last in sensors && r[0].relatedId == Some(last.id);
        } else {
          var k' := k - (|r| - |before|);
          assert r[k] == before[k'];
          var s :| s in prefix && s.status == SensorCritical && before[k'].relatedId == Some(s.id);
          assert s in sensors;
        }
      }
    }
  }

  /** The new occurrence of a recurring task is scheduled (so it is looked at
      by the maintenance check and never recurs itself), keeps everything else
      of the original, is scheduled no later than `now`, and is always
      announced, urgently or with high priority. */
  lemma RecurrenceIsAnnounced(t: MaintenanceTask, now: int, addMonths: (int, int) -> int, id: string, noticeId: string)
    requires RecurrenceDue(t, now, addMonths)
    ensures var r := Recurrence(t, id, addMonths);
      && IsScheduled(r) && !Recurs(r) && r.completedDate.None? && r.actualDuration.None?
      && r == t.(id := id, scheduledDate := r.scheduledDate, status := Scheduled,
                 completedDate := None, actualDuration := None)
      && r.scheduledDate <= NextDueOf(t, addMonths) < r.scheduledDate + MsPerDay
      && r.scheduledDate <= now
      && MaintenanceNotice(r, now, noticeId).Some?
      && MaintenanceNotice(r, now, noticeId).value.priority in {Urgent, High}
  {
    var next := NextDueOf(t, addMonths);
    var r := Recurrence(t, id, addMonths);
    DaysUntilNotPositive(next, now);
    DaysUntilNotPositive(r.scheduledDate, now);
  }

  /** One new task per completed recurring task whose next due date has come. */
  lemma {:induction false} NewTasksCount(tasks: seq<MaintenanceTask>, now: int, addMonths: (int, int) -> int,
                                         taskIdOf: nat -> string)
    ensures |NewTasks(tasks, now, addMonths, taskIdOf)| == |Filter(tasks, IsRecurrenceDue(now, addMonths))|
    ensures forall t :: t in NewTasks(tasks, now, addMonths, taskIdOf) ==> IsScheduled(t)
  {
    if |tasks| > 0 {
      NewTasksCount(tasks[..|tasks| - 1], now, addMonths, taskIdOf);
    }
  }

  /** Stored scheduled tasks never produce a new occurrence. */
  lemma {:induction false} NewTasksSkipScheduled(tasks: seq<MaintenanceTask>, extra: seq<MaintenanceTask>, now: int,
                                                 addMonths: (int, int) -> int, taskIdOf: nat -> string)
    requires forall t :: t in extra ==> IsScheduled(t)
    ensures NewTasks(tasks + extra, now, addMonths, taskIdOf) == NewTasks(tasks, now, addMonths, taskIdOf)
  {
    if |extra| == 0 {
      assert tasks + extra == tasks;
    } else {
      var rest := extra[..|extra| - 1];
      assert (tasks + extra)[..|tasks + extra| - 1] == tasks + rest;
      assert extra[|extra| - 1] in extra;
      NewTasksSkipScheduled(tasks, rest, now, addMonths, taskIdOf);
    }
  }

  /** The recurring check suppresses no duplicates: the completed task stays
      completed, so a second run at the same instant, over the list the first
      run stored, appends the same occurrences again. */
  lemma RecurringRunRepeats(tasks: seq<MaintenanceTask>, now: int, addMonths: (int, int) -> int, taskIdOf: nat -> string)
    ensures NewTasks(tasks + NewTasks(tasks, now, addMonths, taskIdOf), now, addMonths, taskIdOf)
         == NewTasks(tasks, now, addMonths, taskIdOf)
  {
    NewTasksCount(tasks, now, addMonths, taskIdOf);
    NewTasksSkipScheduled(tasks, NewTasks(tasks, now, addMonths, taskIdOf), now, addMonths, taskIdOf);
  }

  /** Each new task comes with exactly one notice. */
  lemma {:induction false} RecurringNoticesCount(tasks: seq<MaintenanceTask>, now: int, addMonths: (int, int) -> int,
                                                 taskIdOf: nat -> string, noticeIdOf: nat -> string, ns: seq<Notification>)
    ensures |RecurringNotices(tasks, now, addMonths, taskIdOf, noticeIdOf, ns)|
         == |ns| + |NewTasks(tasks, now, addMonths, taskIdOf)|
  {
    if |tasks| > 0 {
      var last := tasks[|tasks| - 1];
      RecurringNoticesCount(tasks[..|tasks| - 1], now, addMonths, taskIdOf, noticeIdOf, ns);
      if RecurrenceDue(last, now, addMonths) {
        RecurrenceIsAnnounced(last, now, addMonths, taskIdOf(|tasks| - 1), noticeIdOf(|tasks| - 1));
      }
    }
  }

  /** A new notification raises the unread count by one when it is unread. */
  lemma AddNotificationCount(n: Notification, ns: seq<Notification>)
    ensures UnreadCount([n] + ns) == UnreadCount(ns) + (if n.read then 0 else 1)
  {
    FilterAppend([n], ns, IsUnread);
    assert [n][..0] == [];
  }

  /** Marking a notification as read lowers the unread count by one when it
      finds an unread one, and leaves it otherwise. */
  lemma MarkReadCount(ns: seq<Notification>, id: string)
    ensures var i := FindFirst(ns, NotificationWithId(id));
      UnreadCount(WithRead(ns, id)) == UnreadCount(ns) - (if i.Some? && !ns[i.value].read then 1 else 0)
  {
    match FindFirst(ns, NotificationWithId(id))
    case None =>
    case Some(i) =>
      FilterCountUpdate(ns, i, MarkedRead(ns[i]), IsUnread);
  }
}
