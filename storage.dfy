/** `StorageManager` of `src/lib/storage.ts` with the browser's key-value store
    replaced by fields: one field per key, `None` when the key has never been
    written. Reading a key falls back to its defaults (and, for equipment,
    sensors, maintenance tasks and thermal readings, writes those defaults
    back); every write replaces the whole list of its key. */
module Storage {
  import opened Wrappers
  import opened Seqs
  import opened Time
  import opened Records

  // ---------------------------------------------------------------------------
  // Default data

  /** The four pieces of equipment written on first read. */
  function DefaultEquipments(): seq<Equipment> {
    [ Equipment("eq-001", "Échangeur Thermique Principal", HeatExchanger, "Zone A - Ligne 1", Operational,
                "2023-01-15", "2025-02-15", "Alfa Laval", "M15-BFG",
                map["capacity" := "1000 kW", "maxTemperature" := "150°C", "maxPressure" := "10 bar"]),
      Equipment("eq-002", "Tour de Refroidissement Nord", CoolingTower, "Zone B - Extérieur", Operational,
                "2022-08-20", "2025-03-01", "SPX Cooling", "Marley NC",
                map["capacity" := "2000 m³/h", "height" := "15 m", "fanPower" := "45 kW"]),
      Equipment("eq-003", "Pompe Eau Primaire", WaterPump, "Salle des Machines", Operational,
                "2023-03-10", "2025-01-20", "Grundfos", "CR 64-2",
                map["flow" := "500 m³/h", "head" := "120 m", "power" := "75 kW"]),
      Equipment("eq-004", "Pompe Huile Hydraulique", OilPump, "Zone C - Hydraulique", UnderMaintenance,
                "2022-11-05", "2025-01-10", "Bosch Rexroth", "A10VSO",
                map["displacement" := "140 cm³/rev", "maxPressure" := "350 bar", "power" := "30 kW"]) ]
  }

  /** The six sensors written on first read, stamped with the time of that read. */
  function DefaultSensors(now: int): seq<Sensor> {
    [ Sensor("sen-001", "eq-004", Temperature, "Filtre Eau - Entrée", 22.5, "°C", now, Normal, Some(5.0), Some(50.0)),
      Sensor("sen-002", "eq-004", Temperature, "Filtre Eau - Sortie", 24.1, "°C", now, Normal, Some(5.0), Some(50.0)),
      Sensor("sen-003", "eq-004", Temperature, "Filtre Huile - Entrée", 45.3, "°C", now, Normal, Some(20.0), Some(80.0)),
      Sensor("sen-004", "eq-004", Temperature, "Filtre Huile - Sortie", 43.8, "°C", now, Normal, Some(20.0), Some(80.0)),
      Sensor("sen-005", "eq-004", Pressure, "Pompe Huile - Sortie", 285.5, "bar", now, Normal, Some(200.0), Some(350.0)),
      Sensor("sen-006", "eq-004", Pressure, "Pompe Huile - Retour", 15.2, "bar", now, Normal, Some(5.0), Some(50.0)) ]
  }

  /** 2025-01-15 and 2025-01-10 at 00:00 UTC, as the source's date-only strings
      parse. */
  const Jan15th2025: int := 1736899200000
  const Jan10th2025: int := 1736467200000

  /** The two preventive tasks written on first read. */
  function DefaultMaintenanceTasks(): seq<MaintenanceTask> {
    [ MaintenanceTask("task-001", "eq-001", Preventive, "Inspection Échangeur Thermique",
                      "Vérification des plaques et joints", Jan15th2025, None, Scheduled, None,
                      Some(Monthly), Medium, 4.0, None, None),
      MaintenanceTask("task-002", "eq-002", Preventive, "Nettoyage Tour de Refroidissement",
                      "Nettoyage des ventilateurs et bassins", Jan10th2025, None, Scheduled, None,
                      Some(Weekly), High, 8.0, None, None) ]
  }

  // ---------------------------------------------------------------------------
  // Partial updates (`{ ...record, ...updates }`)

  /** `Partial<Equipment>`: `None` leaves a field as it is. */
  datatype EquipmentPatch = EquipmentPatch(
    id: Option<string>,
    name: Option<string>,
    kind: Option<EquipmentType>,
    location: Option<string>,
    status: Option<EquipmentStatus>,
    installationDate: Option<string>,
    nextMaintenanceDate: Option<string>,
    manufacturer: Option<string>,
    model: Option<string>,
    specifications: Option<map<string, string>>)

  const NoEquipmentChange := EquipmentPatch(None, None, None, None, None, None, None, None, None, None)

  function MergeEquipment(e: Equipment, u: EquipmentPatch): Equipment {
    Equipment(
      u.id.GetOr(e.id), u.name.GetOr(e.name), u.kind.GetOr(e.kind), u.location.GetOr(e.location),
      u.status.GetOr(e.status), u.installationDate.GetOr(e.installationDate),
      u.nextMaintenanceDate.GetOr(e.nextMaintenanceDate), u.manufacturer.GetOr(e.manufacturer),
      u.model.GetOr(e.model), u.specifications.GetOr(e.specifications))
  }

  /** `Partial<MaintenanceTask>`. For an optional field, `Some(None)` is an
      update that sets it to `undefined`. */
  datatype TaskPatch = TaskPatch(
    id: Option<string>,
    equipmentId: Option<string>,
    kind: Option<TaskType>,
    title: Option<string>,
    description: Option<string>,
    scheduledDate: Option<int>,
    completedDate: Option<Option<int>>,
    status: Option<TaskStatus>,
    assignedTo: Option<Option<string>>,
    frequency: Option<Option<Frequency>>,
    priority: Option<Priority>,
    estimatedDuration: Option<real>,
    actualDuration: Option<Option<real>>,
    notes: Option<Option<string>>)

  const NoTaskChange := TaskPatch(None, None, None, None, None, None, None, None, None, None, None, None, None, None)

  function MergeTask(t: MaintenanceTask, u: TaskPatch): MaintenanceTask {
    MaintenanceTask(
      u.id.GetOr(t.id), u.equipmentId.GetOr(t.equipmentId), u.kind.GetOr(t.kind), u.title.GetOr(t.title),
      u.description.GetOr(t.description), u.scheduledDate.GetOr(t.scheduledDate),
      u.completedDate.GetOr(t.completedDate), u.status.GetOr(t.status), u.assignedTo.GetOr(t.assignedTo),
      u.frequency.GetOr(t.frequency), u.priority.GetOr(t.priority),
      u.estimatedDuration.GetOr(t.estimatedDuration), u.actualDuration.GetOr(t.actualDuration),
      u.notes.GetOr(t.notes))
  }

  function EquipmentWithId(id: string): Equipment -> bool { (e: Equipment) => e.id == id }
  function TaskWithId(id: string): MaintenanceTask -> bool { (t: MaintenanceTask) => t.id == id }
  function TaskWithoutId(id: string): MaintenanceTask -> bool { (t: MaintenanceTask) => t.id != id }
  function SensorWithId(id: string): Sensor -> bool { (s: Sensor) => s.id == id }
  function NotificationWithId(id: string): Notification -> bool { (n: Notification) => n.id == id }
  function ReadingOf(equipmentId: string): ThermalReading -> bool { (r: ThermalReading) => r.equipmentId == equipmentId }
  function ReadingSince(cutoff: int): ThermalReading -> bool { (r: ThermalReading) => r.timestamp >= cutoff }

  function ApplyEquipmentPatch(u: EquipmentPatch): Equipment -> Equipment { (e: Equipment) => MergeEquipment(e, u) }
  function ApplyTaskPatch(u: TaskPatch): MaintenanceTask -> MaintenanceTask { (t: MaintenanceTask) => MergeTask(t, u) }

  /** The effect of `updateEquipment` on the list. */
  function UpdatedEquipments(es: seq<Equipment>, id: string, u: EquipmentPatch): seq<Equipment> {
    UpdateFirst(es, EquipmentWithId(id), ApplyEquipmentPatch(u))
  }

  /** The effect of `updateMaintenanceTask` and `updatePlanningTask` on the list. */
  function UpdatedTasks(ts: seq<MaintenanceTask>, id: string, u: TaskPatch): seq<MaintenanceTask> {
    UpdateFirst(ts, TaskWithId(id), ApplyTaskPatch(u))
  }

  /** The effect of `deleteMaintenanceTask` and `deletePlanningTask` on the list. */
  function WithoutTask(ts: seq<MaintenanceTask>, id: string): seq<MaintenanceTask> {
    Filter(ts, TaskWithoutId(id))
  }

  // ---------------------------------------------------------------------------
  // Sensor thresholds

  /** The classification of `updateSensorValue`: critical below a truthy
      minimum or above a truthy maximum, normal otherwise; a threshold of 0
      counts as absent. */
  function ThresholdStatus(s: Sensor, value: real): (r: SensorStatus)
    ensures r != SensorWarning
  {
    if Truthy(s.minThreshold) && value < s.minThreshold.value then SensorCritical
    else if Truthy(s.maxThreshold) && value > s.maxThreshold.value then SensorCritical
    else Normal
  }

  /** The new state of the sensor that receives a value. */
  function WithValue(value: real, now: int): Sensor -> Sensor {
    (s: Sensor) => s.(value := value, timestamp := now, status := ThresholdStatus(s, value))
  }

  function MarkedRead(n: Notification): Notification { n.(read := true) }

  /** The effect of `markNotificationAsRead` on the list. */
  function WithRead(ns: seq<Notification>, id: string): seq<Notification> {
    UpdateFirst(ns, NotificationWithId(id), MarkedRead)
  }

  // ---------------------------------------------------------------------------
  // The store

  class StorageManager {
    var currentUser: Option<User>
    var equipments: Option<seq<Equipment>>
    var sensors: Option<seq<Sensor>>
    var breakdowns: Option<seq<Breakdown>>
    var maintenanceTasks: Option<seq<MaintenanceTask>>
    var planningTasks: Option<seq<MaintenanceTask>>
    var notifications: Option<seq<Notification>>
    var thermalReadings: Option<seq<ThermalReading>>

    /** An empty store: no key has been written. */
    constructor ()
      ensures currentUser == None && equipments == None && sensors == None && breakdowns == None
      ensures maintenanceTasks == None && planningTasks == None && notifications == None
      ensures thermalReadings == None
    {
      currentUser := None;
      equipments := None;
      sensors := None;
      breakdowns := None;
      maintenanceTasks := None;
      planningTasks := None;
      notifications := None;
      thermalReadings := None;
    }

    // What each getter returns, as a function of the store.

    function EquipmentList(): seq<Equipment> reads this { equipments.GetOr(DefaultEquipments()) }
    function SensorList(now: int): seq<Sensor> reads this { sensors.GetOr(DefaultSensors(now)) }
    function BreakdownList(): seq<Breakdown> reads this { breakdowns.GetOr([]) }
    function TaskList(): seq<MaintenanceTask> reads this { maintenanceTasks.GetOr(DefaultMaintenanceTasks()) }
    /** Planning tasks, or the maintenance tasks when none were ever saved. */
    function PlanningList(): seq<MaintenanceTask> reads this { planningTasks.GetOr(TaskList()) }
    function NotificationList(): seq<Notification> reads this { notifications.GetOr([]) }
    function ReadingList(sample: seq<ThermalReading>): seq<ThermalReading> reads this { thermalReadings.GetOr(sample) }

    // Users

    function GetCurrentUser(): (r: Option<User>) reads this
      ensures r == currentUser
    { currentUser }

    method SetCurrentUser(user: User)
      modifies this`currentUser
      ensures currentUser == Some(user)
    {
      currentUser := Some(user);
    }

    method Logout()
      modifies this`currentUser
      ensures currentUser == None
    {
      currentUser := None;
    }

    // Equipment

    /** The stored list, or the defaults, which are then stored. */
    method GetEquipments() returns (r: seq<Equipment>)
      modifies this`equipments
      ensures r == old(EquipmentList())
      ensures equipments == Some(r)
    {
      if equipments.Some? {
        r := equipments.value;
      } else {
        r := DefaultEquipments();
        equipments := Some(r);
      }
    }

    method AddEquipment(equipment: Equipment)
      modifies this`equipments
      ensures equipments == Some(old(EquipmentList()) + [equipment])
    {
      var es := GetEquipments();
      equipments := Some(es + [equipment]);
    }

    /** Merges `updates` into the first equipment with the id; without one the
        list is only written if it was the defaults. */
    method UpdateEquipment(equipmentId: string, updates: EquipmentPatch)
      modifies this`equipments
      ensures equipments == Some(UpdatedEquipments(old(EquipmentList()), equipmentId, updates))
    {
      var es := GetEquipments();
      var index := FindFirst(es, EquipmentWithId(equipmentId));
      if index.Some? {
        var i := index.value;
        equipments := Some(es[i := MergeEquipment(es[i], updates)]);
      }
    }

    // Sensors

    method GetSensors(now: int) returns (r: seq<Sensor>)
      modifies this`sensors
      ensures r == old(SensorList(now))
      ensures sensors == Some(r)
    {
      if sensors.Some? {
        r := sensors.value;
      } else {
        r := DefaultSensors(now);
        sensors := Some(r);
      }
    }

    /** Records a value on the first sensor with the id, stamps it with `now`
        and classifies it against its thresholds. */
    method UpdateSensorValue(sensorId: string, value: real, now: int)
      modifies this`sensors
      ensures sensors == Some(UpdateFirst(old(SensorList(now)), SensorWithId(sensorId), WithValue(value, now)))
    {
      var ss := GetSensors(now);
      var index := FindFirst(ss, SensorWithId(sensorId));
      if index.Some? {
        var i := index.value;
        var sensor := ss[i];
        var status;
        if Truthy(sensor.minThreshold) && value < sensor.minThreshold.value {
          status := SensorCritical;
        } else if Truthy(sensor.maxThreshold) && value > sensor.maxThreshold.value {
          status := SensorCritical;
        } else {
          status := Normal;
        }
        sensor := sensor.(value := value, timestamp := now, status := status);
        sensors := Some(ss[i := sensor]);
      }
    }

    // Breakdowns

    method GetBreakdowns() returns (r: seq<Breakdown>)
      ensures r == BreakdownList()
      ensures breakdowns.None? ==> r == []
    {
      r := if breakdowns.Some? then breakdowns.value else [];
    }

    method AddBreakdown(breakdown: Breakdown)
      modifies this`breakdowns
      ensures breakdowns == Some(old(BreakdownList()) + [breakdown])
    {
      var bs := GetBreakdowns();
      breakdowns := Some(bs + [breakdown]);
    }

    // Maintenance tasks

    method GetMaintenanceTasks() returns (r: seq<MaintenanceTask>)
      modifies this`maintenanceTasks
      ensures r == old(TaskList())
      ensures maintenanceTasks == Some(r)
    {
      if maintenanceTasks.Some? {
        r := maintenanceTasks.value;
      } else {
        r := DefaultMaintenanceTasks();
        maintenanceTasks := Some(r);
      }
    }

    method AddMaintenanceTask(task: MaintenanceTask)
      modifies this`maintenanceTasks
      ensures maintenanceTasks == Some(old(TaskList()) + [task])
    {
      var ts := GetMaintenanceTasks();
      maintenanceTasks := Some(ts + [task]);
    }

    method UpdateMaintenanceTask(taskId: string, updates: TaskPatch)
      modifies this`maintenanceTasks
      ensures maintenanceTasks == Some(UpdatedTasks(old(TaskList()), taskId, updates))
    {
      var ts := GetMaintenanceTasks();
      var index := FindFirst(ts, TaskWithId(taskId));
      if index.Some? {
        var i := index.value;
        maintenanceTasks := Some(ts[i := MergeTask(ts[i], updates)]);
      }
    }

    /** Always writes the list back, with every task of that id removed. */
    method DeleteMaintenanceTask(taskId: string)
      modifies this`maintenanceTasks
      ensures maintenanceTasks == Some(WithoutTask(old(TaskList()), taskId))
    {
      var ts := GetMaintenanceTasks();
      maintenanceTasks := Some(WithoutTask(ts, taskId));
    }

    // Planning tasks

    /** The stored planning tasks; otherwise the maintenance tasks (storing
        their defaults if need be, but not as planning tasks). */
    method GetPlanningTasks() returns (r: seq<MaintenanceTask>)
      modifies this`maintenanceTasks
      ensures r == old(PlanningList())
      ensures planningTasks.Some? ==> maintenanceTasks == old(maintenanceTasks)
      ensures planningTasks.None? ==> maintenanceTasks == Some(r)
    {
      if planningTasks.Some? {
        r := planningTasks.value;
      } else {
        r := GetMaintenanceTasks();
      }
    }

    /** Appends a copy of the task under the fresh id `newId`. */
    method AddPlanningTask(task: MaintenanceTask, newId: string)
      modifies this`maintenanceTasks, this`planningTasks
      ensures planningTasks == Some(old(PlanningList()) + [task.(id := newId)])
      ensures old(planningTasks).Some? ==> maintenanceTasks == old(maintenanceTasks)
      ensures old(planningTasks).None? ==> maintenanceTasks == Some(old(TaskList()))
    {
      var ts := GetPlanningTasks();
      planningTasks := Some(ts + [task.(id := newId)]);
    }

    method UpdatePlanningTask(taskId: string, updates: TaskPatch)
      modifies this`maintenanceTasks, this`planningTasks
      ensures var updated := UpdatedTasks(old(PlanningList()), taskId, updates);
        planningTasks == if old(planningTasks).None? && FindFirst(old(PlanningList()), TaskWithId(taskId)).None?
                         then None else Some(updated)
      ensures old(planningTasks).Some? ==> maintenanceTasks == old(maintenanceTasks)
      ensures old(planningTasks).None? ==> maintenanceTasks == Some(old(TaskList()))
    {
      var ts := GetPlanningTasks();
      var index := FindFirst(ts, TaskWithId(taskId));
      if index.Some? {
        var i := index.value;
        planningTasks := Some(ts[i := MergeTask(ts[i], updates)]);
      }
    }

    method DeletePlanningTask(taskId: string)
      modifies this`maintenanceTasks, this`planningTasks
      ensures planningTasks == Some(WithoutTask(old(PlanningList()), taskId))
      ensures old(planningTasks).Some? ==> maintenanceTasks == old(maintenanceTasks)
      ensures old(planningTasks).None? ==> maintenanceTasks == Some(old(TaskList()))
    {
      var ts := GetPlanningTasks();
      planningTasks := Some(WithoutTask(ts, taskId));
    }

    // Notifications

    method GetNotifications() returns (r: seq<Notification>)
      ensures r == NotificationList()
      ensures notifications.None? ==> r == []
    {
      r := if notifications.Some? then notifications.value else [];
    }

    /** Newest first: the notification goes to the front. */
    method AddNotification(notification: Notification)
      modifies this`notifications
      ensures notifications == Some([notification] + old(NotificationList()))
    {
      var ns := GetNotifications();
      notifications := Some([notification] + ns);
    }

    /** Marks the first notification with the id as read; the list is only
        written when there is one. */
    method MarkNotificationAsRead(notificationId: string)
      modifies this`notifications
      ensures FindFirst(old(NotificationList()), NotificationWithId(notificationId)).None?
              ==> notifications == old(notifications)
      ensures FindFirst(old(NotificationList()), NotificationWithId(notificationId)).Some?
              ==> notifications == Some(WithRead(old(NotificationList()), notificationId))
    {
      var ns := GetNotifications();
      var index := FindFirst(ns, NotificationWithId(notificationId));
      if index.Some? {
        var i := index.value;
        notifications := Some(ns[i := ns[i].(read := true)]);
      }
    }

    // Thermal readings

    /** The stored readings; otherwise `sample`, which stands for the generated
        sample data. Generating it reads the equipment list, which stores the
        default equipment if need be. */
    method GetThermalReadings(sample: seq<ThermalReading>) returns (r: seq<ThermalReading>)
      modifies this`thermalReadings, this`equipments
      ensures r == old(ReadingList(sample))
      ensures thermalReadings == Some(r)
      ensures old(thermalReadings).Some? ==> equipments == old(equipments)
      ensures old(thermalReadings).None? ==> equipments == Some(old(EquipmentList()))
    {
      if thermalReadings.Some? {
        r := thermalReadings.value;
      } else {
        var _ := GetEquipments();
        r := sample;
        thermalReadings := Some(r);
      }
    }

    method AddThermalReading(reading: ThermalReading, sample: seq<ThermalReading>)
      modifies this`thermalReadings, this`equipments
      ensures thermalReadings == Some(old(ReadingList(sample)) + [reading])
      ensures old(thermalReadings).Some? ==> equipments == old(equipments)
      ensures old(thermalReadings).None? ==> equipments == Some(old(EquipmentList()))
    {
      var rs := GetThermalReadings(sample);
      thermalReadings := Some(rs + [reading]);
    }

    method GetThermalReadingsByEquipment(equipmentId: string, sample: seq<ThermalReading>)
      returns (r: seq<ThermalReading>)
      modifies this`thermalReadings, this`equipments
      ensures r == Filter(old(ReadingList(sample)), ReadingOf(equipmentId))
      ensures thermalReadings == Some(old(ReadingList(sample)))
      ensures old(thermalReadings).Some? ==> equipments == old(equipments)
      ensures old(thermalReadings).None? ==> equipments == Some(old(EquipmentList()))
    {
      var rs := GetThermalReadings(sample);
      r := Filter(rs, ReadingOf(equipmentId));
    }

    /** Readings of the equipment taken at most `days` days before `now`. */
    method GetRecentThermalReadings(equipmentId: string, now: int, sample: seq<ThermalReading>, days: int := 30)
      returns (r: seq<ThermalReading>)
      modifies this`thermalReadings, this`equipments
      ensures r == Filter(Filter(old(ReadingList(sample)), ReadingOf(equipmentId)), ReadingSince(now - days * MsPerDay))
      ensures thermalReadings == Some(old(ReadingList(sample)))
      ensures old(thermalReadings).Some? ==> equipments == old(equipments)
      ensures old(thermalReadings).None? ==> equipments == Some(old(EquipmentList()))
    {
      var cutoffDate := now - days * MsPerDay;
      var ofEquipment := GetThermalReadingsByEquipment(equipmentId, sample);
      r := Filter(ofEquipment, ReadingSince(cutoffDate));
    }
  }

  // ---------------------------------------------------------------------------
  // Properties of the list operations

  /** An update never changes the length, changes nothing when no element has
      the id, and otherwise changes the first element with the id only. */
  lemma UpdatedEquipmentsChangeOnlyFirstMatch(es: seq<Equipment>, id: string, u: EquipmentPatch)
    ensures |UpdatedEquipments(es, id, u)| == |es|
    ensures (forall e :: e in es ==> e.id != id) ==> UpdatedEquipments(es, id, u) == es
    ensures forall i :: 0 <= i < |es| && es[i].id == id && (forall j :: 0 <= j < i ==> es[j].id != id) ==>
      && UpdatedEquipments(es, id, u)[i] == MergeEquipment(es[i], u)
      && (forall j :: 0 <= j < |es| && j != i ==> UpdatedEquipments(es, id, u)[j] == es[j])
  {
    forall i | 0 <= i < |es| && es[i].id == id && (forall j :: 0 <= j < i ==> es[j].id != id)
      ensures FindFirst(es, EquipmentWithId(id)) == Some(i)
    {
      var k := FindFirst(es, EquipmentWithId(id));
      assert k.Some?;
      assert !(k.value < i);
    }
    if forall e :: e in es ==> e.id != id {
      assert FindFirst(es, EquipmentWithId(id)) == None;
    }
  }

  /** The same for maintenance and planning tasks. */
  lemma UpdatedTasksChangeOnlyFirstMatch(ts: seq<MaintenanceTask>, id: string, u: TaskPatch)
    ensures |UpdatedTasks(ts, id, u)| == |ts|
    ensures (forall t :: t in ts ==> t.id != id) ==> UpdatedTasks(ts, id, u) == ts
    ensures forall i :: 0 <= i < |ts| && ts[i].id == id && (forall j :: 0 <= j < i ==> ts[j].id != id) ==>
      && UpdatedTasks(ts, id, u)[i] == MergeTask(ts[i], u)
      && (forall j :: 0 <= j < |ts| && j != i ==> UpdatedTasks(ts, id, u)[j] == ts[j])
  {
    forall i | 0 <= i < |ts| && ts[i].id == id && (forall j :: 0 <= j < i ==> ts[j].id != id)
      ensures FindFirst(ts, TaskWithId(id)) == Some(i)
    {
      var k := FindFirst(ts, TaskWithId(id));
      assert k.Some?;
      assert !(k.value < i);
    }
    if forall t :: t in ts ==> t.id != id {
      assert FindFirst(ts, TaskWithId(id)) == None;
    }
  }

  /** An empty update changes nothing. */
  lemma EmptyUpdateIsNoOp(es: seq<Equipment>, ts: seq<MaintenanceTask>, id: string)
    ensures UpdatedEquipments(es, id, NoEquipmentChange) == es
    ensures UpdatedTasks(ts, id, NoTaskChange) == ts
  {
  }

  /** Applying the same update twice is applying it once, as long as it does not
      move the record to another id. */
  lemma UpdatedEquipmentsIdempotent(es: seq<Equipment>, id: string, u: EquipmentPatch)
    requires u.id.None? || u.id == Some(id)
    ensures UpdatedEquipments(UpdatedEquipments(es, id, u), id, u) == UpdatedEquipments(es, id, u)
  {
    UpdateFirstIdempotent(es, EquipmentWithId(id), ApplyEquipmentPatch(u));
  }

  lemma UpdatedTasksIdempotent(ts: seq<MaintenanceTask>, id: string, u: TaskPatch)
    requires u.id.None? || u.id == Some(id)
    ensures UpdatedTasks(UpdatedTasks(ts, id, u), id, u) == UpdatedTasks(ts, id, u)
  {
    UpdateFirstIdempotent(ts, TaskWithId(id), ApplyTaskPatch(u));
  }

  /** Deleting removes every task with the id and nothing else: what is left
      and what was removed add up to the original list. */
  lemma WithoutTaskRemovesExactlyTheId(ts: seq<MaintenanceTask>, id: string)
    ensures forall t :: t in WithoutTask(ts, id) <==> t in ts && t.id != id
    ensures |WithoutTask(ts, id)| + |Filter(ts, TaskWithId(id))| == |ts|
  {
    var all := (t: MaintenanceTask) => true;
    FilterAll(ts, all);
    FilterDisjointCount(ts, TaskWithoutId(id), TaskWithId(id), all);
  }

  /** Deleting keeps the relative order of the remaining tasks: it distributes
      over concatenation. */
  lemma WithoutTaskKeepsOrder(a: seq<MaintenanceTask>, b: seq<MaintenanceTask>, id: string)
    ensures WithoutTask(a + b, id) == WithoutTask(a, id) + WithoutTask(b, id)
  {
    FilterAppend(a, b, TaskWithoutId(id));
  }

  /** Deleting twice is deleting once. */
  lemma WithoutTaskIdempotent(ts: seq<MaintenanceTask>, id: string)
    ensures WithoutTask(WithoutTask(ts, id), id) == WithoutTask(ts, id)
  {
    FilterIdempotent(ts, TaskWithoutId(id));
  }

  /** A threshold of 0 is ignored, exactly like an absent one. */
  lemma ZeroThresholdIgnored(s: Sensor, value: real)
    ensures ThresholdStatus(s.(minThreshold := Some(0.0)), value) == ThresholdStatus(s.(minThreshold := None), value)
    ensures ThresholdStatus(s.(maxThreshold := Some(0.0)), value) == ThresholdStatus(s.(maxThreshold := None), value)
  {
  }

  /** A value within both (non-zero) thresholds is normal; one strictly
      outside a non-zero threshold is critical. */
  lemma ThresholdBands(s: Sensor, value: real)
    requires s.minThreshold.Some? && s.maxThreshold.Some?
    requires s.minThreshold.value != 0.0 && s.maxThreshold.value != 0.0
    ensures ThresholdStatus(s, value) == Normal
        <==> s.minThreshold.value <= value <= s.maxThreshold.value
  {
  }

  /** Updating a sensor value changes the first sensor with the id only, and
      that sensor gets exactly the new value, the new time and its threshold
      classification; everything else about it stays. */
  lemma SensorUpdateChangesOnlyFirstMatch(ss: seq<Sensor>, id: string, value: real, now: int, i: nat)
    requires i < |ss| && ss[i].id == id
    requires forall j :: 0 <= j < i ==> ss[j].id != id
    ensures var r := UpdateFirst(ss, SensorWithId(id), WithValue(value, now));
      && |r| == |ss|
      && r[i].value == value && r[i].timestamp == now && r[i].status == ThresholdStatus(ss[i], value)
      && r[i].id == ss[i].id && r[i].equipmentId == ss[i].equipmentId
      && r[i].minThreshold == ss[i].minThreshold && r[i].maxThreshold == ss[i].maxThreshold
      && (forall j :: 0 <= j < |ss| && j != i ==> r[j] == ss[j])
  {
    var k := FindFirst(ss, SensorWithId(id));
    assert k.Some?;
    assert !(k.value < i);
  }

  /** Marking as read is idempotent. */
  lemma WithReadIdempotent(ns: seq<Notification>, id: string)
    ensures WithRead(WithRead(ns, id), id) == WithRead(ns, id)
  {
    UpdateFirstIdempotent(ns, NotificationWithId(id), MarkedRead);
  }

  /** The readings of one equipment are exactly those with its id, in their
      original order. */
  lemma ReadingsByEquipmentAreExact(a: seq<ThermalReading>, b: seq<ThermalReading>, equipmentId: string)
    ensures forall r :: r in Filter(a, ReadingOf(equipmentId)) <==> r in a && r.equipmentId == equipmentId
    ensures Filter(a + b, ReadingOf(equipmentId)) == Filter(a, ReadingOf(equipmentId)) + Filter(b, ReadingOf(equipmentId))
  {
    FilterAppend(a, b, ReadingOf(equipmentId));
  }
}
