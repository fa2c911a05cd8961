/** The record shapes of `src/lib/storage.ts` (User, Equipment, Sensor,
    ThermalReading, Breakdown, MaintenanceTask, Notification). Dates that the
    engine compares or does arithmetic on are integer milliseconds; dates that
    are only stored and displayed stay strings. An optional field `x?: T` is an
    `Option<T>`. */
module Records {
  import opened Wrappers

  datatype Role = Engineer | MaintenanceStaff | Admin

  datatype User = User(id: string, username: string, role: Role, name: string, email: string)

  datatype EquipmentType =
    | HeatExchanger | CoolingTower | WaterPump | OilPump
    | WaterPrefilter | WaterFilter | OilFilter

  datatype EquipmentStatus = Operational | UnderMaintenance | BrokenDown | Offline

  datatype Equipment = Equipment(
    id: string,
    name: string,
    kind: EquipmentType,
    location: string,
    status: EquipmentStatus,
    installationDate: string,
    nextMaintenanceDate: string,
    manufacturer: string,
    model: string,
    specifications: map<string, string>)

  datatype SensorType = Temperature | Pressure

  datatype SensorStatus = Normal | SensorWarning | SensorCritical

  datatype Sensor = Sensor(
    id: string,
    equipmentId: string,
    kind: SensorType,
    location: string,
    value: real,
    unit: string,
    timestamp: int,
    status: SensorStatus,
    minThreshold: Option<real>,
    maxThreshold: Option<real>)

  datatype ThermalReading = ThermalReading(
    id: string,
    equipmentId: string,
    timestamp: int,
    hotInletTemp: real,
    hotOutletTemp: real,
    coldInletTemp: real,
    coldOutletTemp: real,
    flowRateHot: real,
    flowRateCold: real,
    efficiency: Option<real>,
    recordedBy: string)

  datatype Severity = SeverityLow | SeverityMedium | SeverityHigh | SeverityCritical

  /** A failure event; `endTime == None` is a breakdown still in progress. */
  datatype Breakdown = Breakdown(
    id: string,
    equipmentId: string,
    description: string,
    startTime: int,
    endTime: Option<int>,
    cause: string,
    severity: Severity,
    reportedBy: string,
    photos: Option<seq<string>>)

  datatype TaskType = Preventive | Corrective

  datatype TaskStatus = Scheduled | InProgress | Completed | Cancelled

  datatype Frequency = Daily | Weekly | Monthly | Quarterly | Annually

  datatype Priority = Low | Medium | High | Urgent

  /** A maintenance task. Durations are hours. */
  datatype MaintenanceTask = MaintenanceTask(
    id: string,
    equipmentId: string,
    kind: TaskType,
    title: string,
    description: string,
    scheduledDate: int,
    completedDate: Option<int>,
    status: TaskStatus,
    assignedTo: Option<string>,
    frequency: Option<Frequency>,
    priority: Priority,
    estimatedDuration: real,
    actualDuration: Option<real>,
    notes: Option<string>)

  datatype NotificationType =
    | MaintenanceDue | BreakdownAlert | SensorAlert | TaskOverdue
    | LowStock | TaskCompleted | SystemNotice

  datatype RelatedType = RelatedEquipment | RelatedTask | RelatedStock | RelatedSystem

  /** A notification. Its human-readable `message` is not part of the model. */
  datatype Notification = Notification(
    id: string,
    kind: NotificationType,
    title: string,
    timestamp: int,
    read: bool,
    priority: Priority,
    relatedId: Option<string>,
    relatedType: Option<RelatedType>,
    actionRequired: Option<bool>)

  /** A resolved breakdown never ends before it starts (the data invariant that
      the bounds on MTTR and availability rest on). */
  predicate WellFormedBreakdown(b: Breakdown) {
    b.endTime.Some? ==> b.endTime.value >= b.startTime
  }
}
