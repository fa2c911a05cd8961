/** `PerformanceCalculator` of `src/lib/calculations.ts`: MTBF, MTTR,
    availability and intervention counts of one equipment over a closed time
    window [periodStart, periodEnd], their fleet averages, the availability
    status bands and the trend direction. Instants are milliseconds, results
    are hours or percent, as reals. */
module Calculations {
  import opened Wrappers
  import opened Seqs
  import opened Time
  import opened Records

  datatype PerformanceMetrics = PerformanceMetrics(
    mtbf: real, mttr: real, availability: real, interventionCount: nat)

  /** The numeric part of `EquipmentMetrics`; the display label `period` is not modelled. */
  datatype EquipmentMetrics = EquipmentMetrics(
    equipmentId: string, equipmentName: string,
    mtbf: real, mttr: real, availability: real, interventionCount: nat)

  datatype PerformanceStatus = Excellent | Good | Warning | Critical

  datatype Trend = Up | Down | Stable

  // ---------------------------------------------------------------------------
  // The window filters

  /** Both ends of the window are included. */
  predicate InWindow(t: int, periodStart: int, periodEnd: int) {
    periodStart <= t <= periodEnd
  }

  /** The breakdowns of the equipment that start inside the window. */
  function BreakdownInWindow(equipmentId: string, periodStart: int, periodEnd: int): Breakdown -> bool {
    (b: Breakdown) => b.equipmentId == equipmentId && InWindow(b.startTime, periodStart, periodEnd)
  }

  function WindowBreakdowns(equipmentId: string, breakdowns: seq<Breakdown>, periodStart: int, periodEnd: int): seq<Breakdown> {
    Filter(breakdowns, BreakdownInWindow(equipmentId, periodStart, periodEnd))
  }

  /** The same, restricted to breakdowns that have an end time. */
  function ResolvedInWindow(equipmentId: string, periodStart: int, periodEnd: int): Breakdown -> bool {
    (b: Breakdown) => b.equipmentId == equipmentId && InWindow(b.startTime, periodStart, periodEnd) && b.endTime.Some?
  }

  /** Tasks of the equipment scheduled inside the window, whatever their status. */
  function TaskInWindow(equipmentId: string, periodStart: int, periodEnd: int): MaintenanceTask -> bool {
    (t: MaintenanceTask) => t.equipmentId == equipmentId && InWindow(t.scheduledDate, periodStart, periodEnd)
  }

  /** Tasks whose duration is maintenance downtime: of the equipment,
      completed, with a completion date, scheduled inside the window. */
  function CountsAsDowntime(equipmentId: string, periodStart: int, periodEnd: int): MaintenanceTask -> bool {
    (t: MaintenanceTask) => t.equipmentId == equipmentId && t.status == Completed && t.completedDate.Some?
         && InWindow(t.scheduledDate, periodStart, periodEnd)
  }

  // ---------------------------------------------------------------------------
  // Downtime

  /** The part of a resolved breakdown that lies inside the window, in hours;
      0 for a breakdown still in progress. */
  function ClippedDowntime(b: Breakdown, periodStart: int, periodEnd: int): real {
    if b.endTime.Some? then Hours(Min(b.endTime.value, periodEnd) - Max(b.startTime, periodStart))
    else 0.0
  }

  function ClippedHours(periodStart: int, periodEnd: int): Breakdown -> real {
    (b: Breakdown) => ClippedDowntime(b, periodStart, periodEnd)
  }

  /** Total window-clipped downtime of a list of breakdowns. */
  function BreakdownDowntime(breakdowns: seq<Breakdown>, periodStart: int, periodEnd: int): real {
    Sum(breakdowns, ClippedHours(periodStart, periodEnd))
  }

  /** The `forEach` loops of `calculateMTBF` and `calculateAvailability`, which
      add up the clipped duration of each resolved breakdown. */
  method AccumulateDowntime(breakdowns: seq<Breakdown>, periodStart: int, periodEnd: int)
    returns (totalDowntimeHours: real)
    ensures totalDowntimeHours == BreakdownDowntime(breakdowns, periodStart, periodEnd)
  {
    totalDowntimeHours := 0.0;
    var i := 0;
    while i < |breakdowns|
      invariant 0 <= i <= |breakdowns|
      invariant totalDowntimeHours == BreakdownDowntime(breakdowns[..i], periodStart, periodEnd)
    {
      var breakdown := breakdowns[i];
      if breakdown.endTime.Some? {
        var startTime := Max(breakdown.startTime, periodStart);
        var endTime := Min(breakdown.endTime.value, periodEnd);
        totalDowntimeHours := totalDowntimeHours + Hours(endTime - startTime);
      }
      assert breakdowns[..i + 1][..i] == breakdowns[..i];
      i := i + 1;
    }
    assert breakdowns[..i] == breakdowns;
  }

  /** `actualDuration || estimatedDuration`: the actual duration unless it is
      absent or 0. */
  function EffectiveDuration(t: MaintenanceTask): real {
    if Truthy(t.actualDuration) then t.actualDuration.value else t.estimatedDuration
  }

  function MaintenanceDowntime(equipmentId: string, tasks: seq<MaintenanceTask>, periodStart: int, periodEnd: int): real {
    Sum(Filter(tasks, CountsAsDowntime(equipmentId, periodStart, periodEnd)), EffectiveDuration)
  }

  // ---------------------------------------------------------------------------
  // The four indicators

  /** MTBF: the whole window when no breakdown starts in it, otherwise the
      window minus the clipped downtime, shared among the breakdowns. */
  function Mtbf(equipmentId: string, breakdowns: seq<Breakdown>, periodStart: int, periodEnd: int): real {
    var inWindow := WindowBreakdowns(equipmentId, breakdowns, periodStart, periodEnd);
    if |inWindow| == 0 then Hours(periodEnd - periodStart)
    else (Hours(periodEnd - periodStart) - BreakdownDowntime(inWindow, periodStart, periodEnd)) / |inWindow| as real
  }

  method CalculateMTBF(equipmentId: string, breakdowns: seq<Breakdown>, periodStart: int, periodEnd: int)
    returns (mtbf: real)
    ensures mtbf == Mtbf(equipmentId, breakdowns, periodStart, periodEnd)
  {
    var equipmentBreakdowns := WindowBreakdowns(equipmentId, breakdowns, periodStart, periodEnd);
    if |equipmentBreakdowns| == 0 {
      return Hours(periodEnd - periodStart);
    }
    var totalPeriodHours := Hours(periodEnd - periodStart);
    var totalDowntimeHours := AccumulateDowntime(equipmentBreakdowns, periodStart, periodEnd);
    var operatingTime := totalPeriodHours - totalDowntimeHours;
    mtbf := operatingTime / |equipmentBreakdowns| as real;
  }

  /** Unclipped repair time of a breakdown, in hours (0 when unresolved). */
  function RepairHours(b: Breakdown): real {
    if b.endTime.Some? then Hours(b.endTime.value - b.startTime) else 0.0
  }

  /** MTTR: the mean unclipped repair time of the resolved breakdowns that
      start in the window; 0 when there are none. */
  function Mttr(equipmentId: string, breakdowns: seq<Breakdown>, periodStart: int, periodEnd: int): (r: real)
    ensures |Resolved(equipmentId, breakdowns, periodStart, periodEnd)| == 0 ==> r == 0.0
    ensures |Resolved(equipmentId, breakdowns, periodStart, periodEnd)| > 0 ==>
      r * |Resolved(equipmentId, breakdowns, periodStart, periodEnd)| as real
      == Sum(Resolved(equipmentId, breakdowns, periodStart, periodEnd), RepairHours)
  {
    var resolved := Resolved(equipmentId, breakdowns, periodStart, periodEnd);
    if |resolved| == 0 then 0.0
    else
      var total, count := Sum(resolved, RepairHours), |resolved| as real;
      DivTimes(total, count);
      total / count
  }

  /** The resolved breakdowns of the equipment that start in the window. */
  function Resolved(equipmentId: string, breakdowns: seq<Breakdown>, periodStart: int, periodEnd: int): seq<Breakdown> {
    Filter(breakdowns, ResolvedInWindow(equipmentId, periodStart, periodEnd))
  }

  lemma DivTimes(a: real, b: real)
    requires b != 0.0
    ensures a / b * b == a
  {
  }

  /** Availability in percent, floored at 0. The window must not be empty
      (the source divides by its length). */
  function Availability(equipmentId: string, breakdowns: seq<Breakdown>, tasks: seq<MaintenanceTask>,
                        periodStart: int, periodEnd: int): real
    requires periodStart != periodEnd
  {
    var totalPeriodHours := Hours(periodEnd - periodStart);
    var breakdownDowntime := BreakdownDowntime(WindowBreakdowns(equipmentId, breakdowns, periodStart, periodEnd), periodStart, periodEnd);
    var uptime := totalPeriodHours - (breakdownDowntime + MaintenanceDowntime(equipmentId, tasks, periodStart, periodEnd));
    MaxReal(0.0, uptime / totalPeriodHours * 100.0)
  }

  method CalculateAvailability(equipmentId: string, breakdowns: seq<Breakdown>, tasks: seq<MaintenanceTask>,
                               periodStart: int, periodEnd: int)
    returns (availability: real)
    requires periodStart != periodEnd
    ensures availability == Availability(equipmentId, breakdowns, tasks, periodStart, periodEnd)
    ensures availability >= 0.0
  {
    var totalPeriodHours := Hours(periodEnd - periodStart);
    var equipmentBreakdowns := WindowBreakdowns(equipmentId, breakdowns, periodStart, periodEnd);
    var breakdownDowntime := AccumulateDowntime(equipmentBreakdowns, periodStart, periodEnd);
    var maintenanceDowntime := MaintenanceDowntime(equipmentId, tasks, periodStart, periodEnd);
    var totalDowntime := breakdownDowntime + maintenanceDowntime;
    var uptime := totalPeriodHours - totalDowntime;
    availability := MaxReal(0.0, uptime / totalPeriodHours * 100.0);
  }

  /** Breakdowns plus tasks of the equipment in the window, tasks of any status. */
  function InterventionCount(equipmentId: string, breakdowns: seq<Breakdown>, tasks: seq<MaintenanceTask>,
                             periodStart: int, periodEnd: int): (r: nat)
    ensures |WindowBreakdowns(equipmentId, breakdowns, periodStart, periodEnd)| <= r <= |breakdowns| + |tasks|
  {
    |WindowBreakdowns(equipmentId, breakdowns, periodStart, periodEnd)|
      + |Filter(tasks, TaskInWindow(equipmentId, periodStart, periodEnd))|
  }

  // ---------------------------------------------------------------------------
  // Per equipment and fleet

  function MetricsOf(equipment: Equipment, breakdowns: seq<Breakdown>, tasks: seq<MaintenanceTask>,
                     periodStart: int, periodEnd: int): EquipmentMetrics
    requires periodStart != periodEnd
  {
    EquipmentMetrics(
      equipment.id, equipment.name,
      Mtbf(equipment.id, breakdowns, periodStart, periodEnd),
      Mttr(equipment.id, breakdowns, periodStart, periodEnd),
      Availability(equipment.id, breakdowns, tasks, periodStart, periodEnd),
      InterventionCount(equipment.id, breakdowns, tasks, periodStart, periodEnd))
  }

  method CalculateEquipmentMetrics(equipment: Equipment, breakdowns: seq<Breakdown>, tasks: seq<MaintenanceTask>,
                                   periodStart: int, periodEnd: int)
    returns (metrics: EquipmentMetrics)
    requires periodStart != periodEnd
    ensures metrics == MetricsOf(equipment, breakdowns, tasks, periodStart, periodEnd)
  {
    var mtbf := CalculateMTBF(equipment.id, breakdowns, periodStart, periodEnd);
    var mttr := Mttr(equipment.id, breakdowns, periodStart, periodEnd);
    var availability := CalculateAvailability(equipment.id, breakdowns, tasks, periodStart, periodEnd);
    var interventionCount := InterventionCount(equipment.id, breakdowns, tasks, periodStart, periodEnd);
    metrics := EquipmentMetrics(equipment.id, equipment.name, mtbf, mttr, availability, interventionCount);
  }

  /** `equipments.map(calculateEquipmentMetrics)`. Availability is only
      computed when there is equipment, so only then must the window be
      non-empty. */
  function FleetMetrics(equipments: seq<Equipment>, breakdowns: seq<Breakdown>, tasks: seq<MaintenanceTask>,
                        periodStart: int, periodEnd: int): seq<EquipmentMetrics>
    requires |equipments| > 0 ==> periodStart != periodEnd
  {
    seq(|equipments|, i requires 0 <= i < |equipments| => MetricsOf(equipments[i], breakdowns, tasks, periodStart, periodEnd))
  }

  /** A list holding the metrics of each equipment, in order, is the fleet's. */
  lemma FleetMetricsPointwise(ms: seq<EquipmentMetrics>, equipments: seq<Equipment>, breakdowns: seq<Breakdown>,
                              tasks: seq<MaintenanceTask>, periodStart: int, periodEnd: int)
    requires |equipments| > 0 ==> periodStart != periodEnd
    requires |ms| == |equipments|
    requires forall k :: 0 <= k < |ms| ==> ms[k] == MetricsOf(equipments[k], breakdowns, tasks, periodStart, periodEnd)
    ensures ms == FleetMetrics(equipments, breakdowns, tasks, periodStart, periodEnd)
  {
  }

  function MtbfOf(m: EquipmentMetrics): real { m.mtbf }
  function MttrOf(m: EquipmentMetrics): real { m.mttr }
  function AvailabilityOf(m: EquipmentMetrics): real { m.availability }
  function InterventionsOf(m: EquipmentMetrics): nat { m.interventionCount }

  /** Unweighted mean of a per-equipment value; 0 for an empty fleet. */
  function Mean(ms: seq<EquipmentMetrics>, f: EquipmentMetrics -> real): real {
    if |ms| > 0 then Sum(ms, f) / |ms| as real else 0.0
  }

  function GlobalMetricsOf(equipments: seq<Equipment>, breakdowns: seq<Breakdown>, tasks: seq<MaintenanceTask>,
                           periodStart: int, periodEnd: int): PerformanceMetrics
    requires |equipments| > 0 ==> periodStart != periodEnd
  {
    var ms := FleetMetrics(equipments, breakdowns, tasks, periodStart, periodEnd);
    PerformanceMetrics(Mean(ms, MtbfOf), Mean(ms, MttrOf), Mean(ms, AvailabilityOf), SumNat(ms, InterventionsOf))
  }

  method CalculateGlobalMetrics(equipments: seq<Equipment>, breakdowns: seq<Breakdown>, tasks: seq<MaintenanceTask>,
                                periodStart: int, periodEnd: int)
    returns (metrics: PerformanceMetrics)
    requires |equipments| > 0 ==> periodStart != periodEnd
    ensures metrics == GlobalMetricsOf(equipments, breakdowns, tasks, periodStart, periodEnd)
  {
    var equipmentMetrics: seq<EquipmentMetrics> := [];
    for i := 0 to |equipments|
      invariant |equipmentMetrics| == i
      invariant forall k :: 0 <= k < i ==>
        equipmentMetrics[k] == MetricsOf(equipments[k], breakdowns, tasks, periodStart, periodEnd)
    {
      var m := CalculateEquipmentMetrics(equipments[i], breakdowns, tasks, periodStart, periodEnd);
      equipmentMetrics := equipmentMetrics + [m];
    }
    FleetMetricsPointwise(equipmentMetrics, equipments, breakdowns, tasks, periodStart, periodEnd);
    var totalMtbf := Sum(equipmentMetrics, MtbfOf);
    var totalMttr := Sum(equipmentMetrics, MttrOf);
    var totalAvailability := Sum(equipmentMetrics, AvailabilityOf);
    var totalInterventions := SumNat(equipmentMetrics, InterventionsOf);
    var equipmentCount := |equipments|;
    metrics := PerformanceMetrics(
      if equipmentCount > 0 then totalMtbf / equipmentCount as real else 0.0,
      if equipmentCount > 0 then totalMttr / equipmentCount as real else 0.0,
      if equipmentCount > 0 then totalAvailability / equipmentCount as real else 0.0,
      totalInterventions);
    assert metrics.mtbf == Mean(equipmentMetrics, MtbfOf);
    assert metrics.mttr == Mean(equipmentMetrics, MttrOf);
    assert metrics.availability == Mean(equipmentMetrics, AvailabilityOf);
  }

  // ---------------------------------------------------------------------------
  // Status bands and trend

  function GetPerformanceStatus(availability: real): (r: PerformanceStatus)
    ensures r == Excellent <==> availability >= 95.0
    ensures r == Critical <==> availability < 80.0
  {
    if availability >= 95.0 then Excellent
    else if availability >= 90.0 then Good
    else if availability >= 80.0 then Warning
    else Critical
  }

  /** Excellent is best. */
  function StatusRank(s: PerformanceStatus): nat {
    match s
    case Excellent => 3
    case Good => 2
    case Warning => 1
    case Critical => 0
  }

  /** Relative change against a 5% threshold. The source divides by
      `previousValue`, so it must not be 0. */
  function CalculateTrend(currentValue: real, previousValue: real): (r: Trend)
    requires previousValue != 0.0
    ensures r == Stable <==> AbsReal(currentValue - previousValue) < 0.05 * AbsReal(previousValue)
  {
    var change := (currentValue - previousValue) / previousValue;
    RelativeChangeSmall(currentValue - previousValue, previousValue);
    if AbsReal(change) < 0.05 then Stable
    else if change > 0.0 then Up
    else Down
  }

  /** A change `d` against a non-zero base `p` is below 5% of it exactly
      when `|d| < 0.05 |p|`. */
  lemma RelativeChangeSmall(d: real, p: real)
    requires p != 0.0
    ensures AbsReal(d / p) < 0.05 <==> AbsReal(d) < 0.05 * AbsReal(p)
  {
    var q, base := d / p, AbsReal(p);
    DivTimes(d, p);
    assert AbsReal(d) == AbsReal(q) * base by {
      if p > 0.0 {
        assert d == q * p;
      } else {
        assert d == (-q) * base;
      }
    }
    SmallShare(AbsReal(q), AbsReal(d), base, 0.05);
  }

  /** For a positive `k`, `a` is below `c` exactly when `a * k` is below `c * k`. */
  lemma SmallShare(a: real, ak: real, k: real, c: real)
    requires k > 0.0 && ak == a * k
    ensures a < c <==> ak < c * k
  {
    ScaleByPositive(c - a, k);
    assert c * k - ak == (c - a) * k;
  }

  /** Multiplying by a positive factor keeps the sign. */
  lemma ScaleByPositive(x: real, k: real)
    requires k > 0.0
    ensures x * k > 0.0 <==> x > 0.0
  {
    if x > 0.0 {
      assert x * k > 0.0;
    } else {
      assert x * k <= 0.0;
    }
  }

}
