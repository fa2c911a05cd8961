/** What `PerformanceCalculator` promises, proved about the model in
    `Calculations`. */
module CalculationProperties {
  import opened Wrappers
  import opened Seqs
  import opened Time
  import opened Records
  import opened Calculations

  predicate IsResolved(b: Breakdown) { b.endTime.Some? }

  /** A total bounded by `lo * n` and `hi * n` has a mean between `lo` and `hi`. */
  lemma MeanBetween(total: real, n: real, lo: real, hi: real)
    requires n > 0.0
    requires n * lo <= total <= n * hi
    ensures lo <= total / n <= hi
  {
    assert total / n * n == total;
  }

  /** The mean of terms between `lo` and `hi` is between them too. */
  lemma MeanOfBounded<T(!new)>(s: seq<T>, f: T -> real, lo: real, hi: real)
    requires |s| > 0
    requires forall x :: x in s ==> lo <= f(x) <= hi
    ensures lo <= Sum(s, f) / |s| as real <= hi
  {
    SumBounds(s, f, lo, hi);
    MeanBetween(Sum(s, f), |s| as real, lo, hi);
  }

  /** Sharing what is left of a non-negative total among `n` parts never
      gives a part more than the total. */
  lemma ShareAtMost(total: real, downtime: real, n: nat)
    requires n >= 1 && total >= 0.0 && downtime >= 0.0
    ensures (total - downtime) / n as real <= total
  {
    var left := total - downtime;
    if left > 0.0 {
      assert left / n as real <= left;
    } else {
      assert left / n as real <= 0.0;
    }
  }

  /** Dividing by a positive number keeps the order with a scaled bound. */
  lemma DivPositive(x: real, p: real, k: real)
    requires p > 0.0
    ensures x / p >= k <==> x >= k * p
    ensures x / p <= k <==> x <= k * p
  {
    var q := x / p;
    assert q * p == x;
    if q >= k { assert q * p >= k * p; } else { assert q * p < k * p; }
    if q <= k { assert q * p <= k * p; } else { assert q * p > k * p; }
  }

  /** Dividing by a negative number reverses the order. */
  lemma DivNegative(x: real, p: real, k: real)
    requires p < 0.0
    ensures x / p >= k <==> x <= k * p
    ensures x / p <= k <==> x >= k * p
  {
    var q := x / p;
    assert q * p == x;
    if q >= k { assert q * p <= k * p; } else { assert q * p > k * p; }
    if q <= k { assert q * p >= k * p; } else { assert q * p < k * p; }
  }

  // ---------------------------------------------------------------------------
  // MTBF

  /** No breakdown of this equipment starts in the window: MTBF is the whole
      window, in hours. */
  lemma MtbfWithoutFailures(equipmentId: string, breakdowns: seq<Breakdown>, periodStart: int, periodEnd: int)
    requires forall b :: b in breakdowns && b.equipmentId == equipmentId ==> !InWindow(b.startTime, periodStart, periodEnd)
    ensures Mtbf(equipmentId, breakdowns, periodStart, periodEnd) == Hours(periodEnd - periodStart)
  {
    FilterNone(breakdowns, BreakdownInWindow(equipmentId, periodStart, periodEnd));
  }

  /** With breakdowns, MTBF times their number is the operating time: the
      window minus the clipped downtime. */
  lemma MtbfSharesOperatingTime(equipmentId: string, breakdowns: seq<Breakdown>, periodStart: int, periodEnd: int)
    requires |WindowBreakdowns(equipmentId, breakdowns, periodStart, periodEnd)| > 0
    ensures var inWindow := WindowBreakdowns(equipmentId, breakdowns, periodStart, periodEnd);
      Mtbf(equipmentId, breakdowns, periodStart, periodEnd) * |inWindow| as real
        == Hours(periodEnd - periodStart) - BreakdownDowntime(inWindow, periodStart, periodEnd)
  {
  }

  /** Breakdowns still in progress add no downtime: the downtime of a list is
      that of its resolved breakdowns. */
  lemma OpenBreakdownsAddNoDowntime(breakdowns: seq<Breakdown>, periodStart: int, periodEnd: int)
    ensures BreakdownDowntime(breakdowns, periodStart, periodEnd)
         == BreakdownDowntime(Filter(breakdowns, IsResolved), periodStart, periodEnd)
  {
    var f := ClippedHours(periodStart, periodEnd);
    SumFilter(breakdowns, IsResolved, f, f);
  }

  /** When every breakdown in the window is still in progress, they count in
      the denominator only. */
  lemma MtbfAllOpen(equipmentId: string, breakdowns: seq<Breakdown>, periodStart: int, periodEnd: int)
    requires |WindowBreakdowns(equipmentId, breakdowns, periodStart, periodEnd)| > 0
    requires forall b :: b in breakdowns && b.equipmentId == equipmentId && InWindow(b.startTime, periodStart, periodEnd)
               ==> b.endTime.None?
    ensures Mtbf(equipmentId, breakdowns, periodStart, periodEnd)
         == Hours(periodEnd - periodStart) / |WindowBreakdowns(equipmentId, breakdowns, periodStart, periodEnd)| as real
  {
    SumZero(WindowBreakdowns(equipmentId, breakdowns, periodStart, periodEnd), ClippedHours(periodStart, periodEnd));
  }

  /** A well-formed breakdown that starts in the window loses at most the rest
      of the window, and never a negative amount. */
  lemma ClippedDowntimeBounds(b: Breakdown, periodStart: int, periodEnd: int)
    requires InWindow(b.startTime, periodStart, periodEnd) && WellFormedBreakdown(b)
    ensures 0.0 <= ClippedDowntime(b, periodStart, periodEnd) <= Hours(periodEnd - periodStart)
  {
  }

  /** The clipped downtime of the breakdowns in the window is not negative. */
  lemma WindowDowntimeNonNegative(equipmentId: string, breakdowns: seq<Breakdown>, periodStart: int, periodEnd: int)
    requires forall b :: b in breakdowns ==> WellFormedBreakdown(b)
    ensures BreakdownDowntime(WindowBreakdowns(equipmentId, breakdowns, periodStart, periodEnd), periodStart, periodEnd) >= 0.0
  {
    var inWindow := WindowBreakdowns(equipmentId, breakdowns, periodStart, periodEnd);
    var f := ClippedHours(periodStart, periodEnd);
    forall b | b in inWindow ensures f(b) >= 0.0 {
      ClippedDowntimeBounds(b, periodStart, periodEnd);
    }
    SumNonNegative(inWindow, f);
  }

  /** Failures never make MTBF longer than the window. */
  lemma MtbfAtMostWindow(equipmentId: string, breakdowns: seq<Breakdown>, periodStart: int, periodEnd: int)
    requires periodStart <= periodEnd
    requires forall b :: b in breakdowns ==> WellFormedBreakdown(b)
    ensures Mtbf(equipmentId, breakdowns, periodStart, periodEnd) <= Hours(periodEnd - periodStart)
  {
    var inWindow := WindowBreakdowns(equipmentId, breakdowns, periodStart, periodEnd);
    if |inWindow| > 0 {
      WindowDowntimeNonNegative(equipmentId, breakdowns, periodStart, periodEnd);
      ShareAtMost(Hours(periodEnd - periodStart), BreakdownDowntime(inWindow, periodStart, periodEnd), |inWindow|);
    }
  }

  // ---------------------------------------------------------------------------
  // MTTR

  /** MTTR is the mean of the repair times it averages: it lies between their
      least and greatest. */
  lemma MttrWithinRepairRange(equipmentId: string, breakdowns: seq<Breakdown>, periodStart: int, periodEnd: int,
                              lo: real, hi: real)
    requires |Filter(breakdowns, ResolvedInWindow(equipmentId, periodStart, periodEnd))| > 0
    requires forall b :: b in breakdowns && ResolvedInWindow(equipmentId, periodStart, periodEnd)(b)
               ==> lo <= RepairHours(b) <= hi
    ensures lo <= Mttr(equipmentId, breakdowns, periodStart, periodEnd) <= hi
  {
    var resolved := Filter(breakdowns, ResolvedInWindow(equipmentId, periodStart, periodEnd));
    assert forall x :: x in resolved ==> lo <= RepairHours(x) <= hi;
    MeanOfBounded(resolved, RepairHours, lo, hi);
  }

  /** With well-formed breakdowns MTTR is never negative (and it is 0 when no
      resolved breakdown starts in the window). */
  lemma MttrNonNegative(equipmentId: string, breakdowns: seq<Breakdown>, periodStart: int, periodEnd: int)
    requires forall b :: b in breakdowns ==> WellFormedBreakdown(b)
    ensures Mttr(equipmentId, breakdowns, periodStart, periodEnd) >= 0.0
    ensures |Filter(breakdowns, ResolvedInWindow(equipmentId, periodStart, periodEnd))| == 0
            ==> Mttr(equipmentId, breakdowns, periodStart, periodEnd) == 0.0
  {
    var resolved := Filter(breakdowns, ResolvedInWindow(equipmentId, periodStart, periodEnd));
    if |resolved| > 0 {
      SumNonNegative(resolved, RepairHours);
    }
  }

  /** MTTR uses the unclipped repair time while MTBF clips to the window: a
      12-hour repair starting at the beginning of a 10-hour window gives an
      MTTR of 12 hours and an MTBF of 0. */
  lemma MttrIsNotClipped(b: Breakdown, periodStart: int)
    requires b.startTime == periodStart && b.endTime == Some(periodStart + 12 * MsPerHour)
    ensures Mttr(b.equipmentId, [b], periodStart, periodStart + 10 * MsPerHour) == 12.0
    ensures Mtbf(b.equipmentId, [b], periodStart, periodStart + 10 * MsPerHour) == 0.0
  {
    var periodEnd := periodStart + 10 * MsPerHour;
    assert [b][..0] == [];
    assert Filter([b], ResolvedInWindow(b.equipmentId, periodStart, periodEnd)) == [b];
    assert WindowBreakdowns(b.equipmentId, [b], periodStart, periodEnd) == [b];
    assert RepairHours(b) == Hours(12 * MsPerHour) == 12.0;
    assert ClippedDowntime(b, periodStart, periodEnd) == Hours(10 * MsPerHour) == 10.0;
    assert Sum([b], RepairHours) == 12.0;
    assert ClippedHours(periodStart, periodEnd)(b) == 10.0;
    assert BreakdownDowntime([b], periodStart, periodEnd) == Sum([b], ClippedHours(periodStart, periodEnd)) == 10.0;
  }

  /** Two resolved 4-hour breakdowns in a 30-day (720-hour) window:
      MTTR = 4 and MTBF = (720 - 8) / 2 = 356. */
  lemma ThirtyDayScenario(b1: Breakdown, b2: Breakdown)
    requires b1.equipmentId == "eq-001" && b2.equipmentId == "eq-001"
    requires b1.startTime == 10 * MsPerHour && b1.endTime == Some(14 * MsPerHour)
    requires b2.startTime == 100 * MsPerHour && b2.endTime == Some(104 * MsPerHour)
    ensures Mttr("eq-001", [b1, b2], 0, 720 * MsPerHour) == 4.0
    ensures Mtbf("eq-001", [b1, b2], 0, 720 * MsPerHour) == 356.0
  {
    var bs := [b1, b2];
    var periodEnd := 720 * MsPerHour;
    assert bs[..1] == [b1];
    assert [b1][..0] == [];
    assert Filter(bs, ResolvedInWindow("eq-001", 0, periodEnd)) == bs;
    assert WindowBreakdowns("eq-001", bs, 0, periodEnd) == bs;
    assert RepairHours(b1) == Hours(4 * MsPerHour) == 4.0;
    assert RepairHours(b2) == Hours(4 * MsPerHour) == 4.0;
    assert ClippedDowntime(b1, 0, periodEnd) == 4.0;
    assert ClippedDowntime(b2, 0, periodEnd) == 4.0;
    assert Sum([b1], RepairHours) == 4.0;
    assert Sum(bs, RepairHours) == Sum([b1], RepairHours) + RepairHours(b2) == 8.0;
    var f := ClippedHours(0, periodEnd);
    assert f(b1) == 4.0 && f(b2) == 4.0;
    assert Sum([b1], f) == 4.0;
    assert BreakdownDowntime(bs, 0, periodEnd) == Sum([b1], f) + f(b2) == 8.0;
    assert Hours(periodEnd) == 720.0;
  }

  /** Downtimes are added up without merging overlaps, so MTBF is not floored
      at 0 the way availability is: two breakdowns that both cover a 10-hour
      window give an MTBF of (10 - 20) / 2 = -5 hours. */
  lemma MtbfNegativeForOverlappingBreakdowns(b1: Breakdown, b2: Breakdown)
    requires b1.equipmentId == "eq-001" && b2.equipmentId == "eq-001"
    requires b1.startTime == 0 && b1.endTime == Some(10 * MsPerHour)
    requires b2.startTime == 0 && b2.endTime == Some(10 * MsPerHour)
    ensures Mtbf("eq-001", [b1, b2], 0, 10 * MsPerHour) == -5.0
  {
    var bs := [b1, b2];
    var periodEnd := 10 * MsPerHour;
    assert bs[..1] == [b1];
    assert [b1][..0] == [];
    var p := BreakdownInWindow("eq-001", 0, periodEnd);
    assert p(b1) && p(b2);
    assert Filter([b1], p) == [b1];
    assert WindowBreakdowns("eq-001", bs, 0, periodEnd) == Filter([b1], p) + [b2] == bs;
    var f := ClippedHours(0, periodEnd);
    assert f(b1) == 10.0 && f(b2) == 10.0;
    assert Sum([b1], f) == 10.0;
    assert BreakdownDowntime(bs, 0, periodEnd) == Sum([b1], f) + f(b2) == 20.0;
    assert Hours(periodEnd) == 10.0;
  }

  // ---------------------------------------------------------------------------
  // Availability

  /** The maintenance downtime of well-formed tasks is not negative. */
  lemma MaintenanceDowntimeNonNegative(equipmentId: string, tasks: seq<MaintenanceTask>, periodStart: int, periodEnd: int)
    requires forall t :: t in tasks ==> EffectiveDuration(t) >= 0.0
    ensures MaintenanceDowntime(equipmentId, tasks, periodStart, periodEnd) >= 0.0
  {
    SumNonNegative(Filter(tasks, CountsAsDowntime(equipmentId, periodStart, periodEnd)), EffectiveDuration);
  }

  /** Availability is a percentage: at least 0 always, and at most 100 when the
      window is forward, breakdowns end after they start and task durations
      are not negative. */
  lemma AvailabilityIsPercentage(equipmentId: string, breakdowns: seq<Breakdown>, tasks: seq<MaintenanceTask>,
                                 periodStart: int, periodEnd: int)
    requires periodStart < periodEnd
    requires forall b :: b in breakdowns ==> WellFormedBreakdown(b)
    requires forall t :: t in tasks ==> EffectiveDuration(t) >= 0.0
    ensures 0.0 <= Availability(equipmentId, breakdowns, tasks, periodStart, periodEnd) <= 100.0
  {
    WindowDowntimeNonNegative(equipmentId, breakdowns, periodStart, periodEnd);
    MaintenanceDowntimeNonNegative(equipmentId, tasks, periodStart, periodEnd);
    var total := Hours(periodEnd - periodStart);
    var downtime := BreakdownDowntime(WindowBreakdowns(equipmentId, breakdowns, periodStart, periodEnd), periodStart, periodEnd)
                    + MaintenanceDowntime(equipmentId, tasks, periodStart, periodEnd);
    assert total > 0.0;
    assert (total - downtime) / total <= 1.0;
  }

  /** Without downtime (every breakdown in the window still open, no completed
      task of the equipment scheduled in it) availability is exactly 100. */
  lemma AvailabilityWithoutDowntime(equipmentId: string, breakdowns: seq<Breakdown>, tasks: seq<MaintenanceTask>,
                                    periodStart: int, periodEnd: int)
    requires periodStart != periodEnd
    requires forall b :: b in breakdowns && BreakdownInWindow(equipmentId, periodStart, periodEnd)(b) ==> b.endTime.None?
    requires forall t :: t in tasks ==> !CountsAsDowntime(equipmentId, periodStart, periodEnd)(t)
    ensures Availability(equipmentId, breakdowns, tasks, periodStart, periodEnd) == 100.0
  {
    SumZero(WindowBreakdowns(equipmentId, breakdowns, periodStart, periodEnd), ClippedHours(periodStart, periodEnd));
    FilterNone(tasks, CountsAsDowntime(equipmentId, periodStart, periodEnd));
  }

  /** Availability and MTBF see the same breakdown downtime: when breakdowns
      exist, the uptime behind availability is MTBF times their number minus
      the maintenance downtime. */
  lemma AvailabilityAgreesWithMtbf(equipmentId: string, breakdowns: seq<Breakdown>, tasks: seq<MaintenanceTask>,
                                   periodStart: int, periodEnd: int)
    requires periodStart != periodEnd
    requires |WindowBreakdowns(equipmentId, breakdowns, periodStart, periodEnd)| > 0
    ensures Availability(equipmentId, breakdowns, tasks, periodStart, periodEnd)
         == MaxReal(0.0, (Mtbf(equipmentId, breakdowns, periodStart, periodEnd)
                            * |WindowBreakdowns(equipmentId, breakdowns, periodStart, periodEnd)| as real
                          - MaintenanceDowntime(equipmentId, tasks, periodStart, periodEnd))
                         / Hours(periodEnd - periodStart) * 100.0)
  {
    MtbfSharesOperatingTime(equipmentId, breakdowns, periodStart, periodEnd);
  }

  /** Appending a task adds its actual-or-estimated duration to the
      maintenance downtime exactly when it is a completed task of this
      equipment, with a completion date, scheduled in the window. */
  lemma MaintenanceDowntimeAppend(equipmentId: string, tasks: seq<MaintenanceTask>, t: MaintenanceTask,
                                  periodStart: int, periodEnd: int)
    ensures MaintenanceDowntime(equipmentId, tasks + [t], periodStart, periodEnd)
         == MaintenanceDowntime(equipmentId, tasks, periodStart, periodEnd)
            + (if t.equipmentId == equipmentId && t.status == Completed && t.completedDate.Some?
                  && InWindow(t.scheduledDate, periodStart, periodEnd)
               then EffectiveDuration(t) else 0.0)
  {
    var p := CountsAsDowntime(equipmentId, periodStart, periodEnd);
    FilterAppend(tasks, [t], p);
    assert [t][..0] == [];
    SumAppend(Filter(tasks, p), Filter([t], p), EffectiveDuration);
  }

  // ---------------------------------------------------------------------------
  // Intervention count

  /** Appending a breakdown adds one intervention exactly when it belongs to the
      equipment and starts in the window. */
  lemma InterventionCountAppendBreakdown(equipmentId: string, breakdowns: seq<Breakdown>, b: Breakdown,
                                         tasks: seq<MaintenanceTask>, periodStart: int, periodEnd: int)
    ensures InterventionCount(equipmentId, breakdowns + [b], tasks, periodStart, periodEnd)
         == InterventionCount(equipmentId, breakdowns, tasks, periodStart, periodEnd)
            + (if b.equipmentId == equipmentId && InWindow(b.startTime, periodStart, periodEnd) then 1 else 0)
  {
    assert (breakdowns + [b])[..|breakdowns|] == breakdowns;
  }

  /** Appending a task adds one intervention exactly when it belongs to the
      equipment and is scheduled in the window, whatever its status. */
  lemma InterventionCountAppendTask(equipmentId: string, breakdowns: seq<Breakdown>, tasks: seq<MaintenanceTask>,
                                    t: MaintenanceTask, periodStart: int, periodEnd: int)
    ensures InterventionCount(equipmentId, breakdowns, tasks + [t], periodStart, periodEnd)
         == InterventionCount(equipmentId, breakdowns, tasks, periodStart, periodEnd)
            + (if t.equipmentId == equipmentId && InWindow(t.scheduledDate, periodStart, periodEnd) then 1 else 0)
  {
    assert (tasks + [t])[..|tasks|] == tasks;
  }

  /** Every event behind MTBF and the maintenance downtime is an intervention. */
  lemma InterventionCountCoversDowntimeEvents(equipmentId: string, breakdowns: seq<Breakdown>, tasks: seq<MaintenanceTask>,
                                              periodStart: int, periodEnd: int)
    ensures InterventionCount(equipmentId, breakdowns, tasks, periodStart, periodEnd)
         >= |WindowBreakdowns(equipmentId, breakdowns, periodStart, periodEnd)|
            + |Filter(tasks, CountsAsDowntime(equipmentId, periodStart, periodEnd))|
  {
    FilterWeaker(tasks, CountsAsDowntime(equipmentId, periodStart, periodEnd), TaskInWindow(equipmentId, periodStart, periodEnd));
  }

  // ---------------------------------------------------------------------------
  // Fleet

  /** The unweighted mean lies between the per-equipment extremes. */
  lemma MeanWithin(ms: seq<EquipmentMetrics>, f: EquipmentMetrics -> real, lo: real, hi: real)
    requires |ms| > 0
    requires forall m :: m in ms ==> lo <= f(m) <= hi
    ensures lo <= Mean(ms, f) <= hi
  {
    MeanOfBounded(ms, f, lo, hi);
  }

  /** An empty fleet has all-zero global metrics. */
  lemma GlobalMetricsOfEmptyFleet(breakdowns: seq<Breakdown>, tasks: seq<MaintenanceTask>, periodStart: int, periodEnd: int)
    ensures GlobalMetricsOf([], breakdowns, tasks, periodStart, periodEnd) == PerformanceMetrics(0.0, 0.0, 0.0, 0)
  {
  }

  /** Global availability is a percentage under the same conditions as each
      equipment's. */
  lemma GlobalAvailabilityIsPercentage(equipments: seq<Equipment>, breakdowns: seq<Breakdown>, tasks: seq<MaintenanceTask>,
                                       periodStart: int, periodEnd: int)
    requires periodStart < periodEnd
    requires forall b :: b in breakdowns ==> WellFormedBreakdown(b)
    requires forall t :: t in tasks ==> EffectiveDuration(t) >= 0.0
    ensures 0.0 <= GlobalMetricsOf(equipments, breakdowns, tasks, periodStart, periodEnd).availability <= 100.0
  {
    var ms := FleetMetrics(equipments, breakdowns, tasks, periodStart, periodEnd);
    if |ms| > 0 {
      forall m | m in ms ensures 0.0 <= AvailabilityOf(m) <= 100.0 {
        var i :| 0 <= i < |ms| && ms[i] == m;
        AvailabilityIsPercentage(equipments[i].id, breakdowns, tasks, periodStart, periodEnd);
      }
      MeanWithin(ms, AvailabilityOf, 0.0, 100.0);
    }
  }

  lemma SumOfTwo<T(!new)>(x: T, y: T, f: T -> real)
    ensures Sum([x, y], f) == f(x) + f(y)
  {
    assert [x, y][..1] == [x];
    assert [x][..0] == [];
    assert Sum([x], f) == Sum([], f) + f(x);
  }

  lemma SumNatOfTwo<T(!new)>(x: T, y: T, f: T -> nat)
    ensures SumNat([x, y], f) == f(x) + f(y)
  {
    assert [x, y][..1] == [x];
    assert [x][..0] == [];
    assert SumNat([x], f) == SumNat([], f) + f(x);
  }

  /** Fleet averaging is unweighted: with two pieces of equipment each metric
      is the plain average of theirs, and the intervention count their sum. */
  lemma GlobalMetricsOfTwo(e1: Equipment, e2: Equipment, breakdowns: seq<Breakdown>, tasks: seq<MaintenanceTask>,
                           periodStart: int, periodEnd: int)
    requires periodStart != periodEnd
    ensures var g := GlobalMetricsOf([e1, e2], breakdowns, tasks, periodStart, periodEnd);
            var m1 := MetricsOf(e1, breakdowns, tasks, periodStart, periodEnd);
            var m2 := MetricsOf(e2, breakdowns, tasks, periodStart, periodEnd);
            && g.mtbf == (m1.mtbf + m2.mtbf) / 2.0
            && g.mttr == (m1.mttr + m2.mttr) / 2.0
            && g.availability == (m1.availability + m2.availability) / 2.0
            && g.interventionCount == m1.interventionCount + m2.interventionCount
  {
    var ms := FleetMetrics([e1, e2], breakdowns, tasks, periodStart, periodEnd);
    var m1 := MetricsOf(e1, breakdowns, tasks, periodStart, periodEnd);
    var m2 := MetricsOf(e2, breakdowns, tasks, periodStart, periodEnd);
    assert ms == [m1, m2];
    SumOfTwo(m1, m2, MtbfOf);
    SumOfTwo(m1, m2, MttrOf);
    SumOfTwo(m1, m2, AvailabilityOf);
    SumNatOfTwo(m1, m2, InterventionsOf);
  }

  // ---------------------------------------------------------------------------
  // Status and trend

  /** The status bands: at least 95 excellent, at least 90 good, at least 80
      warning, below that critical. */
  lemma PerformanceStatusBands(availability: real)
    ensures GetPerformanceStatus(availability) == Excellent <==> availability >= 95.0
    ensures GetPerformanceStatus(availability) == Good <==> 90.0 <= availability < 95.0
    ensures GetPerformanceStatus(availability) == Warning <==> 80.0 <= availability < 90.0
    ensures GetPerformanceStatus(availability) == Critical <==> availability < 80.0
  {
  }

  /** A higher availability never gets a worse status. */
  lemma PerformanceStatusMonotone(a1: real, a2: real)
    requires a1 <= a2
    ensures StatusRank(GetPerformanceStatus(a1)) <= StatusRank(GetPerformanceStatus(a2))
  {
  }

  /** For a positive previous value the trend is up from a 5% rise, down from a
      5% fall, and stable in between. */
  lemma TrendForPositiveBaseline(currentValue: real, previousValue: real)
    requires previousValue > 0.0
    ensures CalculateTrend(currentValue, previousValue) == Up <==> currentValue >= previousValue * 1.05
    ensures CalculateTrend(currentValue, previousValue) == Down <==> currentValue <= previousValue * 0.95
    ensures CalculateTrend(currentValue, previousValue) == Stable
        <==> previousValue * 0.95 < currentValue < previousValue * 1.05
  {
    DivPositive(currentValue - previousValue, previousValue, 0.05);
    DivPositive(currentValue - previousValue, previousValue, -0.05);
  }

  /** For a negative previous value the direction follows the sign of the
      ratio, not of the difference: a rise of 5% of |previous| or more is
      "down", a fall of that much is "up". */
  lemma TrendForNegativeBaseline(currentValue: real, previousValue: real)
    requires previousValue < 0.0
    ensures CalculateTrend(currentValue, previousValue) == Up <==> currentValue <= previousValue * 1.05
    ensures CalculateTrend(currentValue, previousValue) == Down <==> currentValue >= previousValue * 0.95
    ensures CalculateTrend(currentValue, previousValue) == Stable
        <==> previousValue * 1.05 < currentValue < previousValue * 0.95
  {
    DivNegative(currentValue - previousValue, previousValue, 0.05);
    DivNegative(currentValue - previousValue, previousValue, -0.05);
  }
}
