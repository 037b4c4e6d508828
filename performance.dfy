/** The daily performance table: for every project that is in progress or completed, one
    row per calendar day from its start day through the earlier of its end day and `now`,
    each row built from its own draws. */
module Performance {
  import opened Numerics
  import opened Sampling
  import opened Catalog
  import opened Projects

  datatype MetricRow = MetricRow(
    projectId: string,
    day: int,
    throughputGbps: real,
    latencyMs: real,
    errorRate: real,
    dailyCostUsd: real,
    dataTransferredGb: real,
    cpuUtilization: real,
    memoryUtilization: real)

  /** The random draws of one row, in standard form. */
  datatype RowDraws = RowDraws(
    throughputDeviate: real,  // normal(2.5, 0.8)
    latencyDeviate: real,     // normal(150, 50)
    errorDeviate: real,       // normal(0.02, 0.01)
    costDeviate: real,        // normal(1.0, 0.15)
    cpuUnit: real,            // uniform(40, 85)
    memoryUnit: real)         // uniform(50, 90)

  predicate ValidRowDraws(r: RowDraws)
  {
    0.0 <= r.cpuUnit < 1.0 && 0.0 <= r.memoryUnit < 1.0
  }

  predicate AllValidRowDraws(ds: seq<RowDraws>)
  {
    forall k :: 0 <= k < |ds| ==> ValidRowDraws(ds[k])
  }

  /** Only projects in progress or completed produce metrics. */
  predicate IsActive(s: Status)
  {
    s == InProgress || s == Completed
  }

  /** The last day that gets a row: the end day, or today if the project ends later. */
  function LastMetricDay(p: Project, now: int): (r: int)
    ensures r <= p.endDay && r <= now && (r == p.endDay || r == now)
  {
    MinInt(p.endDay, now)
  }

  /** How many rows the day loop emits for p. */
  function RowCount(p: Project, now: int): nat
  {
    if IsActive(p.status) && p.startDay <= LastMetricDay(p, now)
    then LastMetricDay(p, now) - p.startDay + 1
    else 0
  }

  /** The unrounded throughput, clamped below at 0.1. */
  function ThroughputOf(r: RowDraws): (t: real)
    ensures t >= 0.1
  {
    Max(0.1, Normal(2.5, 0.8, r.throughputDeviate))
  }

  /** The unrounded latency, clamped below at 10. */
  function LatencyOf(r: RowDraws): (l: real)
    ensures l >= 10.0
  {
    Max(10.0, Normal(150.0, 50.0, r.latencyDeviate))
  }

  /** The unrounded error rate, clamped below at 0. */
  function ErrorRateOf(r: RowDraws): (e: real)
    ensures e >= 0.0
  {
    Max(0.0, Normal(0.02, 0.01, r.errorDeviate))
  }

  /** The planned daily cost: the recorded cost spread over the planned duration in days. */
  function PlannedDailyCost(p: Project): real
    requires p.endDay != p.startDay
  {
    p.estimatedCostUsd / (p.endDay - p.startDay) as real
  }

  /** The actual daily cost: the planned daily cost times a normal factor around 1. */
  function ActualDailyCost(p: Project, r: RowDraws): real
    requires p.endDay != p.startDay
  {
    PlannedDailyCost(p) * Normal(1.0, 0.15, r.costDeviate)
  }

  /** The planned daily cost spreads the estimated cost evenly over the planned days, is not
      negative for a project that ends after it starts, and is the actual daily cost when
      the cost deviate is zero. */
  lemma DailyCostRule(p: Project, r: RowDraws)
    requires p.endDay != p.startDay
    ensures PlannedDailyCost(p) * (p.endDay - p.startDay) as real == p.estimatedCostUsd
    ensures p.estimatedCostUsd >= 0.0 && p.endDay > p.startDay ==> PlannedDailyCost(p) >= 0.0
    ensures r.costDeviate == 0.0 ==> ActualDailyCost(p, r) == PlannedDailyCost(p)
  {
    var days := (p.endDay - p.startDay) as real;
    var daily := PlannedDailyCost(p);
    assert daily == p.estimatedCostUsd / days;
    if p.estimatedCostUsd >= 0.0 && p.endDay > p.startDay {
      assert days > 0.0;
      DivMonotone(0.0, p.estimatedCostUsd, days);
      assert 0.0 / days == 0.0;
    }
    if r.costDeviate == 0.0 {
      assert Normal(1.0, 0.15, r.costDeviate) == 1.0;
    }
  }

  /** The volume moved in a day at the unrounded throughput: Gbit/s over 24 * 3600 seconds,
      divided by 8 bits per byte. */
  function TransferredOf(r: RowDraws): (g: real)
    ensures g >= 1080.0
  {
    ThroughputOf(r) * 24.0 * 3600.0 / 8.0
  }

  /** The row for project p on day `day`. The daily cost divides by the planned duration,
      which the source does not guard, hence the precondition. */
  function MakeRow(p: Project, day: int, r: RowDraws): MetricRow
    requires p.endDay != p.startDay
  {
    MetricRow(
      p.projectId, day,
      Round(ThroughputOf(r), 2), Round(LatencyOf(r), 1), Round(ErrorRateOf(r), 4),
      Round(ActualDailyCost(p, r), 2), Round(TransferredOf(r), 2),
      Round(Uniform(40.0, 85.0, r.cpuUnit), 1), Round(Uniform(50.0, 90.0, r.memoryUnit), 1))
  }

  /** The bounds every emitted row keeps. */
  predicate RowInvariant(m: MetricRow)
  {
    && m.throughputGbps >= 0.1
    && m.latencyMs >= 10.0
    && m.errorRate >= 0.0
    && m.dataTransferredGb >= 1080.0
    && 40.0 <= m.cpuUtilization <= 85.0
    && 50.0 <= m.memoryUtilization <= 90.0
  }

  /** The clamps survive rounding, the transferred volume follows the unrounded throughput,
      and the utilisations stay within their uniform ranges. */
  lemma MakeRowInvariant(p: Project, day: int, r: RowDraws)
    requires p.endDay != p.startDay && ValidRowDraws(r)
    ensures RowInvariant(MakeRow(p, day, r))
    ensures MakeRow(p, day, r).projectId == p.projectId && MakeRow(p, day, r).day == day
    ensures MakeRow(p, day, r).dataTransferredGb == Round(ThroughputOf(r) * 10800.0, 2)
  {
    assert Round(0.1, 2) == 0.1 && Round(10.0, 1) == 10.0 && Round(0.0, 4) == 0.0;
    RoundMonotone(0.1, ThroughputOf(r), 2);
    RoundMonotone(10.0, LatencyOf(r), 1);
    RoundMonotone(0.0, ErrorRateOf(r), 4);
    assert Round(1080.0, 2) == 1080.0;
    RoundMonotone(1080.0, TransferredOf(r), 2);
    UniformRange(40.0, 85.0, r.cpuUnit);
    assert Round(40.0, 1) == 40.0 && Round(85.0, 1) == 85.0;
    RoundBetween(Uniform(40.0, 85.0, r.cpuUnit), 1, 40.0, 85.0);
    UniformRange(50.0, 90.0, r.memoryUnit);
    assert Round(50.0, 1) == 50.0 && Round(90.0, 1) == 90.0;
    RoundBetween(Uniform(50.0, 90.0, r.memoryUnit), 1, 50.0, 90.0);
  }

  /** The rows of one project, one per day from its start day, each with its own draws. */
  function ProjectRows(p: Project, now: int, ds: seq<RowDraws>): (rows: seq<MetricRow>)
    requires |ds| == RowCount(p, now)
    requires RowCount(p, now) > 0 ==> p.endDay != p.startDay
    ensures |rows| == RowCount(p, now)
  {
    seq(|ds|, k requires 0 <= k < |ds| => MakeRow(p, p.startDay + k, ds[k]))
  }

  predicate HasRowOn(rows: seq<MetricRow>, day: int)
  {
    exists k :: 0 <= k < |rows| && rows[k].day == day
  }

  /** The day loop emits exactly one row per day from the start day through the last metric
      day, in increasing order, all for p; an inactive project gets none. */
  lemma ProjectRowsDays(p: Project, now: int, ds: seq<RowDraws>)
    requires |ds| == RowCount(p, now)
    requires RowCount(p, now) > 0 ==> p.endDay != p.startDay
    ensures var rows := ProjectRows(p, now, ds);
            && (forall k :: 0 <= k < |rows| ==> rows[k].projectId == p.projectId)
            && (forall k :: 0 <= k < |rows| ==> rows[k].day == p.startDay + k)
            && (forall day :: HasRowOn(rows, day) <==>
                  IsActive(p.status) && p.startDay <= day <= LastMetricDay(p, now))
  {
    var rows := ProjectRows(p, now, ds);
    forall day | HasRowOn(rows, day)
      ensures IsActive(p.status) && p.startDay <= day <= LastMetricDay(p, now)
    {
      var k :| 0 <= k < |rows| && rows[k].day == day;
      assert rows[k].day == p.startDay + k;
    }
    forall day | IsActive(p.status) && p.startDay <= day <= LastMetricDay(p, now)
      ensures HasRowOn(rows, day)
    {
      assert rows[day - p.startDay].day == day;
    }
  }

  /** The number of rows the first k projects get. */
  function RowsBefore(ps: seq<Project>, k: nat, now: int): nat
    requires k <= |ps|
  {
    if k == 0 then 0 else RowsBefore(ps, k - 1, now) + RowCount(ps[k - 1], now)
  }

  /** The number of rows the whole table gets. */
  function TotalRows(ps: seq<Project>, now: int): nat
  {
    RowsBefore(ps, |ps|, now)
  }

  /** The division at the daily-cost step only happens for projects that get rows; for those
      the planned duration must be non-zero. */
  predicate DivisorsNonZero(ps: seq<Project>, now: int)
  {
    forall k :: 0 <= k < |ps| && RowCount(ps[k], now) > 0 ==> ps[k].endDay != ps[k].startDay
  }

  /** The rows the day loops emit for the first k projects, the row draws consumed in
      order: project k - 1 takes the draws right after those of the projects before it. */
  function RowsUpTo(ps: seq<Project>, k: nat, now: int, ds: seq<RowDraws>): (rows: seq<MetricRow>)
    requires k <= |ps| && |ds| >= RowsBefore(ps, k, now)
    requires DivisorsNonZero(ps, now)
    ensures |rows| == RowsBefore(ps, k, now)
  {
    if k == 0 then []
    else
      var lo := RowsBefore(ps, k - 1, now);
      RowsUpTo(ps, k - 1, now, ds) + ProjectRows(ps[k - 1], now, ds[lo..lo + RowCount(ps[k - 1], now)])
  }

  /** The whole performance table. */
  function PerformanceRows(ps: seq<Project>, now: int, ds: seq<RowDraws>): (rows: seq<MetricRow>)
    requires |ds| >= TotalRows(ps, now)
    requires DivisorsNonZero(ps, now)
    ensures |rows| == TotalRows(ps, now)
  {
    RowsUpTo(ps, |ps|, now, ds)
  }

  lemma {:induction false} RowsBeforeMonotone(ps: seq<Project>, k: nat, n: nat, now: int)
    requires k <= n <= |ps|
    ensures RowsBefore(ps, k, now) <= RowsBefore(ps, n, now)
  {
    if k < n {
      RowsBeforeMonotone(ps, k, n - 1, now);
    }
  }

  /** The rows of the project at position k form one block of the table: they follow the
      rows of all earlier projects and are that project's own rows, built from the next
      unused draws. */
  lemma {:induction false} RowsOfProject(ps: seq<Project>, n: nat, now: int, ds: seq<RowDraws>, k: nat)
    requires k < n <= |ps| && |ds| >= RowsBefore(ps, n, now) && DivisorsNonZero(ps, now)
    ensures var lo, c := RowsBefore(ps, k, now), RowCount(ps[k], now);
            && lo + c <= RowsBefore(ps, n, now)
            && RowsUpTo(ps, n, now, ds)[lo..lo + c] == ProjectRows(ps[k], now, ds[lo..lo + c])
  {
    var front := RowsUpTo(ps, n - 1, now, ds);
    var lo := RowsBefore(ps, n - 1, now);
    var back := ProjectRows(ps[n - 1], now, ds[lo..lo + RowCount(ps[n - 1], now)]);
    var rows := RowsUpTo(ps, n, now, ds);
    assert rows == front + back;
    if k == n - 1 {
      SliceOfSuffix(front, back);
    } else {
      var lo, c := RowsBefore(ps, k, now), RowCount(ps[k], now);
      RowsOfProject(ps, n - 1, now, ds, k);
      SliceOfPrefix(front, back, lo, lo + c);
    }
  }

  lemma SliceOfPrefix<T>(a: seq<T>, b: seq<T>, lo: nat, hi: nat)
    requires lo <= hi <= |a|
    ensures (a + b)[lo..hi] == a[lo..hi]
  {
  }

  lemma SliceOfSuffix<T>(a: seq<T>, b: seq<T>)
    ensures (a + b)[|a|..|a| + |b|] == b
  {
  }

  /** The j-th row of the project at position k is its row for its j-th day. */
  lemma RowOfProject(ps: seq<Project>, now: int, ds: seq<RowDraws>, k: nat, j: nat)
    requires |ds| >= TotalRows(ps, now) && DivisorsNonZero(ps, now)
    requires k < |ps| && j < RowCount(ps[k], now)
    ensures var lo := RowsBefore(ps, k, now);
            && lo + j < |PerformanceRows(ps, now, ds)|
            && PerformanceRows(ps, now, ds)[lo + j] == MakeRow(ps[k], ps[k].startDay + j, ds[lo + j])
  {
    RowsOfProject(ps, |ps|, now, ds, k);
    var lo, c := RowsBefore(ps, k, now), RowCount(ps[k], now);
    var block := PerformanceRows(ps, now, ds)[lo..lo + c];
    assert block[j] == PerformanceRows(ps, now, ds)[lo + j];
    assert ds[lo..lo + c][j] == ds[lo + j];
  }

  /** Every row among those of the first n projects belongs to one of them that gets rows. */
  lemma {:induction false} RowOrigin(ps: seq<Project>, n: nat, now: int, ds: seq<RowDraws>, j: nat)
    requires n <= |ps| && |ds| >= RowsBefore(ps, n, now) && DivisorsNonZero(ps, now)
    requires j < RowsBefore(ps, n, now)
    ensures exists k :: 0 <= k < n && RowCount(ps[k], now) > 0 &&
                        RowsUpTo(ps, n, now, ds)[j].projectId == ps[k].projectId
  {
    var lo := RowsBefore(ps, n - 1, now);
    var front := RowsUpTo(ps, n - 1, now, ds);
    var back := ProjectRows(ps[n - 1], now, ds[lo..lo + RowCount(ps[n - 1], now)]);
    var rows := RowsUpTo(ps, n, now, ds);
    assert rows == front + back;
    if j < lo {
      RowOrigin(ps, n - 1, now, ds, j);
      var k :| 0 <= k < n - 1 && RowCount(ps[k], now) > 0 && front[j].projectId == ps[k].projectId;
      assert rows[j] == front[j];
    } else {
      assert rows[j] == back[j - lo];
      assert rows[j].projectId == ps[n - 1].projectId;
    }
  }

  /** Some row names a project id exactly when some project with that id gets rows; in
      particular projects that are planned or on hold get none. */
  lemma RowsExistFor(ps: seq<Project>, now: int, ds: seq<RowDraws>, id: string)
    requires |ds| >= TotalRows(ps, now) && DivisorsNonZero(ps, now)
    ensures var rows := PerformanceRows(ps, now, ds);
            (exists j :: 0 <= j < |rows| && rows[j].projectId == id) <==>
            (exists k :: 0 <= k < |ps| && ps[k].projectId == id && RowCount(ps[k], now) > 0)
  {
    var rows := PerformanceRows(ps, now, ds);
    if j :| 0 <= j < |rows| && rows[j].projectId == id {
      RowOrigin(ps, |ps|, now, ds, j);
    }
    if k :| 0 <= k < |ps| && ps[k].projectId == id && RowCount(ps[k], now) > 0 {
      RowOfProject(ps, now, ds, k, 0);
    }
  }

  /** Every row among those of the first n projects keeps the row bounds. */
  lemma {:induction false} AllRowsInvariant(ps: seq<Project>, n: nat, now: int, ds: seq<RowDraws>)
    requires n <= |ps| && |ds| >= RowsBefore(ps, n, now) && DivisorsNonZero(ps, now)
    requires AllValidRowDraws(ds)
    ensures forall j :: 0 <= j < |RowsUpTo(ps, n, now, ds)| ==> RowInvariant(RowsUpTo(ps, n, now, ds)[j])
  {
    if n > 0 {
      var lo := RowsBefore(ps, n - 1, now);
      var last := ps[n - 1];
      AllRowsInvariant(ps, n - 1, now, ds);
      var back := ProjectRows(last, now, ds[lo..lo + RowCount(last, now)]);
      forall j | 0 <= j < |back|
        ensures RowInvariant(back[j])
      {
        MakeRowInvariant(last, last.startDay + j, ds[lo + j]);
      }
    }
  }

  /** A project in progress, started today and planned for zero days gets one row, the
      one whose daily cost divides the estimated cost by its zero-day duration. */
  lemma ZeroDurationRow(i: nat, now: int, d: ProjectDraws)
    requires ValidDraws(d) && d.daysAgo == 0 && DurationOf(d) == 0
    requires 0.2 <= d.statusUnit < 0.6
    ensures var p := MakeProject(i, now, d);
            p.endDay == p.startDay && RowCount(p, now) == 1
  {
    InProgressBand(d.statusUnit);
    MakeProjectTimeline(i, now, d);
  }

  /** The unguarded division is reachable: the generator can build an in-progress project
      whose planned duration is zero days and which still gets a row. */
  lemma ZeroDivisorReachable(i: nat, now: int)
    ensures exists d :: ValidDraws(d) && RowCount(MakeProject(i, now, d), now) > 0 &&
                        MakeProject(i, now, d).endDay == MakeProject(i, now, d).startDay
  {
    var d := ZeroDurationDraws();
    ZeroDurationRow(i, now, d);
  }
}
