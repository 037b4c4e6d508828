/** One migration-project record and how it is assembled from its draws. Dates are day
    numbers; `now` is the day on which the table is generated. */
module Projects {
  import opened Numerics
  import opened Sampling
  import opened Catalog
  import opened Identifiers

  datatype Project = Project(
    projectId: string,
    projectName: string,
    sourceCloud: Provider,
    targetCloud: Provider,
    dataType: DataType,
    dataSizeGb: real,
    complexityScore: real,
    migrationStrategy: Strategy,
    startDay: int,
    endDay: int,
    estimatedCostUsd: real,
    status: Status,
    teamSize: int,
    businessUnit: BusinessUnit)

  /** The random draws that one project consumes, in standard form. */
  datatype ProjectDraws = ProjectDraws(
    sourcePick: nat,         // choice over the providers
    targetPick: nat,         // choice over the other providers
    dataSize: real,          // lognormal(8, 2)
    complexityUnit: real,    // unit draw of uniform(1, 10)
    durationDeviate: real,   // standard deviate of normal(base_days, 0.2 * base_days)
    daysAgo: int,            // randint(0, 180)
    dataTypePick: nat,       // choice over the data types
    strategyPick: nat,       // choice over the strategies
    statusUnit: real,        // unit draw of the weighted status choice
    teamSize: int,           // randint(3, 12)
    businessUnitPick: nat)   // choice over the business units

  /** What numpy guarantees of each draw. */
  predicate ValidDraws(d: ProjectDraws)
  {
    && d.sourcePick < |Providers|
    && d.targetPick < |Providers| - 1
    && d.dataSize > 0.0
    && 0.0 <= d.complexityUnit < 1.0
    && 0 <= d.daysAgo < 180
    && d.dataTypePick < |DataTypes|
    && d.strategyPick < |MigrationStrategies|
    && 0.0 <= d.statusUnit < 1.0
    && 3 <= d.teamSize < 12
    && d.businessUnitPick < |BusinessUnits|
  }

  /** The expected duration: at least 30 days, otherwise size/100 + 5 * complexity. */
  function BaseDays(dataSize: real, complexity: real): (r: real)
    ensures r >= 30.0
    ensures r >= dataSize / 100.0 + complexity * 5.0
  {
    Max(30.0, dataSize / 100.0 + complexity * 5.0)
  }

  /** `int(normal(base, 0.2 * base))`: the drawn duration, truncated toward zero. */
  function MigrationDays(base: real, deviate: real): int
  {
    TruncateToInt(Normal(base, base * 0.2, deviate))
  }

  function BaseCost(dataSize: real, complexity: real): real
  {
    dataSize * 10.0 + complexity * 1000.0
  }

  function StatusOf(u: real): Status
  {
    Statuses[WeightedPick(StatusWeights, u)]
  }

  function SourceOf(d: ProjectDraws): Provider
    requires ValidDraws(d)
  {
    Providers[d.sourcePick]
  }

  /** The target is picked among the providers other than the source. */
  function TargetOf(d: ProjectDraws): (c: Provider)
    requires ValidDraws(d)
    ensures c != SourceOf(d)
  {
    var others := OtherProviders(SourceOf(d));
    assert others[d.targetPick] in others;
    others[d.targetPick]
  }

  /** The drawn (unrounded) complexity, in [1, 10]. */
  function ComplexityOf(d: ProjectDraws): (c: real)
    requires ValidDraws(d)
    ensures 1.0 <= c <= 10.0
  {
    UniformRange(1.0, 10.0, d.complexityUnit);
    Uniform(1.0, 10.0, d.complexityUnit)
  }

  function DurationOf(d: ProjectDraws): int
    requires ValidDraws(d)
  {
    MigrationDays(BaseDays(d.dataSize, ComplexityOf(d)), d.durationDeviate)
  }

  /** The unrounded migration cost; never negative. */
  function CostOf(d: ProjectDraws): (r: real)
    requires ValidDraws(d)
    ensures r >= 0.0
  {
    AverageCostFactorValues(SourceOf(d), TargetOf(d));
    BaseCost(d.dataSize, ComplexityOf(d)) * AverageCostFactor(SourceOf(d), TargetOf(d))
  }

  /** The project at 0-based position i, generated on day `now` from the draws d. */
  function MakeProject(i: nat, now: int, d: ProjectDraws): (p: Project)
    requires ValidDraws(d)
    ensures p.projectId == ProjectId(i) && p.projectName == ProjectName(i)
  {
    var start := now - d.daysAgo;
    Project(
      ProjectId(i), ProjectName(i), SourceOf(d), TargetOf(d), DataTypes[d.dataTypePick],
      Round(d.dataSize, 2), Round(ComplexityOf(d), 1), MigrationStrategies[d.strategyPick],
      start, start + DurationOf(d), Round(CostOf(d), 2), StatusOf(d.statusUnit), d.teamSize,
      BusinessUnits[d.businessUnitPick])
  }

  /** The table of the first n projects, the k-th built from the k-th draws. */
  function ProjectTable(n: nat, now: int, draws: seq<ProjectDraws>): (table: seq<Project>)
    requires n <= |draws| && forall k :: 0 <= k < n ==> ValidDraws(draws[k])
    ensures |table| == n
  {
    seq(n, k requires 0 <= k < n => MakeProject(k, now, draws[k]))
  }

  /** Building the next project extends the table by exactly that project. */
  lemma ProjectTableStep(n: nat, now: int, draws: seq<ProjectDraws>, p: Project)
    requires n < |draws| && forall k :: 0 <= k <= n ==> ValidDraws(draws[k])
    requires p == MakeProject(n, now, draws[n])
    ensures ProjectTable(n + 1, now, draws) == ProjectTable(n, now, draws) + [p]
  {
    var before, after := ProjectTable(n, now, draws), ProjectTable(n + 1, now, draws);
    var extended := before + [p];
    assert forall k :: 0 <= k < n ==> after[k] == extended[k];
    assert after[n] == extended[n];
  }

  /** What every generated project satisfies. */
  predicate ProjectInvariant(p: Project, now: int)
  {
    && p.sourceCloud != p.targetCloud
    && p.sourceCloud in Providers && p.targetCloud in Providers
    && p.status in Statuses
    && p.dataSizeGb >= 0.0
    && 1.0 <= p.complexityScore <= 10.0
    && p.estimatedCostUsd >= 0.0
    && 3 <= p.teamSize < 12
    && now - 180 < p.startDay <= now
  }

  /** Every project the generator builds satisfies the record invariant. */
  lemma MakeProjectInvariant(i: nat, now: int, d: ProjectDraws)
    requires ValidDraws(d)
    ensures ProjectInvariant(MakeProject(i, now, d), now)
  {
    var p := MakeProject(i, now, d);
    ProviderListed(p.targetCloud);
    assert Round(1.0, 1) == 1.0 && Round(10.0, 1) == 10.0;
    RoundBetween(ComplexityOf(d), 1, 1.0, 10.0);
    assert Round(0.0, 2) == 0.0;
    RoundMonotone(0.0, d.dataSize, 2);
    RoundMonotone(0.0, CostOf(d), 2);
  }

  /** The 1-based number read back from the identifier of the project at position i. */
  lemma ProjectIdentity(i: nat, now: int, d: ProjectDraws)
    requires ValidDraws(d)
    ensures ProjectNumber(MakeProject(i, now, d).projectId) == i + 1
  {
    ProjectIdRoundTrip(i);
  }

  /** The unrounded cost is (size * 10 + complexity * 1000) times the average of the two
      providers' cost factors, and between two distinct providers that average is 0.95, 1.0
      or 1.05. */
  lemma CostFormula(d: ProjectDraws)
    requires ValidDraws(d)
    ensures var factor := (SourceOf(d).CostFactor() + TargetOf(d).CostFactor()) / 2.0;
            && factor in {0.95, 1.0, 1.05}
            && CostOf(d) == (d.dataSize * 10.0 + ComplexityOf(d) * 1000.0) * factor
  {
    AverageCostFactorValues(SourceOf(d), TargetOf(d));
  }

  /** The recorded cost is the unrounded cost rounded to cents, so within half a cent of it,
      and is computed on the drawn size and complexity, not their rounded copies. */
  lemma CostRule(i: nat, now: int, d: ProjectDraws)
    requires ValidDraws(d)
    ensures var p := MakeProject(i, now, d);
            && p.sourceCloud == SourceOf(d) && p.targetCloud == TargetOf(d)
            && p.estimatedCostUsd == Round(CostOf(d), 2)
            && -0.005 <= p.estimatedCostUsd - CostOf(d) <= 0.005
  {
    RoundError(CostOf(d), 2);
    assert Pow10(2) == 100;
  }

  /** The expected duration is never below 30 days; the end date is the start date plus the
      truncated normal draw around it, so a draw at or above its mean lasts 30 days or more. */
  lemma DurationRule(i: nat, now: int, d: ProjectDraws)
    requires ValidDraws(d)
    ensures var p := MakeProject(i, now, d);
            var base := BaseDays(d.dataSize, ComplexityOf(d));
            && base >= 30.0
            && p.startDay == now - d.daysAgo
            && p.endDay - p.startDay == MigrationDays(base, d.durationDeviate)
            && (d.durationDeviate >= 0.0 ==> p.endDay - p.startDay >= 30)
  {
    var base := BaseDays(d.dataSize, ComplexityOf(d));
    if d.durationDeviate >= 0.0 {
      MigrationDaysAtLeastBase(base, d.durationDeviate);
    }
  }

  lemma MigrationDaysAtLeastBase(base: real, deviate: real)
    requires base >= 30.0 && deviate >= 0.0
    ensures MigrationDays(base, deviate) >= 30
  {
    MulMonotone(0.0, deviate, base * 0.2);
    assert Normal(base, base * 0.2, deviate) >= 30.0;
  }

  /** The timeline and status fields of a built project, without the rest of the record. */
  lemma MakeProjectTimeline(i: nat, now: int, d: ProjectDraws)
    requires ValidDraws(d)
    ensures var p := MakeProject(i, now, d);
            && p.status == StatusOf(d.statusUnit)
            && p.startDay == now - d.daysAgo
            && p.endDay == now - d.daysAgo + DurationOf(d)
  {
  }

  /** The truncated duration can be zero or negative, so a project may end before it
      starts. */
  lemma EndBeforeStartPossible(i: nat, now: int)
    ensures exists d :: ValidDraws(d) && MakeProject(i, now, d).endDay < MakeProject(i, now, d).startDay
  {
    var d := ProjectDraws(0, 0, 100.0, 0.0, -6.0, 0, 0, 0, 0.0, 3, 0);
    assert ValidDraws(d);
    assert BaseDays(100.0, 1.0) == 30.0;
    assert MigrationDays(30.0, -6.0) == TruncateToInt(-6.0);
    assert MakeProject(i, now, d).endDay == MakeProject(i, now, d).startDay - 6;
  }

  /** A unit draw in [0.2, 0.6) picks the second status, in progress. */
  lemma InProgressBand(u: real)
    requires 0.2 <= u < 0.6
    ensures StatusOf(u) == InProgress
  {
    var rest := StatusWeights[1..];
    assert rest == [0.4, 0.3, 0.1];
    assert WeightedPick(rest, u - 0.2) == 0;
    assert WeightedPick(StatusWeights, u) == 1;
  }

  /** A 100 GB project of lowest complexity drawn 5 standard deviations short plans
      zero days. */
  lemma ZeroDuration(d: ProjectDraws)
    requires ValidDraws(d) && d.dataSize == 100.0 && d.complexityUnit == 0.0
    requires d.durationDeviate == -5.0
    ensures DurationOf(d) == 0
  {
    assert ComplexityOf(d) == 1.0;
    assert BaseDays(100.0, 1.0) == 30.0;
    assert Normal(30.0, 30.0 * 0.2, -5.0) == 0.0;
  }

  /** Valid draws for a project in progress, started today, planned for zero days. */
  lemma ZeroDurationDraws() returns (d: ProjectDraws)
    ensures ValidDraws(d) && d.daysAgo == 0 && DurationOf(d) == 0
    ensures 0.2 <= d.statusUnit < 0.6
  {
    d := ProjectDraws(0, 0, 100.0, 0.0, -5.0, 0, 0, 0, 0.3, 3, 0);
    assert ValidDraws(d);
    ZeroDuration(d);
  }

  /** Every project of a generated table keeps the record invariant and has an id no
      other project of the table has. */
  lemma ProjectTableInvariant(n: nat, now: int, draws: seq<ProjectDraws>)
    requires n <= |draws| && forall k :: 0 <= k < n ==> ValidDraws(draws[k])
    ensures var table := ProjectTable(n, now, draws);
            && (forall k :: 0 <= k < n ==> ProjectInvariant(table[k], now))
            && (forall k, l :: 0 <= k < l < n ==> table[k].projectId != table[l].projectId)
  {
    var table := ProjectTable(n, now, draws);
    forall k | 0 <= k < n
      ensures ProjectInvariant(table[k], now) && table[k].projectId == ProjectId(k)
    {
      MakeProjectInvariant(k, now, draws[k]);
    }
    GeneratedIdsDistinct(table);
  }

  /** In a project table generated position by position, no two projects share an id. */
  lemma GeneratedIdsDistinct(projects: seq<Project>)
    requires forall k :: 0 <= k < |projects| ==> projects[k].projectId == ProjectId(k)
    ensures forall k, l :: 0 <= k < l < |projects| ==> projects[k].projectId != projects[l].projectId
  {
    forall k, l | 0 <= k < l < |projects|
      ensures projects[k].projectId != projects[l].projectId
    {
      ProjectIdsDistinct(k, l);
    }
  }
}
