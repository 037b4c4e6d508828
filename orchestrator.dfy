/** The orchestrator object: the catalog it is built with, and the four table generators
    that walk their input row by row. Every generator is proved to produce exactly the
    table its specification function describes. */
module Orchestrator {
  import opened Numerics
  import opened Sampling
  import opened Catalog
  import opened Identifiers
  import opened Projects
  import opened Performance
  import opened CostAnalysis
  import opened Errors
  import opened Recommendations

  class MigrationOrchestrator {
    /** The providers in declaration order, with their cost factors. */
    const cloudProviders: seq<Provider>
    const costFactors: map<Provider, real>
    const dataTypes: seq<DataType>
    const migrationStrategies: seq<Strategy>

    /** The catalog is the fixed one: every listed provider has its own cost factor. */
    predicate Valid()
    {
      && cloudProviders == Providers
      && (forall c :: c in costFactors <==> c in cloudProviders)
      && (forall c :: c in costFactors ==> costFactors[c] == c.CostFactor())
      && dataTypes == DataTypes
      && migrationStrategies == MigrationStrategies
    }

    constructor ()
      ensures Valid()
      ensures costFactors == map[AWS := 1.0, GCP := 0.9, Azure := 1.1]
    {
      cloudProviders := [AWS, GCP, Azure];
      costFactors := map[AWS := 1.0, GCP := 0.9, Azure := 1.1];
      dataTypes := [Transactional, Analytical, Streaming, Batch, Structured, Unstructured, SemiStructured];
      migrationStrategies := [LiftAndShift, Replatform, Refactor, Hybrid];
      new;
      assert forall c: Provider :: c in cloudProviders by {
        forall c: Provider ensures c in cloudProviders {
          ProviderListed(c);
        }
      }
    }

    /** `range(num_projects)`: the k-th project is built from the k-th draws; a count at or
        below zero gives no projects. Every project keeps the record invariant, and no two
        share an id. */
    method GenerateMigrationProjects(numProjects: int, now: int, draws: seq<ProjectDraws>)
      returns (projects: seq<Project>)
      requires Valid()
      requires |draws| >= numProjects
      requires forall k :: 0 <= k < numProjects ==> ValidDraws(draws[k])
      ensures projects == ProjectTable(if numProjects > 0 then numProjects else 0, now, draws)
      ensures forall k :: 0 <= k < |projects| ==> ProjectInvariant(projects[k], now)
      ensures forall k, l :: 0 <= k < l < |projects| ==> projects[k].projectId != projects[l].projectId
    {
      projects := [];
      var i := 0;
      while i < numProjects
        invariant 0 <= i && (i == 0 || i <= numProjects)
        invariant projects == ProjectTable(i, now, draws)
      {
        var project := BuildProject(i, now, draws[i]);
        ProjectTableStep(i, now, draws, project);
        projects := projects + [project];
        i := i + 1;
      }
      ProjectTableInvariant(i, now, draws);
    }

    /** One iteration of the project loop, reading the providers, their cost factors, the
        data types and the strategies from the object's catalog. */
    method BuildProject(i: nat, now: int, d: ProjectDraws) returns (project: Project)
      requires Valid() && ValidDraws(d)
      ensures project == MakeProject(i, now, d)
    {
      var sourceCloud := cloudProviders[d.sourcePick];
      var candidates := Without(cloudProviders, sourceCloud);
      assert candidates == OtherProviders(sourceCloud);
      var targetCloud := candidates[d.targetPick];
      var dataSize := d.dataSize;
      var complexity := Uniform(1.0, 10.0, d.complexityUnit);
      var baseDays := Max(30.0, dataSize / 100.0 + complexity * 5.0);
      var migrationDays := TruncateToInt(Normal(baseDays, baseDays * 0.2, d.durationDeviate));
      var start := now - d.daysAgo;
      var baseCost := dataSize * 10.0 + complexity * 1000.0;
      var sourceFactor := costFactors[sourceCloud];
      var targetFactor := costFactors[targetCloud];
      var migrationCost := baseCost * (sourceFactor + targetFactor) / 2.0;
      var dataType := dataTypes[d.dataTypePick];
      var strategy := migrationStrategies[d.strategyPick];
      assert sourceCloud == SourceOf(d) && targetCloud == TargetOf(d);
      assert dataType == DataTypes[d.dataTypePick] && strategy == MigrationStrategies[d.strategyPick];
      assert complexity == ComplexityOf(d);
      assert migrationDays == DurationOf(d);
      assert sourceFactor == sourceCloud.CostFactor() && targetFactor == targetCloud.CostFactor();
      assert migrationCost == CostOf(d) by {
        assert migrationCost == baseCost * ((sourceFactor + targetFactor) / 2.0);
      }
      project := Project(
        ProjectId(i), ProjectName(i), sourceCloud, targetCloud, dataType,
        Round(dataSize, 2), Round(complexity, 1), strategy,
        start, start + migrationDays, Round(migrationCost, 2), StatusOf(d.statusUnit), d.teamSize,
        BusinessUnits[d.businessUnitPick]);
    }

    /** For every project in progress or completed, one row per day from its start day
        through the earlier of its end day and today, each row taking the next draws. */
    method GeneratePerformanceMetrics(projects: seq<Project>, now: int, draws: seq<RowDraws>)
      returns (metrics: seq<MetricRow>)
      requires |draws| >= TotalRows(projects, now)
      requires DivisorsNonZero(projects, now)
      ensures metrics == PerformanceRows(projects, now, draws)
      ensures AllValidRowDraws(draws) ==> forall j :: 0 <= j < |metrics| ==> RowInvariant(metrics[j])
    {
      metrics := [];
      var used := 0;
      var i := 0;
      RowsBeforeMonotone(projects, 0, |projects|, now);
      while i < |projects|
        invariant 0 <= i <= |projects|
        invariant used == RowsBefore(projects, i, now) <= |draws|
        invariant metrics == RowsUpTo(projects, i, now, draws)
      {
        RowsBeforeMonotone(projects, i + 1, |projects|, now);
        metrics, used := AppendProjectMetrics(metrics, projects[i], now, draws, used);
        i := i + 1;
      }
      if AllValidRowDraws(draws) {
        AllRowsInvariant(projects, |projects|, now, draws);
      }
    }

    /** The day loop of one project: appends its rows, taking the draws from `used` on. */
    method AppendProjectMetrics(metrics: seq<MetricRow>, project: Project, now: int, draws: seq<RowDraws>, used: nat)
      returns (extended: seq<MetricRow>, next: nat)
      requires used + RowCount(project, now) <= |draws|
      requires RowCount(project, now) > 0 ==> project.endDay != project.startDay
      ensures next == used + RowCount(project, now)
      ensures extended == metrics + ProjectRows(project, now, draws[used..next])
    {
      ghost var block := ProjectRows(project, now, draws[used..used + RowCount(project, now)]);
      extended, next := metrics, used;
      if IsActive(project.status) {
        var current := project.startDay;
        var last := MinInt(project.endDay, now);
        while current <= last
          invariant 0 <= current - project.startDay <= RowCount(project, now)
          invariant next == used + (current - project.startDay)
          invariant extended == metrics + block[..current - project.startDay]
        {
          var row := MakeRow(project, current, draws[next]);
          assert block[..current - project.startDay + 1] == block[..current - project.startDay] + [row];
          extended := extended + [row];
          next := next + 1;
          current := current + 1;
        }
      }
      assert block[..RowCount(project, now)] == block;
    }

    /** One breakdown row per project: the five category shares of its cost, each then
        scaled by its own noise factor and rounded to cents, in category order. */
    method GenerateCostAnalysis(projects: seq<Project>, noise: seq<seq<real>>)
      returns (breakdowns: seq<CostRow>)
      requires NoiseShaped(projects, noise)
      ensures breakdowns == CostBreakdown(projects, noise)
    {
      breakdowns := [];
      var i := 0;
      while i < |projects|
        invariant 0 <= i <= |projects|
        invariant breakdowns == CostBreakdown(projects, noise)[..i]
      {
        var project := projects[i];
        var total := project.estimatedCostUsd;
        var costs := [total * 0.4, total * 0.25, total * 0.15, total * 0.1, total * 0.1];
        ghost var split := InitialSplit(total);
        assert costs == split;
        var k := 0;
        while k < |CostCategories|
          invariant 0 <= k <= |CostCategories| && |costs| == |CostCategories|
          invariant forall l :: 0 <= l < k ==> costs[l] == Perturbed(split[l], noise[i][l])
          invariant forall l :: k <= l < |costs| ==> costs[l] == split[l]
        {
          costs := costs[k := Perturbed(costs[k], noise[i][k])];
          k := k + 1;
        }
        var row := CostRow(project.projectId, costs, project.sourceCloud, project.targetCloud, project.dataSizeGb);
        assert row == CostRowOf(project, noise[i]);
        assert CostBreakdown(projects, noise)[..i + 1] == CostBreakdown(projects, noise)[..i] + [row];
        breakdowns := breakdowns + [row];
        i := i + 1;
      }
      assert CostBreakdown(projects, noise)[..|projects|] == CostBreakdown(projects, noise);
    }

    /** The latency records, then the error records, each taking the next savings draw, and
        then one cost record per project above the 0.8 quantile of the costs; a project table
        without records has no cost column. */
    method GenerateRecommendations(projects: seq<Project>, performance: seq<MetricRow>, units: seq<real>)
      returns (r: Result<seq<Recommendation>>)
      requires |units| >= SavingsDraws(performance)
      ensures r == Recommendations.GenerateRecommendations(projects, performance, units)
    {
      var recs := PerformanceRecommendations(performance, units);
      if projects == [] {
        return KeyError("estimated_cost_usd");
      }
      var threshold := CostThreshold(projects);
      recs := AppendCostRecommendations(recs, projects, threshold);
      r := Ok(recs);
    }

    /** The two performance passes; both are skipped on an empty performance table. */
    method PerformanceRecommendations(performance: seq<MetricRow>, units: seq<real>)
      returns (recs: seq<Recommendation>)
      requires |units| >= SavingsDraws(performance)
      ensures recs == PerformancePasses(LatencyPassIds(performance), ErrorPassIds(performance), units)
    {
      if |performance| > 0 {
        var highLatency := HighLatencyIds(performance);
        var highError := HighErrorRateIds(performance);
        var n := |highLatency|;
        var latencyRecs := AppendPerformancePass([], highLatency, HighLatency, units[..n]);
        assert latencyRecs == PerformanceRecords(highLatency, HighLatency, units[..n]);
        recs := AppendPerformancePass(latencyRecs, highError, HighErrorRate, units[n..n + |highError|]);
      } else {
        recs := [];
      }
    }

    /** One performance pass: appends one record per flagged id, in order, the k-th
        taking the k-th savings draw. */
    method AppendPerformancePass(prefix: seq<Recommendation>, ids: seq<string>, issue: Issue, units: seq<real>)
      returns (recs: seq<Recommendation>)
      requires |units| == |ids|
      ensures recs == prefix + PerformanceRecords(ids, issue, units)
    {
      recs := prefix;
      var k := 0;
      while k < |ids|
        invariant 0 <= k <= |ids| && |recs| == |prefix| + k
        invariant recs[..|prefix|] == prefix
        invariant forall j :: 0 <= j < k ==>
                    recs[|prefix| + j] == Recommendation(ids[j], issue, PerformanceAdvice(issue), PerformanceSavings(issue, units[j]))
      {
        var savings := PerformanceSavings(issue, units[k]);
        recs := recs + [Recommendation(ids[k], issue, PerformanceAdvice(issue), savings)];
        k := k + 1;
      }
      var expected := prefix + PerformanceRecords(ids, issue, units);
      assert forall j :: 0 <= j < |recs| ==> recs[j] == expected[j] by {
        forall j | 0 <= j < |recs|
          ensures recs[j] == expected[j]
        {
          if j < |prefix| {
            assert recs[j] == recs[..|prefix|][j];
          }
        }
      }
    }

    /** The cost pass: appends the record of every project whose cost is above the
        threshold, in project order. */
    method AppendCostRecommendations(prefix: seq<Recommendation>, projects: seq<Project>, threshold: real)
      returns (recs: seq<Recommendation>)
      ensures recs == prefix + CostRecords(ExpensiveProjects(projects, threshold))
    {
      recs := prefix;
      var i := 0;
      while i < |projects|
        invariant 0 <= i <= |projects|
        invariant recs == prefix + CostRecords(ExpensiveProjects(projects[..i], threshold))
      {
        ExpensiveStep(projects, threshold, i);
        if projects[i].estimatedCostUsd > threshold {
          CostRecordsAppend(ExpensiveProjects(projects[..i], threshold), projects[i]);
          recs := recs + [CostRecord(projects[i])];
        } else {
          assert ExpensiveProjects(projects[..i], threshold) + [] == ExpensiveProjects(projects[..i], threshold);
        }
        i := i + 1;
      }
      assert projects[..|projects|] == projects;
    }
  }
}
