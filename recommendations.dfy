/** The optimisation recommendations: one pass over the performance table for high
    latency, one for high error rates, and one over the project table for costs above the
    80th percentile. A project table built from no records has no cost column. */
module Recommendations {
  import opened Numerics
  import opened Sampling
  import opened Columns
  import opened Catalog
  import opened Projects
  import opened Performance
  import opened Errors
  import opened Patterns

  /** The issue a recommendation addresses; it fixes the recommendation's type, its
      priority and, for the performance passes, its advice. */
  datatype Issue = HighLatency | HighErrorRate | HighMigrationCost
  {
    function Label(): string
    {
      match this
      case HighLatency => "High Latency"
      case HighErrorRate => "High Error Rate"
      case HighMigrationCost => "High Migration Cost"
    }

    function TypeLabel(): string
    {
      match this
      case HighLatency => "Performance"
      case HighErrorRate => "Reliability"
      case HighMigrationCost => "Cost Optimization"
    }

    function Priority(): string
    {
      match this
      case HighLatency => "High"
      case HighErrorRate => "Critical"
      case HighMigrationCost => "Medium"
    }

    /** The position of the pass that emits this issue. */
    function Pass(): nat
    {
      match this
      case HighLatency => 0
      case HighErrorRate => 1
      case HighMigrationCost => 2
    }
  }

  /** The advice of a recommendation; the cost advice names the project's strategy. */
  datatype Advice = NetworkAdvice | RetryAdvice | StrategyAdvice(strategy: Strategy)
  {
    function Text(): string
    {
      match this
      case NetworkAdvice => "Consider optimizing network configuration or using dedicated connections"
      case RetryAdvice => "Implement better error handling and retry mechanisms"
      case StrategyAdvice(s) => "Consider " + s.Label() + " strategy optimization"
    }
  }

  datatype Recommendation = Recommendation(
    projectId: string,
    issue: Issue,
    advice: Advice,
    estimatedSavingsUsd: real)

  const LatencyThresholdMs: real := 200.0
  const ErrorRateThreshold: real := 0.05
  const CostQuantile: real := 0.8
  const SavingsShare: real := 0.15

  predicate HasHighLatency(m: MetricRow)
  {
    m.latencyMs > LatencyThresholdMs
  }

  predicate HasHighErrorRate(m: MetricRow)
  {
    m.errorRate > ErrorRateThreshold
  }

  /** The project ids of the rows that satisfy `flagged`, in row order (a boolean filter
      followed by the `project_id` column). */
  function IdsWhere(rows: seq<MetricRow>, flagged: MetricRow -> bool): (ids: seq<string>)
    ensures forall id :: id in ids <==> exists j :: 0 <= j < |rows| && flagged(rows[j]) && rows[j].projectId == id
  {
    if rows == [] then []
    else
      var init, last := rows[..|rows| - 1], rows[|rows| - 1];
      var rest := IdsWhere(init, flagged);
      assert forall j :: 0 <= j < |init| ==> init[j] == rows[j];
      if flagged(last) then rest + [last.projectId] else rest
  }

  /** `unique()` of the ids of the rows with latency above 200 ms. */
  function HighLatencyIds(rows: seq<MetricRow>): seq<string>
  {
    Distinct(IdsWhere(rows, HasHighLatency))
  }

  /** `unique()` of the ids of the rows with an error rate above 0.05. */
  function HighErrorRateIds(rows: seq<MetricRow>): seq<string>
  {
    Distinct(IdsWhere(rows, HasHighErrorRate))
  }

  /** The savings of a performance recommendation: uniform(1000, 5000) for latency and
      uniform(2000, 8000) for errors, from the unit draw u. */
  function PerformanceSavings(issue: Issue, u: real): real
  {
    if issue == HighLatency then Uniform(1000.0, 5000.0, u) else Uniform(2000.0, 8000.0, u)
  }

  function PerformanceAdvice(issue: Issue): Advice
  {
    if issue == HighLatency then NetworkAdvice else RetryAdvice
  }

  /** One record per id of `ids`, in order, the k-th taking the k-th savings draw. */
  function PerformanceRecords(ids: seq<string>, issue: Issue, units: seq<real>): (recs: seq<Recommendation>)
    requires |units| == |ids|
    ensures |recs| == |ids|
  {
    seq(|ids|, k requires 0 <= k < |ids| =>
      Recommendation(ids[k], issue, PerformanceAdvice(issue), PerformanceSavings(issue, units[k])))
  }

  /** The threshold of the cost pass: the linearly interpolated 0.8 quantile of the costs. */
  function CostThreshold(ps: seq<Project>): real
    requires ps != []
  {
    Quantile(CostColumn(ps), CostQuantile)
  }

  /** The projects whose cost is strictly above the threshold t, in project order. */
  function ExpensiveProjects(ps: seq<Project>, t: real): (r: seq<Project>)
    ensures forall p :: p in r <==> p in ps && p.estimatedCostUsd > t
  {
    if ps == [] then []
    else
      var init, last := ps[..|ps| - 1], ps[|ps| - 1];
      var rest := ExpensiveProjects(init, t);
      assert ps == init + [last];
      if last.estimatedCostUsd > t then rest + [last] else rest
  }

  function CostRecord(p: Project): Recommendation
  {
    Recommendation(p.projectId, HighMigrationCost, StrategyAdvice(p.migrationStrategy),
                   p.estimatedCostUsd * SavingsShare)
  }

  function CostRecords(expensive: seq<Project>): (recs: seq<Recommendation>)
    ensures |recs| == |expensive|
  {
    seq(|expensive|, k requires 0 <= k < |expensive| => CostRecord(expensive[k]))
  }

  /** The ids the two performance passes flag; none when the performance table is empty. */
  function LatencyPassIds(perf: seq<MetricRow>): seq<string>
  {
    if |perf| > 0 then HighLatencyIds(perf) else []
  }

  function ErrorPassIds(perf: seq<MetricRow>): seq<string>
  {
    if |perf| > 0 then HighErrorRateIds(perf) else []
  }

  /** How many savings draws the performance passes take. */
  function SavingsDraws(perf: seq<MetricRow>): nat
  {
    |LatencyPassIds(perf)| + |ErrorPassIds(perf)|
  }

  /** The records of the two performance passes: the latency records, then the error
      records, which take the savings draws after those of the latency records. */
  function PerformancePasses(lat: seq<string>, err: seq<string>, units: seq<real>): (r: seq<Recommendation>)
    requires |units| >= |lat| + |err|
    ensures |r| == |lat| + |err|
  {
    PerformanceRecords(lat, HighLatency, units[..|lat|])
    + PerformanceRecords(err, HighErrorRate, units[|lat|..|lat| + |err|])
  }

  /** The output assembled from the flagged ids and the projects above the cost threshold:
      the performance records, then one cost record per listed project. */
  function RecommendationsAt(lat: seq<string>, err: seq<string>, units: seq<real>, e: seq<Project>): (r: seq<Recommendation>)
    requires |units| >= |lat| + |err|
    ensures |r| == |lat| + |err| + |e|
  {
    PerformancePasses(lat, err, units) + CostRecords(e)
  }

  /** All recommendations: the latency records, then the error records, then the cost
      records. Reading the cost column of a table with no records raises KeyError. */
  function GenerateRecommendations(ps: seq<Project>, perf: seq<MetricRow>, units: seq<real>): (r: Result<seq<Recommendation>>)
    requires |units| >= SavingsDraws(perf)
    ensures r.KeyError? <==> ps == []
    ensures r.KeyError? ==> r.column == "estimated_cost_usd"
  {
    if ps == [] then KeyError("estimated_cost_usd")
    else Ok(RecommendationsAt(LatencyPassIds(perf), ErrorPassIds(perf), units,
                              ExpensiveProjects(ps, CostThreshold(ps))))
  }

  /** Scanning one more project extends the selection by that project exactly when its
      cost is above t. */
  lemma ExpensiveStep(ps: seq<Project>, t: real, i: nat)
    requires i < |ps|
    ensures ExpensiveProjects(ps[..i + 1], t) ==
            ExpensiveProjects(ps[..i], t) + (if ps[i].estimatedCostUsd > t then [ps[i]] else [])
  {
    assert ps[..i + 1][..i] == ps[..i];
  }

  lemma CostRecordsAppend(e: seq<Project>, p: Project)
    ensures CostRecords(e + [p]) == CostRecords(e) + [CostRecord(p)]
  {
    assert forall k :: 0 <= k < |e| ==> (e + [p])[k] == e[k];
  }

  /** The ids of the records that address `issue`, in output order. */
  function IdsWithIssue(recs: seq<Recommendation>, issue: Issue): seq<string>
  {
    if recs == [] then []
    else
      var rest := IdsWithIssue(recs[..|recs| - 1], issue);
      if recs[|recs| - 1].issue == issue then rest + [recs[|recs| - 1].projectId] else rest
  }

  lemma {:induction false} IdsWithIssueAppend(a: seq<Recommendation>, b: seq<Recommendation>, issue: Issue)
    ensures IdsWithIssue(a + b, issue) == IdsWithIssue(a, issue) + IdsWithIssue(b, issue)
  {
    if b == [] {
      assert a + b == a;
    } else {
      var init := b[..|b| - 1];
      IdsWithIssueAppend(a, init, issue);
      assert (a + b)[..|a + b| - 1] == a + init;
    }
  }

  /** Records built for one issue list exactly their ids under that issue, and none under
      any other. */
  lemma {:induction false} PerformanceRecordsIds(ids: seq<string>, issue: Issue, units: seq<real>, other: Issue)
    requires |units| == |ids|
    ensures IdsWithIssue(PerformanceRecords(ids, issue, units), other) == if other == issue then ids else []
  {
    if ids != [] {
      var n := |ids| - 1;
      PerformanceRecordsIds(ids[..n], issue, units[..n], other);
      assert PerformanceRecords(ids, issue, units)[..n] == PerformanceRecords(ids[..n], issue, units[..n]);
      assert ids[..n] + [ids[n]] == ids;
    }
  }

  function ProjectIds(ps: seq<Project>): (ids: seq<string>)
    ensures |ids| == |ps| && forall i :: 0 <= i < |ps| ==> ids[i] == ps[i].projectId
  {
    seq(|ps|, i requires 0 <= i < |ps| => ps[i].projectId)
  }

  lemma {:induction false} CostRecordsIds(expensive: seq<Project>, other: Issue)
    ensures IdsWithIssue(CostRecords(expensive), other) ==
            if other == HighMigrationCost then ProjectIds(expensive) else []
  {
    if expensive != [] {
      var n := |expensive| - 1;
      CostRecordsIds(expensive[..n], other);
      assert CostRecords(expensive)[..n] == CostRecords(expensive[..n]);
      assert ProjectIds(expensive)[..n] == ProjectIds(expensive[..n]);
    }
  }

  /** Per issue, the output lists exactly the ids its pass flags, in the pass's order. */
  lemma IssueIdsOfOutput(ps: seq<Project>, perf: seq<MetricRow>, units: seq<real>, issue: Issue)
    requires |units| >= SavingsDraws(perf) && ps != []
    ensures IdsWithIssue(GenerateRecommendations(ps, perf, units).value, issue) ==
            match issue
            case HighLatency => LatencyPassIds(perf)
            case HighErrorRate => ErrorPassIds(perf)
            case HighMigrationCost => ProjectIds(ExpensiveProjects(ps, CostThreshold(ps)))
  {
    IssueIdsAt(LatencyPassIds(perf), ErrorPassIds(perf), units, ExpensiveProjects(ps, CostThreshold(ps)), issue);
  }

  lemma IssueIdsAt(lat: seq<string>, err: seq<string>, units: seq<real>, e: seq<Project>, issue: Issue)
    requires |units| >= |lat| + |err|
    ensures IdsWithIssue(RecommendationsAt(lat, err, units, e), issue) ==
            match issue
            case HighLatency => lat
            case HighErrorRate => err
            case HighMigrationCost => ProjectIds(e)
  {
    var a := PerformanceRecords(lat, HighLatency, units[..|lat|]);
    var b := PerformanceRecords(err, HighErrorRate, units[|lat|..|lat| + |err|]);
    var c := CostRecords(e);
    assert RecommendationsAt(lat, err, units, e) == (a + b) + c;
    IdsWithIssueAppend(a + b, c, issue);
    IdsWithIssueAppend(a, b, issue);
    PerformanceRecordsIds(lat, HighLatency, units[..|lat|], issue);
    PerformanceRecordsIds(err, HighErrorRate, units[|lat|..|lat| + |err|], issue);
    CostRecordsIds(e, issue);
  }

  /** The latency pass flags each project id that has some row above 200 ms, once, in the
      order in which such rows first occur; likewise the error pass for rates above 0.05.
      Neither flags anything on an empty performance table. */
  lemma PerformancePassesExact(perf: seq<MetricRow>, id: string)
    ensures id in LatencyPassIds(perf) <==>
            exists j :: 0 <= j < |perf| && perf[j].latencyMs > 200.0 && perf[j].projectId == id
    ensures id in ErrorPassIds(perf) <==>
            exists j :: 0 <= j < |perf| && perf[j].errorRate > 0.05 && perf[j].projectId == id
    ensures NoDuplicates(LatencyPassIds(perf)) && NoDuplicates(ErrorPassIds(perf))
    ensures perf == [] ==> LatencyPassIds(perf) == [] && ErrorPassIds(perf) == []
  {
    if |perf| > 0 {
      var lat := IdsWhere(perf, HasHighLatency);
      var err := IdsWhere(perf, HasHighErrorRate);
      assert id in lat <==> exists j :: 0 <= j < |perf| && HasHighLatency(perf[j]) && perf[j].projectId == id;
      assert id in err <==> exists j :: 0 <= j < |perf| && HasHighErrorRate(perf[j]) && perf[j].projectId == id;
    }
  }

  /** The flagged ids are listed in the order in which their first flagged row occurs. */
  lemma LatencyPassOrder(perf: seq<MetricRow>, i: nat, j: nat)
    requires |perf| > 0 && i < j < |LatencyPassIds(perf)|
    ensures var flagged := IdsWhere(perf, HasHighLatency);
            FirstIndex(flagged, LatencyPassIds(perf)[i]) < FirstIndex(flagged, LatencyPassIds(perf)[j])
  {
    DistinctInFirstAppearanceOrder(IdsWhere(perf, HasHighLatency), i, j);
  }

  lemma ErrorPassOrder(perf: seq<MetricRow>, i: nat, j: nat)
    requires |perf| > 0 && i < j < |ErrorPassIds(perf)|
    ensures var flagged := IdsWhere(perf, HasHighErrorRate);
            FirstIndex(flagged, ErrorPassIds(perf)[i]) < FirstIndex(flagged, ErrorPassIds(perf)[j])
  {
    DistinctInFirstAppearanceOrder(IdsWhere(perf, HasHighErrorRate), i, j);
  }

  /** The performance records in full: the k-th latency record is for the k-th flagged id
      and takes the k-th savings draw; the error records follow with the draws after them. */
  lemma PerformancePassesLayout(lat: seq<string>, err: seq<string>, units: seq<real>)
    requires |units| >= |lat| + |err|
    ensures var r := PerformancePasses(lat, err, units);
            && (forall k :: 0 <= k < |lat| ==>
                  r[k] == Recommendation(lat[k], HighLatency, NetworkAdvice, PerformanceSavings(HighLatency, units[k])))
            && (forall k :: |lat| <= k < |r| ==>
                  r[k] == Recommendation(err[k - |lat|], HighErrorRate, RetryAdvice, PerformanceSavings(HighErrorRate, units[k])))
  {
    var x := PerformanceRecords(lat, HighLatency, units[..|lat|]);
    var y := PerformanceRecords(err, HighErrorRate, units[|lat|..|lat| + |err|]);
    assert PerformancePasses(lat, err, units) == x + y;
  }

  /** Where each record of the output comes from: the first records address the
      performance issues, and the rest are the cost records of the listed projects. */
  lemma OutputLayout(lat: seq<string>, err: seq<string>, units: seq<real>, e: seq<Project>)
    requires |units| >= |lat| + |err|
    ensures var recs, n := RecommendationsAt(lat, err, units, e), |lat| + |err|;
            && (forall k :: 0 <= k < |lat| ==> recs[k].issue == HighLatency)
            && (forall k :: |lat| <= k < n ==> recs[k].issue == HighErrorRate)
            && (forall k :: n <= k < |recs| ==> recs[k] == CostRecord(e[k - n]))
  {
    PerformancePassesLayout(lat, err, units);
    var p, z := PerformancePasses(lat, err, units), CostRecords(e);
    assert RecommendationsAt(lat, err, units, e) == p + z;
  }

  /** The output comes in three sections: every latency record precedes every error record,
      which precedes every cost record. */
  lemma SectionsInOrder(ps: seq<Project>, perf: seq<MetricRow>, units: seq<real>, a: nat, b: nat)
    requires |units| >= SavingsDraws(perf) && ps != []
    requires a < b < |GenerateRecommendations(ps, perf, units).value|
    ensures var recs := GenerateRecommendations(ps, perf, units).value;
            recs[a].issue.Pass() <= recs[b].issue.Pass()
  {
    OutputLayout(LatencyPassIds(perf), ErrorPassIds(perf), units, ExpensiveProjects(ps, CostThreshold(ps)));
  }

  /** A cost record is emitted for a project exactly when its cost is strictly above the
      0.8 quantile of all costs. */
  lemma CostPassExact(ps: seq<Project>, perf: seq<MetricRow>, units: seq<real>, i: nat)
    requires |units| >= SavingsDraws(perf) && i < |ps|
    ensures var recs := GenerateRecommendations(ps, perf, units).value;
            CostRecord(ps[i]) in recs <==> ps[i].estimatedCostUsd > CostThreshold(ps)
  {
    CostPassAt(ps, CostThreshold(ps), LatencyPassIds(perf), ErrorPassIds(perf), units, i);
  }

  lemma CostPassAt(ps: seq<Project>, t: real, lat: seq<string>, err: seq<string>, units: seq<real>, i: nat)
    requires |units| >= |lat| + |err| && i < |ps|
    ensures CostRecord(ps[i]) in RecommendationsAt(lat, err, units, ExpensiveProjects(ps, t)) <==>
            ps[i].estimatedCostUsd > t
  {
    var e := ExpensiveProjects(ps, t);
    OutputLayout(lat, err, units, e);
    CostSection(RecommendationsAt(lat, err, units, e), |lat| + |err|, ps, t, e, ps[i]);
  }

  /** Within an output laid out as performance records followed by the records of the
      projects above t, the record of a project of the table occurs exactly when the project
      is above t. */
  lemma CostSection(recs: seq<Recommendation>, n: nat, ps: seq<Project>, t: real, e: seq<Project>, p: Project)
    requires |recs| == n + |e|
    requires forall j :: 0 <= j < n ==> recs[j].issue != HighMigrationCost
    requires forall j :: n <= j < |recs| ==> recs[j] == CostRecord(e[j - n])
    requires forall q :: q in e <==> q in ps && q.estimatedCostUsd > t
    requires p in ps
    ensures CostRecord(p) in recs <==> p.estimatedCostUsd > t
  {
    var z := CostRecords(e);
    if CostRecord(p) in recs {
      var k :| 0 <= k < |recs| && recs[k] == CostRecord(p);
      assert z[k - n] == recs[k];
    }
    if CostRecord(p) in z {
      var k :| 0 <= k < |z| && z[k] == CostRecord(p);
      assert recs[n + k] == z[k];
    }
    CostRecordOfListed(ps, t, e, p);
  }

  /** The record of a project of the table is among the records of the projects above t
      exactly when the project is above t. */
  lemma CostRecordOfListed(ps: seq<Project>, t: real, e: seq<Project>, p: Project)
    requires forall q :: q in e <==> q in ps && q.estimatedCostUsd > t
    requires p in ps
    ensures CostRecord(p) in CostRecords(e) <==> p.estimatedCostUsd > t
  {
    CostRecordsMembership(e, p);
    if p.estimatedCostUsd > t {
      var j :| 0 <= j < |e| && e[j] == p;
    }
    if j :| 0 <= j < |e| && e[j].projectId == p.projectId &&
            e[j].migrationStrategy == p.migrationStrategy &&
            e[j].estimatedCostUsd == p.estimatedCostUsd {
      assert e[j] in e;
    }
  }

  /** The record of p is among the records of `e` exactly when a project with p's id,
      strategy and cost is listed. */
  lemma CostRecordsMembership(e: seq<Project>, p: Project)
    ensures CostRecord(p) in CostRecords(e) <==>
            exists j :: 0 <= j < |e| && e[j].projectId == p.projectId &&
                        e[j].migrationStrategy == p.migrationStrategy &&
                        e[j].estimatedCostUsd == p.estimatedCostUsd
  {
    var z := CostRecords(e);
    if CostRecord(p) in z {
      var k :| 0 <= k < |z| && z[k] == CostRecord(p);
      assert z[k] == CostRecord(e[k]);
    }
    if exists j :: 0 <= j < |e| && e[j].projectId == p.projectId &&
                   e[j].migrationStrategy == p.migrationStrategy &&
                   e[j].estimatedCostUsd == p.estimatedCostUsd {
      var j :| 0 <= j < |e| && e[j].projectId == p.projectId &&
               e[j].migrationStrategy == p.migrationStrategy &&
               e[j].estimatedCostUsd == p.estimatedCostUsd;
      assert z[j] == CostRecord(p);
    }
  }

  /** Every cost record of the output is the record of a project above the threshold, and
      proposes saving 15% of that project's cost. */
  lemma CostRecordOrigin(ps: seq<Project>, perf: seq<MetricRow>, units: seq<real>, k: nat)
    requires |units| >= SavingsDraws(perf) && ps != []
    requires k < |GenerateRecommendations(ps, perf, units).value|
    requires GenerateRecommendations(ps, perf, units).value[k].issue == HighMigrationCost
    ensures var r := GenerateRecommendations(ps, perf, units).value[k];
            exists i :: 0 <= i < |ps| && r == CostRecord(ps[i]) &&
                        ps[i].estimatedCostUsd > CostThreshold(ps) &&
                        r.estimatedSavingsUsd == 0.15 * ps[i].estimatedCostUsd
  {
    CostRecordOriginAt(ps, CostThreshold(ps), LatencyPassIds(perf), ErrorPassIds(perf), units, k);
  }

  lemma CostRecordOriginAt(ps: seq<Project>, t: real, lat: seq<string>, err: seq<string>, units: seq<real>, k: nat)
    requires |units| >= |lat| + |err|
    requires k < |RecommendationsAt(lat, err, units, ExpensiveProjects(ps, t))|
    requires RecommendationsAt(lat, err, units, ExpensiveProjects(ps, t))[k].issue == HighMigrationCost
    ensures var r := RecommendationsAt(lat, err, units, ExpensiveProjects(ps, t))[k];
            exists i :: 0 <= i < |ps| && r == CostRecord(ps[i]) && ps[i].estimatedCostUsd > t &&
                        r.estimatedSavingsUsd == 0.15 * ps[i].estimatedCostUsd
  {
    var e := ExpensiveProjects(ps, t);
    var recs := RecommendationsAt(lat, err, units, e);
    OutputLayout(lat, err, units, e);
    CostRecordIsCostPass(recs, |lat| + |err|, e, k);
    ListedProjectOrigin(ps, t, recs[k], e[k - |lat| - |err|]);
  }

  /** The cost record of a listed project is the record of one project of the table
      whose cost is above the threshold. */
  lemma ListedProjectOrigin(ps: seq<Project>, t: real, r: Recommendation, p: Project)
    requires p in ExpensiveProjects(ps, t) && r == CostRecord(p)
    ensures exists i :: 0 <= i < |ps| && r == CostRecord(ps[i]) && ps[i].estimatedCostUsd > t &&
                        r.estimatedSavingsUsd == 0.15 * ps[i].estimatedCostUsd
  {
    var i :| 0 <= i < |ps| && ps[i] == p;
  }

  /** A record addressing the cost issue sits in the cost section of the output. */
  lemma CostRecordIsCostPass(recs: seq<Recommendation>, n: nat, e: seq<Project>, k: nat)
    requires |recs| == n + |e| && k < |recs| && recs[k].issue == HighMigrationCost
    requires forall j :: 0 <= j < n ==> recs[j].issue != HighMigrationCost
    requires forall j :: n <= j < |recs| ==> recs[j] == CostRecord(e[j - n])
    ensures n <= k && recs[k] == CostRecord(e[k - n])
  {
  }

  /** The cheapest project is never flagged for its cost: the threshold is never below the
      smallest cost. */
  lemma CheapestNotFlagged(ps: seq<Project>, c: nat)
    requires c < |ps|
    requires forall i :: 0 <= i < |ps| ==> ps[c].estimatedCostUsd <= ps[i].estimatedCostUsd
    ensures ps[c].estimatedCostUsd <= CostThreshold(ps)
    ensures ps[c] !in ExpensiveProjects(ps, CostThreshold(ps))
  {
    var costs := CostColumn(ps);
    var hi := MaxCost(ps);
    QuantileBetween(costs, CostQuantile, ps[c].estimatedCostUsd, hi);
  }

  /** The largest cost of a non-empty table. */
  function MaxCost(ps: seq<Project>): (m: real)
    requires ps != []
    ensures forall i :: 0 <= i < |ps| ==> ps[i].estimatedCostUsd <= m
    ensures exists i :: 0 <= i < |ps| && ps[i].estimatedCostUsd == m
  {
    if |ps| == 1 then ps[0].estimatedCostUsd
    else
      var m := MaxCost(ps[..|ps| - 1]);
      assert forall i :: 0 <= i < |ps| - 1 ==> ps[..|ps| - 1][i] == ps[i];
      Max(m, ps[|ps| - 1].estimatedCostUsd)
  }

  /** The savings of the performance records lie in their uniform ranges. */
  lemma PerformanceSavingsRange(issue: Issue, u: real)
    requires issue != HighMigrationCost && 0.0 <= u < 1.0
    ensures issue == HighLatency ==> 1000.0 <= PerformanceSavings(issue, u) <= 5000.0
    ensures issue == HighErrorRate ==> 2000.0 <= PerformanceSavings(issue, u) <= 8000.0
  {
    UniformRange(1000.0, 5000.0, u);
    UniformRange(2000.0, 8000.0, u);
  }
}
