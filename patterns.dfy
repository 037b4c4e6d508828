/** The pattern summary of a project table: the label counts of five categorical columns
    and the means of four numeric ones. */
module Patterns {
  import opened Numerics
  import opened Columns
  import opened Catalog
  import opened Projects
  import opened Errors

  datatype PatternAnalysis = PatternAnalysis(
    sourceDistribution: map<Provider, nat>,
    targetDistribution: map<Provider, nat>,
    migrationStrategies: map<Strategy, nat>,
    dataTypes: map<DataType, nat>,
    avgDataSizeGb: real,
    avgComplexity: real,
    avgCostUsd: real,
    avgTeamSize: real,
    statusDistribution: map<Status, nat>)

  function SourceColumn(ps: seq<Project>): (c: seq<Provider>)
    ensures |c| == |ps| && forall i :: 0 <= i < |ps| ==> c[i] == ps[i].sourceCloud
  {
    seq(|ps|, i requires 0 <= i < |ps| => ps[i].sourceCloud)
  }

  function TargetColumn(ps: seq<Project>): (c: seq<Provider>)
    ensures |c| == |ps| && forall i :: 0 <= i < |ps| ==> c[i] == ps[i].targetCloud
  {
    seq(|ps|, i requires 0 <= i < |ps| => ps[i].targetCloud)
  }

  function StrategyColumn(ps: seq<Project>): (c: seq<Strategy>)
    ensures |c| == |ps| && forall i :: 0 <= i < |ps| ==> c[i] == ps[i].migrationStrategy
  {
    seq(|ps|, i requires 0 <= i < |ps| => ps[i].migrationStrategy)
  }

  function DataTypeColumn(ps: seq<Project>): (c: seq<DataType>)
    ensures |c| == |ps| && forall i :: 0 <= i < |ps| ==> c[i] == ps[i].dataType
  {
    seq(|ps|, i requires 0 <= i < |ps| => ps[i].dataType)
  }

  function StatusColumn(ps: seq<Project>): (c: seq<Status>)
    ensures |c| == |ps| && forall i :: 0 <= i < |ps| ==> c[i] == ps[i].status
  {
    seq(|ps|, i requires 0 <= i < |ps| => ps[i].status)
  }

  function DataSizeColumn(ps: seq<Project>): (c: seq<real>)
    ensures |c| == |ps| && forall i :: 0 <= i < |ps| ==> c[i] == ps[i].dataSizeGb
  {
    seq(|ps|, i requires 0 <= i < |ps| => ps[i].dataSizeGb)
  }

  function ComplexityColumn(ps: seq<Project>): (c: seq<real>)
    ensures |c| == |ps| && forall i :: 0 <= i < |ps| ==> c[i] == ps[i].complexityScore
  {
    seq(|ps|, i requires 0 <= i < |ps| => ps[i].complexityScore)
  }

  function CostColumn(ps: seq<Project>): (c: seq<real>)
    ensures |c| == |ps| && forall i :: 0 <= i < |ps| ==> c[i] == ps[i].estimatedCostUsd
  {
    seq(|ps|, i requires 0 <= i < |ps| => ps[i].estimatedCostUsd)
  }

  function TeamSizeColumn(ps: seq<Project>): (c: seq<real>)
    ensures |c| == |ps| && forall i :: 0 <= i < |ps| ==> c[i] == ps[i].teamSize as real
  {
    seq(|ps|, i requires 0 <= i < |ps| => ps[i].teamSize as real)
  }

  /** The summary of the table; an empty table has no columns, so the first column read,
      `source_cloud`, raises KeyError. */
  function AnalyzeMigrationPatterns(ps: seq<Project>): (r: Result<PatternAnalysis>)
    ensures r.KeyError? <==> ps == []
    ensures r.KeyError? ==> r.column == "source_cloud"
  {
    if ps == [] then KeyError("source_cloud")
    else
      Ok(PatternAnalysis(
        ValueCounts(SourceColumn(ps)),
        ValueCounts(TargetColumn(ps)),
        ValueCounts(StrategyColumn(ps)),
        ValueCounts(DataTypeColumn(ps)),
        Mean(DataSizeColumn(ps)),
        Mean(ComplexityColumn(ps)),
        Mean(CostColumn(ps)),
        Mean(TeamSizeColumn(ps)),
        ValueCounts(StatusColumn(ps))))
  }

  /** A label -> count map partitions a column: its labels are exactly the values that
      occur, each with the number of rows carrying it, and the counts add up to the rows. */
  predicate Partitions<T(==,!new)>(col: seq<T>, m: map<T, nat>)
  {
    && (forall x :: x in m ==> x in col && m[x] >= 1)
    && (forall x :: x in m ==> m[x] == Occurrences(col, x))
    && (forall x :: x in col ==> x in m)
    && SumCounts(Distinct(col), m) == |col|
  }

  lemma ValueCountsPartition<T(!new)>(col: seq<T>)
    ensures Partitions(col, ValueCounts(col))
  {
    CountsAddUpToRows(col);
  }

  /** Every distribution partitions the project list, and each count is the number of
      projects carrying that label. */
  lemma DistributionsPartition(ps: seq<Project>)
    requires ps != []
    ensures var a := AnalyzeMigrationPatterns(ps).value;
            && Partitions(SourceColumn(ps), a.sourceDistribution)
            && Partitions(TargetColumn(ps), a.targetDistribution)
            && Partitions(StrategyColumn(ps), a.migrationStrategies)
            && Partitions(DataTypeColumn(ps), a.dataTypes)
            && Partitions(StatusColumn(ps), a.statusDistribution)
  {
    ValueCountsPartition(SourceColumn(ps));
    ValueCountsPartition(TargetColumn(ps));
    ValueCountsPartition(StrategyColumn(ps));
    ValueCountsPartition(DataTypeColumn(ps));
    ValueCountsPartition(StatusColumn(ps));
  }

  /** On a table of generated projects the averages stay within the ranges of their columns. */
  lemma AveragesInRange(ps: seq<Project>, now: int)
    requires ps != []
    requires forall i :: 0 <= i < |ps| ==> ProjectInvariant(ps[i], now)
    ensures var a := AnalyzeMigrationPatterns(ps).value;
            && a.avgDataSizeGb >= 0.0
            && 1.0 <= a.avgComplexity <= 10.0
            && a.avgCostUsd >= 0.0
            && 3.0 <= a.avgTeamSize <= 11.0
  {
    MeanAtLeast(DataSizeColumn(ps), 0.0);
    MeanAtLeast(CostColumn(ps), 0.0);
    MeanBounds(ComplexityColumn(ps), 1.0, 10.0);
    MeanBounds(TeamSizeColumn(ps), 3.0, 11.0);
  }
}
