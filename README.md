# Multi-cloud migration orchestrator — a verified model

This project models `MultiCloudMigrationOrchestrator`, a synthetic-data generator. It is
built with a fixed catalog: three cloud providers with relative cost factors, seven data
types and four migration strategies. From that catalog it produces:

- a table of migration projects, each with a source and a different target provider, a
  data size, a complexity, start and end dates, a cost, a status, a team size and a
  business unit;
- a daily performance table, with one row per calendar day of every project that is in
  progress or completed;
- a cost breakdown, splitting each project's cost over five categories with noise per
  category;
- a pattern summary: label counts of five columns and the means of four;
- a list of recommendations, built from three passes: high latency, high error rate, and
  cost above the 0.8 quantile.

The model is split into these modules:

- `Numerics`: round-half-even, truncation, sums, means and the interpolated quantile.
- `Sampling`: how a draw in standard form becomes a uniform, a normal or a weighted choice.
- `Columns`: `unique()` and `value_counts()`.
- `Catalog`, `Identifiers`, `Projects`, `Performance`, `CostAnalysis`, `Patterns` and
  `Recommendations`: one specification function per table, plus the lemmas about it.
- `Orchestrator`: the class `MigrationOrchestrator`. Its generator methods walk their
  inputs with the same loops as the original. Each method is proved to return exactly
  what its specification function describes.

Conventions used throughout:

- **Random draws are inputs.** Each draw is passed in its standard form, and numpy's own
  mapping is applied to it:
  - `uniform(lo, hi)` is `lo + (hi - lo) * u` for a unit value `u`;
  - `normal(loc, scale)` is `loc + scale * z` for a standard deviate `z`;
  - a weighted `choice` is the first index whose cumulative weight exceeds `u`;
  - `randint` and an unweighted `choice` take the drawn value or index itself.
- **Dates are day numbers,** and "now" is a parameter.
- **Floats are exact reals.** `round(x, k)` is rounding to k decimals with ties to even,
  and `int(x)` truncates toward zero.
- **An empty project table has no columns.** `pd.DataFrame([])` has none, so reading a
  column of it raises `KeyError`. The model returns `KeyError(column)`.

## Model

| member | source | states |
|---|---|---|
| Orchestrator.MigrationOrchestrator.constructor | src/migration_orchestrator.py:16-45 | The catalog lists AWS, GCP and Azure in that order, with cost factors 1.0, 0.9 and 1.1. Every listed provider has exactly its own factor. The data types and strategies are the fixed lists. |
| Orchestrator.MigrationOrchestrator.GenerateMigrationProjects | src/migration_orchestrator.py:47-92 | The k-th project is built from the k-th draws, using the object's catalog. A count at or below zero gives no projects. Every project keeps the record invariant, and no two projects share an id. |
| Orchestrator.MigrationOrchestrator.BuildProject | src/migration_orchestrator.py:52-88 | One loop iteration reads the providers, their cost factors, the data types and the strategies from the object's fields. It builds exactly the project `Projects.MakeProject` describes. |
| Orchestrator.MigrationOrchestrator.GeneratePerformanceMetrics | src/migration_orchestrator.py:94-129 | Returns exactly the performance table: each project's day rows in project order, with the draws consumed in order. With valid draws, every row keeps the row bounds. |
| Orchestrator.MigrationOrchestrator.AppendProjectMetrics | src/migration_orchestrator.py:99-127 | The day loop of one project appends that project's rows, taking the draws from position `used` on. It consumes exactly one draw per emitted row. |
| Orchestrator.MigrationOrchestrator.GenerateCostAnalysis | src/migration_orchestrator.py:131-158 | The two nested loops build exactly the breakdown table: the fixed shares first, then every category scaled by its own noise and rounded to cents. |
| Orchestrator.MigrationOrchestrator.GenerateRecommendations | src/migration_orchestrator.py:180-223 | Returns exactly the recommendation list: the latency pass, the error pass, then the cost pass. An empty project table raises KeyError on the cost column. |
| Orchestrator.MigrationOrchestrator.PerformanceRecommendations | src/migration_orchestrator.py:186-208 | The two performance loops emit one record per flagged id, in order. Each record takes the next savings draw, and both passes are skipped on an empty performance table. |
| Orchestrator.MigrationOrchestrator.AppendPerformancePass | src/migration_orchestrator.py:186-208 | One performance loop keeps the records before it. It appends one record per flagged id, in id order, with the issue's advice and the k-th savings draw, which is `Recommendations.PerformanceRecords`. |
| Orchestrator.MigrationOrchestrator.AppendCostRecommendations | src/migration_orchestrator.py:211-221 | The cost loop appends the record of every project strictly above the threshold, in project order, and nothing else. |
| Catalog.ProviderListed | src/migration_orchestrator.py:20-36 | Every provider is in the catalog's provider list. |
| Catalog.OtherProviders | src/migration_orchestrator.py:53 | The target candidates are exactly the providers other than the source, so there are two of them. They keep catalog order: [GCP, Azure] for AWS, [AWS, Azure] for GCP and [AWS, GCP] for Azure. |
| Catalog.Without | src/migration_orchestrator.py:53 | The list comprehension `[c for c in ... if c != source]`: every kept element is listed and differs from the removed one, and every other listed element is kept. `Catalog.WithoutLength` gives its length and `Catalog.OtherProviders` its order over the catalog. |
| Catalog.AverageCostFactor | src/migration_orchestrator.py:67-70 | The mean of the two providers' cost factors. `Catalog.AverageCostFactorValues` and `Projects.CostFormula` pin its values. |
| Catalog.WithoutLength | src/migration_orchestrator.py:53 | Filtering a duplicate-free list removes one entry if the excluded value is present, and none otherwise. |
| Catalog.AverageCostFactorValues | src/migration_orchestrator.py:67-70 | Between two distinct providers, the averaged cost factor is 0.95, 1.0 or 1.05. |
| Sampling.Uniform | src/migration_orchestrator.py:56 | `uniform(lo, hi)` as numpy maps a unit draw: lo + (hi - lo) u. It is used at lines 122-123, 197 and 207 too. `Sampling.UniformRange` bounds it. |
| Sampling.Normal | src/migration_orchestrator.py:60 | `normal(loc, scale)` as numpy maps a standard deviate: loc + scale z. It is used at lines 106-112 and 153 too. `Projects.DurationRule` and `Performance.MakeRowInvariant` use it. |
| Sampling.UniformRange | src/migration_orchestrator.py:56 | A uniform draw lies between its bounds. |
| Sampling.WeightedPick | src/migration_orchestrator.py:84-85 | The weighted status choice yields a valid index. |
| Sampling.WeightedPickInterval | src/migration_orchestrator.py:84-85 | The picked index i is the one whose cumulative-weight interval [W(i), W(i+1)) contains the unit draw. |
| Numerics.NearestEven | src/migration_orchestrator.py:78-79 | The result is within one half of its argument. On an exact tie it is even. |
| Numerics.RoundToStep | src/migration_orchestrator.py:78-79 | The rounded value is an exact multiple of the step, namely the nearest-even multiple. |
| Numerics.Round | src/migration_orchestrator.py:78-79 | `round(x, k)`: rounding to k decimals with ties to even, through `Numerics.RoundToStep` at step 10^k. It is used at lines 83, 117-123 and 154 too. `Numerics.RoundError`, `Numerics.RoundMonotone` and `Numerics.RoundBetween` pin it. |
| Numerics.RoundMonotone | src/migration_orchestrator.py:78-79 | Rounding never reverses the order of two values. |
| Numerics.RoundError | src/migration_orchestrator.py:83 | Rounding to k places moves a value by at most half a unit in the k-th place. |
| Numerics.RoundBetween | src/migration_orchestrator.py:79 | Rounding keeps a value between two bounds that rounding leaves unchanged. |
| Numerics.TruncateToInt | src/migration_orchestrator.py:60 | `int()` truncates toward zero: the result is the integer part, on either side of zero. |
| Numerics.Max | src/migration_orchestrator.py:59 | `max` is one of its arguments and at least both of them. |
| Numerics.MinInt | src/migration_orchestrator.py:102 | `min` is one of its arguments and at most both of them. |
| Numerics.Mean | src/migration_orchestrator.py:170-173 | A column mean: the sum divided by the number of rows. `Numerics.MeanBounds` bounds it. |
| Numerics.MeanBounds | src/migration_orchestrator.py:170-173 | A column mean lies within any bounds that hold for every entry. |
| Numerics.Insert | src/migration_orchestrator.py:211 | Inserting into a sorted column keeps it sorted. The result has the elements of the column plus the new one, as a multiset. |
| Numerics.SortAscending | src/migration_orchestrator.py:211 | The sorted column that the quantile reads is sorted and is a permutation of the column. |
| Numerics.QuantileIndex | src/migration_orchestrator.py:211 | The whole part of the virtual index (n-1)q is a valid position, and it is the floor of (n-1)q. |
| Numerics.Quantile | src/migration_orchestrator.py:211 | `Series.quantile(q)`: linear interpolation over the ascending column. `Numerics.QuantileBetween` bounds it. |
| Numerics.Interpolate | src/migration_orchestrator.py:211 | The value at virtual index (n-1)q, interpolated between the two order statistics around it. `Numerics.InterpolateBetween` bounds it. |
| Numerics.InterpolateBetween | src/migration_orchestrator.py:211 | On a sorted column, the interpolated value lies within any bounds that hold for every entry. |
| Numerics.InterpolateAtLast | src/migration_orchestrator.py:211 | When the virtual index is the last position, the quantile is the last order statistic. |
| Numerics.QuantileBetween | src/migration_orchestrator.py:211 | The linearly interpolated quantile lies within any bounds that hold for every entry. |
| Identifiers.Decimal | src/migration_orchestrator.py:73-74 | The decimal rendering of a number is a non-empty digit string, and for a positive number its first digit is not zero. `Identifiers.NumeralOfDecimal` reads it back, and `Identifiers.DecimalUnique` shows that no other numeral without a leading zero denotes the same number. |
| Identifiers.LeadingDigitPositive | src/migration_orchestrator.py:73-74 | A numeral whose first digit is not zero denotes a positive number. |
| Identifiers.DecimalUnique | src/migration_orchestrator.py:73-74 | Every numeral without a leading zero is `Decimal` of its value, so `Decimal` is the one canonical rendering. |
| Identifiers.NumeralOfDecimal | src/migration_orchestrator.py:73-74 | Reading the decimal rendering of n back gives n. |
| Identifiers.ZeroPad | src/migration_orchestrator.py:73 | Padding a numeral to a width gives a digit string of exactly max(width, length) characters. It ends with the numeral, and only zeros come before it. |
| Identifiers.LeadingZerosValue | src/migration_orchestrator.py:73 | Leading zeros do not change the value of a numeral. |
| Identifiers.ProjectIdRoundTrip | src/migration_orchestrator.py:73 | The id of project i is `MIG_` followed by exactly max(3, d) digits, d being the length of the numeral of i + 1. The id ends with that numeral, and the number read back from the digits is i + 1. |
| Identifiers.ProjectId | src/migration_orchestrator.py:73 | `f'MIG_{i+1:03d}'`. `Identifiers.ProjectIdRoundTrip` fixes its layout and value, and `Identifiers.ProjectIdsDistinct` its injectivity. |
| Identifiers.ProjectName | src/migration_orchestrator.py:74 | `f'Migration Project {i+1}'`. `Identifiers.ProjectNameRoundTrip` fixes its layout and value. |
| Identifiers.ProjectNameRoundTrip | src/migration_orchestrator.py:74 | The name of project i is `Migration Project ` followed by a numeral that reads back as i + 1 and does not start with zero, i.e. the unpadded numeral (`Identifiers.DecimalUnique`). |
| Identifiers.ProjectIdsDistinct | src/migration_orchestrator.py:73 | Projects at different positions get different ids. |
| Projects.BaseDays | src/migration_orchestrator.py:59 | The base duration is at least 30 days and at least size/100 + 5 * complexity. |
| Projects.BaseCost | src/migration_orchestrator.py:66 | size * 10 + complexity * 1000. `Projects.CostFormula` and `Projects.CostRule` state the cost it feeds, and that the cost is never negative. |
| Projects.DurationOf | src/migration_orchestrator.py:59-63 | The drawn duration of a project. `Projects.DurationRule` ties it to the record's start and end, `Projects.MigrationDaysAtLeastBase` bounds it from below for a non-negative deviate, and `Projects.ZeroDuration` and `Projects.EndBeforeStartPossible` show it can be zero or negative. |
| Projects.TargetOf | src/migration_orchestrator.py:52-53 | The target provider differs from the source. |
| Projects.SourceOf | src/migration_orchestrator.py:52 | The source provider is the catalog entry the choice draw picks. `Projects.TargetOf` differs from it, and `Orchestrator.MigrationOrchestrator.BuildProject` reads it from the object's provider list. |
| Projects.ComplexityOf | src/migration_orchestrator.py:56 | The drawn complexity lies in [1, 10]. |
| Projects.MigrationDays | src/migration_orchestrator.py:60 | `int(normal(base_days, base_days * 0.2))`, truncated toward zero. `Projects.MigrationDaysAtLeastBase` and `Projects.EndBeforeStartPossible` show both ends. |
| Projects.StatusOf | src/migration_orchestrator.py:84-85 | The weighted status choice. `Sampling.WeightedPickInterval` fixes which status a unit draw selects. |
| Projects.CostOf | src/migration_orchestrator.py:66-70 | The unrounded migration cost is never negative. |
| Projects.MakeProject | src/migration_orchestrator.py:72-74 | Project i carries the id and the name that belong to position i. |
| Projects.ProjectTable | src/migration_orchestrator.py:51-90 | The table has one project per iteration. |
| Projects.MakeProjectInvariant | src/migration_orchestrator.py:51-88 | Every built project satisfies the record invariant. Its providers are distinct and listed, and its status is listed. Its size and cost are non-negative and its complexity lies in [1, 10]. Its team has 3 to 11 people, and it started within the last 180 days. |
| Projects.ProjectIdentity | src/migration_orchestrator.py:73 | The number read back from a project's id is its 1-based position. |
| Projects.CostFormula | src/migration_orchestrator.py:66-70 | The cost is (size * 10 + complexity * 1000) times the average of the two cost factors, and that average is 0.95, 1.0 or 1.05. |
| Projects.CostRule | src/migration_orchestrator.py:66-83 | The recorded cost is the unrounded cost, taken on the drawn size and complexity, rounded to cents. It is therefore within half a cent of the unrounded cost. |
| Projects.DurationRule | src/migration_orchestrator.py:59-63 | The base is at least 30 days. The start is now minus the drawn offset, and the duration is the truncated normal draw. A draw at or above the mean lasts 30 days or more. |
| Projects.MigrationDaysAtLeastBase | src/migration_orchestrator.py:59-60 | A non-negative deviate around a base of at least 30 gives at least 30 days. |
| Projects.EndBeforeStartPossible | src/migration_orchestrator.py:60-63 | Valid draws exist for which a project ends before it starts. |
| Projects.MakeProjectTimeline | src/migration_orchestrator.py:59-85 | A built project has the drawn status. It starts the drawn number of days before now and ends its drawn duration later. |
| Projects.InProgressBand | src/migration_orchestrator.py:84-85 | With weights 0.2, 0.4, 0.3, 0.1, every unit draw in [0.2, 0.6) picks in progress. |
| Projects.ZeroDuration | src/migration_orchestrator.py:56-60 | 100 GB at the lowest complexity, drawn 5 standard deviations short, plans zero days. |
| Projects.ZeroDurationDraws | src/migration_orchestrator.py:56-85 | Valid draws exist that start today, plan zero days and are in progress. |
| Projects.ProjectTableStep | src/migration_orchestrator.py:90 | Appending the next project extends the table by exactly that project. |
| Projects.ProjectTableInvariant | src/migration_orchestrator.py:51-90 | Every project of a generated table keeps the record invariant, and all ids are distinct. |
| Projects.GeneratedIdsDistinct | src/migration_orchestrator.py:73 | A table whose ids follow the positions has pairwise distinct ids. |
| Performance.LastMetricDay | src/migration_orchestrator.py:102 | The last metric day is the end day or today, whichever is earlier. |
| Performance.IsActive | src/migration_orchestrator.py:99 | Only In Progress and Completed projects get rows. `Performance.RowCount` and `Performance.RowsExistFor` use it. |
| Performance.PlannedDailyCost | src/migration_orchestrator.py:111 | The estimated cost over the planned days. Its unguarded divisor is the precondition; `Performance.DailyCostRule` states the rest. |
| Performance.ActualDailyCost | src/migration_orchestrator.py:112 | The planned daily cost times a normal factor around 1. `Performance.DailyCostRule` states the rest. |
| Performance.DailyCostRule | src/migration_orchestrator.py:111-112 | The planned daily cost times the planned days is the estimated cost. It is not negative when the project ends after it starts, and it equals the actual daily cost at a zero deviate. No other bound on `daily_cost_usd` is stated. |
| Performance.RowCount | src/migration_orchestrator.py:99-104 | The number of iterations of the day loop: min(end, now) - start + 1 for an active project that has started by then, and 0 otherwise. `Performance.ProjectRowsDays` proves it is one row per day. |
| Performance.ThroughputOf | src/migration_orchestrator.py:106 | The throughput is clamped below at 0.1. |
| Performance.LatencyOf | src/migration_orchestrator.py:107 | The latency is clamped below at 10 ms. |
| Performance.ErrorRateOf | src/migration_orchestrator.py:108 | The error rate is clamped below at 0. |
| Performance.TransferredOf | src/migration_orchestrator.py:121 | A day's transferred volume is at least 1080 GB. |
| Performance.MakeRow | src/migration_orchestrator.py:105-124 | The metric row of one day. `Performance.MakeRowInvariant` proves its bounds and the fields it copies. |
| Performance.MakeRowInvariant | src/migration_orchestrator.py:105-124 | The clamps survive rounding. The transferred volume is rounded from the unrounded throughput times 10800, and the utilisations stay within their uniform ranges. The row carries its project's id and its day. |
| Performance.ProjectRows | src/migration_orchestrator.py:101-127 | A project gets `RowCount` rows. |
| Performance.ProjectRowsDays | src/migration_orchestrator.py:99-127 | The day loop emits one row per day from the start day through the last metric day, in increasing order, all for that project. An inactive project gets no rows. |
| Performance.RowsUpTo | src/migration_orchestrator.py:98-129 | The table built from the first k projects has as many rows as those projects get. |
| Performance.PerformanceRows | src/migration_orchestrator.py:98-129 | The whole table has as many rows as all projects together get. |
| Performance.RowsBeforeMonotone | src/migration_orchestrator.py:98-104 | Draws used so far never exceed those of the whole table. |
| Performance.RowsOfProject | src/migration_orchestrator.py:98-127 | The rows of the project at position k form one contiguous block. It comes right after the rows of every earlier project and is built from the next unused draws. |
| Performance.RowOfProject | src/migration_orchestrator.py:101-127 | The j-th row of project k is that project's row for its j-th day. |
| Performance.RowOrigin | src/migration_orchestrator.py:98-127 | Every row belongs to a project that gets rows. |
| Performance.RowsExistFor | src/migration_orchestrator.py:99 | Some row names a project id if and only if some project with that id gets rows. Planned or on-hold projects therefore get none. |
| Performance.AllRowsInvariant | src/migration_orchestrator.py:105-124 | Every row of the table keeps the row bounds. |
| Performance.ZeroDivisorReachable | src/migration_orchestrator.py:60-63 | Valid draws exist for an in-progress project with a zero-day duration that still gets a row. The daily-cost division by its duration (line 111) is therefore reachable with divisor zero. |
| Performance.ZeroDurationRow | src/migration_orchestrator.py:99-111 | A project in progress that starts today and plans zero days gets exactly one row. That row's daily cost divides by zero. |
| CostAnalysis.InitialSplit | src/migration_orchestrator.py:139-145 | The split has one entry per category. |
| CostAnalysis.SplitSumsToTotal | src/migration_orchestrator.py:141-145 | The shares 0.4, 0.25, 0.15, 0.1 and 0.1 add up to 1, so the split before noise adds up to the total. |
| CostAnalysis.CostRowOf | src/migration_orchestrator.py:139-154 | A breakdown row has one cost per category. |
| CostAnalysis.CostBreakdown | src/migration_orchestrator.py:135-158 | The breakdown has one row per project. |
| CostAnalysis.BreakdownCopiesFields | src/migration_orchestrator.py:139-148 | Row i copies project i's id, providers and data size unchanged, and has five costs. |
| CostAnalysis.CategoriesIndependent | src/migration_orchestrator.py:152-154 | Each category is its share perturbed by its own deviate. Changing one deviate leaves every other category unchanged. |
| CostAnalysis.Perturbed | src/migration_orchestrator.py:153-154 | A category after noise: its cost times normal(1.0, 0.1), rounded to cents. `CostAnalysis.PerturbedBounds` and `CostAnalysis.CategoriesIndependent` state what it keeps. |
| CostAnalysis.PerturbedBounds | src/migration_orchestrator.py:153-154 | A non-negative factor keeps a non-negative category non-negative. A zero deviate leaves the category at its rounded share. |
| Columns.Distinct | src/migration_orchestrator.py:187-188 | `unique()` keeps exactly the values of the column, with no duplicates. |
| Columns.FirstIndex | src/migration_orchestrator.py:187-188 | The first position where a value occurs. |
| Columns.DistinctInFirstAppearanceOrder | src/migration_orchestrator.py:187-188 | `unique()` lists values in the order of their first appearance. |
| Columns.OccurrencesPositive | src/migration_orchestrator.py:164 | A value occurs at least once exactly when it is in the column. |
| Columns.ValueCounts | src/migration_orchestrator.py:164 | `value_counts()` maps exactly the values that occur, each to its number of rows, which is at least one. |
| Columns.CountsAddUpToRows | src/migration_orchestrator.py:164 | The counts over the distinct values add up to the number of rows. |
| Patterns.AnalyzeMigrationPatterns | src/migration_orchestrator.py:160-178 | The analysis fails, with KeyError on `source_cloud`, exactly when the table is empty. |
| Patterns.ValueCountsPartition | src/migration_orchestrator.py:164-175 | A value count map partitions its column: its labels are exactly the values that occur, each with its number of occurrences, and the counts add up to the rows. |
| Patterns.DistributionsPartition | src/migration_orchestrator.py:162-176 | Each of the five distributions partitions its column of the project list: the labels are exactly those that occur, each count is the number of projects with that label, and the counts add up to the number of projects. |
| Patterns.AveragesInRange | src/migration_orchestrator.py:169-174 | On generated projects, the mean size and mean cost are non-negative. The mean complexity lies in [1, 10] and the mean team size in [3, 11]. |
| Recommendations.IdsWhere | src/migration_orchestrator.py:187-188 | A boolean filter followed by the id column lists exactly the ids of flagged rows. |
| Recommendations.HighLatencyIds | src/migration_orchestrator.py:187 | `unique()` of the ids of rows above 200 ms. `Recommendations.PerformancePassesExact` and `Recommendations.LatencyPassOrder` characterise it. |
| Recommendations.HighErrorRateIds | src/migration_orchestrator.py:188 | `unique()` of the ids of rows with an error rate above 0.05. `Recommendations.PerformancePassesExact` and `Recommendations.ErrorPassOrder` characterise it. |
| Recommendations.PerformanceRecords | src/migration_orchestrator.py:190-208 | A performance pass emits one record per flagged id. |
| Recommendations.PerformanceAdvice | src/migration_orchestrator.py:195-205 | The network advice for high latency and the retry advice for a high error rate. `Recommendations.PerformancePassesExact` fixes the advice of every performance record. |
| Recommendations.PerformanceSavings | src/migration_orchestrator.py:197-207 | uniform(1000, 5000) for latency and uniform(2000, 8000) for errors. `Recommendations.PerformanceSavingsRange` bounds it. |
| Recommendations.LatencyPassIds | src/migration_orchestrator.py:186-187 | The ids of the latency pass; none on an empty performance table. `Recommendations.IssueIdsOfOutput` and `Recommendations.LatencyPassOrder` characterise it. |
| Recommendations.ErrorPassIds | src/migration_orchestrator.py:186-188 | The ids of the error pass; none on an empty performance table. `Recommendations.IssueIdsOfOutput` and `Recommendations.ErrorPassOrder` characterise it. |
| Recommendations.CostThreshold | src/migration_orchestrator.py:211 | The 0.8 linear quantile of the cost column. `Recommendations.CheapestNotFlagged` and `Recommendations.CostPassExact` state how it selects. |
| Recommendations.ExpensiveProjects | src/migration_orchestrator.py:211 | The cost filter keeps exactly the projects strictly above the threshold. |
| Recommendations.CostRecord | src/migration_orchestrator.py:214-221 | The cost record of one project. `Recommendations.CostRecordOrigin` proves its id, strategy advice and 15% savings. |
| Recommendations.CostRecords | src/migration_orchestrator.py:213-221 | The cost pass emits one record per selected project. |
| Recommendations.PerformancePasses | src/migration_orchestrator.py:186-208 | The performance passes emit one record per latency id plus one per error id. |
| Recommendations.RecommendationsAt | src/migration_orchestrator.py:186-221 | The output has one record per flagged id and one per selected project. |
| Recommendations.GenerateRecommendations | src/migration_orchestrator.py:180-223 | The list fails, with KeyError on `estimated_cost_usd`, exactly when the project table is empty. |
| Recommendations.ExpensiveStep | src/migration_orchestrator.py:211-213 | Scanning one more project extends the selection by that project exactly when its cost is above the threshold. |
| Recommendations.CostRecordsAppend | src/migration_orchestrator.py:213-221 | Selecting one more project appends its record. |
| Recommendations.IdsWithIssueAppend | src/migration_orchestrator.py:183-221 | The ids listed under an issue distribute over concatenation. |
| Recommendations.PerformanceRecordsIds | src/migration_orchestrator.py:190-208 | A performance pass lists exactly its ids under its own issue, and none under any other. |
| Recommendations.CostRecordsIds | src/migration_orchestrator.py:213-221 | The cost pass lists the selected projects' ids under the cost issue, and none under any other. |
| Recommendations.IssueIdsOfOutput | src/migration_orchestrator.py:186-221 | For each issue, the output lists exactly the ids that the issue's pass flags, in the pass's order. |
| Recommendations.IssueIdsAt | src/migration_orchestrator.py:186-221 | The same property for any flagged id lists and any selection. |
| Recommendations.PerformancePassesExact | src/migration_orchestrator.py:186-188 | An id is flagged for latency if and only if some row of it is above 200 ms, and for errors if and only if some row is above 0.05. Each id is flagged once. Nothing is flagged on an empty table. |
| Recommendations.LatencyPassOrder | src/migration_orchestrator.py:187-190 | Latency ids are listed in the order of their first flagged row. |
| Recommendations.ErrorPassOrder | src/migration_orchestrator.py:188-200 | Error ids are listed in the order of their first flagged row. |
| Recommendations.PerformancePassesLayout | src/migration_orchestrator.py:190-208 | The k-th latency record is for the k-th flagged id, with network advice and the k-th savings draw. The error records follow, with retry advice and the draws after those. |
| Recommendations.OutputLayout | src/migration_orchestrator.py:183-221 | The output holds the latency records first and the error records next. Each later record is the cost record of the next selected project. |
| Recommendations.SectionsInOrder | src/migration_orchestrator.py:183-221 | Every latency record precedes every error record, which precedes every cost record. |
| Recommendations.CostPassExact | src/migration_orchestrator.py:211-221 | A project's cost record is emitted if and only if its cost is strictly above the 0.8 quantile of all costs. |
| Recommendations.CostPassAt | src/migration_orchestrator.py:211-221 | The same for any threshold and any performance records. |
| Recommendations.CostSection | src/migration_orchestrator.py:211-221 | In an output laid out as performance records followed by cost records, a project's cost record is present exactly when the project is above the threshold. |
| Recommendations.CostRecordOfListed | src/migration_orchestrator.py:211-221 | A project's record is among the cost records exactly when the project is above the threshold. |
| Recommendations.CostRecordsMembership | src/migration_orchestrator.py:213-221 | A cost record appears exactly when a project with that id, strategy and cost is selected. |
| Recommendations.CostRecordOrigin | src/migration_orchestrator.py:213-221 | Every cost record comes from a project above the threshold. It names that project's strategy and proposes saving 15% of its cost. |
| Recommendations.CostRecordOriginAt | src/migration_orchestrator.py:213-221 | The same for any threshold and any performance records. |
| Recommendations.ListedProjectOrigin | src/migration_orchestrator.py:211-221 | A listed project is a project of the table above the threshold, and its record saves 15% of its cost. |
| Recommendations.CostRecordIsCostPass | src/migration_orchestrator.py:213-221 | A record addressing the cost issue sits in the cost section. |
| Recommendations.CheapestNotFlagged | src/migration_orchestrator.py:211 | The threshold is never below the smallest cost, so the cheapest project is never flagged. |
| Recommendations.MaxCost | src/migration_orchestrator.py:211 | The largest cost bounds every cost and is attained by some project. |
| Recommendations.PerformanceSavingsRange | src/migration_orchestrator.py:197-207 | Latency savings lie in [1000, 5000] and error savings in [2000, 8000]. |

## Left out

- Projects.MakeProject: day numbers are unbounded integers, while Python's `datetime` only
  covers years 1 to 9999. Line 63 (`start_date + timedelta(days=migration_days)`) raises
  OverflowError when the end date passes year 9999. A lognormal size of about 1e9 GB gives
  roughly 10 million base days and triggers it, whereas the model returns a project with
  that end day. Line 62 could likewise fail only for a `now` near year 1. The model does
  not represent this error.
- Random number generation and seeding: the draws are passed in. The constructor
  therefore takes no seed, and the two `seed(...)` calls (lines 17-18) have no
  counterpart. The exact distributions of the draws are not modelled; only the ranges
  numpy guarantees are stated, as the `ValidDraws` and `ValidRowDraws` predicates.
- Floating point: values are exact reals, so binary representation error and the
  rounding of intermediate products are not modelled.
- Time of day: dates are whole day numbers. Both calls to `datetime.now()` (lines 62
  and 102) fall on the same day `now`.
- Table layout: tables are sequences of records, not data frames. Their `to_dict` forms,
  column order and CSV form are not modelled. Labels are enumerations, each with a
  `Label()` string; `value_counts` becomes a map, so its descending-count order is not
  modelled.
- The recommendation text: it is an `Advice` value whose `Text()` is the original
  string. The type, issue and priority strings hang off `Issue`.
- The services and regions lists (lines 22-33): no generator reads them.
- The `__main__` block (lines 225-266): it prints and writes files.
- The `num_projects = 20` default and the `seed = 42` default: callers always pass the
  count here.
- Orchestrator.MigrationOrchestrator.GeneratePerformanceMetrics: requires
  `DivisorsNonZero`, which excludes a project with a zero-day duration that still gets a
  row. The original divides by zero in that case. Depending on the scalar type pandas
  hands back, it either raises an error or stores an infinite daily cost, and the model
  does not choose between these. `Performance.ZeroDivisorReachable` shows that the
  generator can produce such a project.
- `analyze_migration_patterns` and the recommendation logic are module functions
  (`Patterns.AnalyzeMigrationPatterns`, `Recommendations.GenerateRecommendations`),
  because they read no state of the object. The class method `GenerateRecommendations`
  is the loop version.

Two properties of the code matter here:

- Line 111 divides by the planned duration with no guard. `Performance.ZeroDivisorReachable`
  shows that valid draws reach that division with divisor zero.
- Line 60 truncates the drawn duration, so a project can end before it starts. Valid draws
  for this are given in `Projects.EndBeforeStartPossible`. Such a project gets no
  performance rows.
