/** The cost breakdown table: each project's recorded cost split over five categories by
    fixed shares, then every category scaled by its own normal factor around 1 and rounded
    to cents. */
module CostAnalysis {
  import opened Numerics
  import opened Sampling
  import opened Catalog
  import opened Projects

  /** The categories of the breakdown, in the order the noise loop visits them. */
  const CostCategories: seq<string> :=
    ["compute_cost", "storage_cost", "network_cost", "tools_cost", "personnel_cost"]
  const CategoryShares: seq<real> := [0.4, 0.25, 0.15, 0.1, 0.1]

  /** One breakdown row; `costs[k]` is the cost of category `CostCategories[k]`. */
  datatype CostRow = CostRow(
    projectId: string,
    costs: seq<real>,
    sourceCloud: Provider,
    targetCloud: Provider,
    dataSizeGb: real)

  /** The split before noise: each category gets its share of the total. */
  function InitialSplit(total: real): (r: seq<real>)
    ensures |r| == |CostCategories|
  {
    seq(|CategoryShares|, k requires 0 <= k < |CategoryShares| => total * CategoryShares[k])
  }

  /** The shares add up to one, so the split before noise adds up to the total. */
  lemma SplitSumsToTotal(total: real)
    ensures Sum(InitialSplit(total)) == total
  {
    var s := InitialSplit(total);
    assert Sum(s[..1]) == s[0] by { assert s[..1][..0] == []; }
    assert Sum(s[..2]) == Sum(s[..1]) + s[1] by { assert s[..2][..1] == s[..1]; }
    assert Sum(s[..3]) == Sum(s[..2]) + s[2] by { assert s[..3][..2] == s[..2]; }
    assert Sum(s[..4]) == Sum(s[..3]) + s[3] by { assert s[..4][..3] == s[..3]; }
    assert s[..5] == s;
  }

  /** Category k after noise: its cost times `normal(1.0, 0.1)`, rounded to cents. */
  function Perturbed(cost: real, deviate: real): real
  {
    Round(cost * Normal(1.0, 0.1, deviate), 2)
  }

  /** The breakdown row of project p with the five deviates zs, one per category. */
  function CostRowOf(p: Project, zs: seq<real>): (r: CostRow)
    requires |zs| == |CostCategories|
    ensures |r.costs| == |CostCategories|
  {
    var split := InitialSplit(p.estimatedCostUsd);
    CostRow(p.projectId,
            seq(|split|, k requires 0 <= k < |split| => Perturbed(split[k], zs[k])),
            p.sourceCloud, p.targetCloud, p.dataSizeGb)
  }

  predicate NoiseShaped(ps: seq<Project>, noise: seq<seq<real>>)
  {
    |noise| >= |ps| && forall i :: 0 <= i < |ps| ==> |noise[i]| == |CostCategories|
  }

  /** The breakdown table: one row per project, in project order. */
  function CostBreakdown(ps: seq<Project>, noise: seq<seq<real>>): (rows: seq<CostRow>)
    requires NoiseShaped(ps, noise)
    ensures |rows| == |ps|
  {
    seq(|ps|, i requires 0 <= i < |ps| => CostRowOf(ps[i], noise[i]))
  }

  /** Row i belongs to project i and copies its id, providers and data size unchanged. */
  lemma BreakdownCopiesFields(ps: seq<Project>, noise: seq<seq<real>>, i: nat)
    requires NoiseShaped(ps, noise) && i < |ps|
    ensures var r := CostBreakdown(ps, noise)[i];
            && r.projectId == ps[i].projectId
            && r.sourceCloud == ps[i].sourceCloud && r.targetCloud == ps[i].targetCloud
            && r.dataSizeGb == ps[i].dataSizeGb
            && |r.costs| == 5
  {
  }

  /** Each category depends only on the total and its own deviate: changing the deviate of
      one category leaves every other category as it was. */
  lemma CategoriesIndependent(p: Project, zs: seq<real>, k: nat, z: real)
    requires |zs| == |CostCategories| && k < |zs|
    ensures var before, after := CostRowOf(p, zs), CostRowOf(p, zs[k := z]);
            && after.costs[k] == Perturbed(p.estimatedCostUsd * CategoryShares[k], z)
            && forall l :: 0 <= l < |zs| && l != k ==> after.costs[l] == before.costs[l]
  {
    var split := InitialSplit(p.estimatedCostUsd);
    assert split[k] == p.estimatedCostUsd * CategoryShares[k];
    assert zs[k := z][k] == z;
  }

  /** Noise factors that stay non-negative keep a non-negative total's categories
      non-negative; a factor of exactly one leaves each category at its rounded share. */
  lemma PerturbedBounds(cost: real, deviate: real)
    requires cost >= 0.0 && deviate >= -10.0
    ensures Perturbed(cost, deviate) >= 0.0
    ensures deviate == 0.0 ==> Perturbed(cost, deviate) == Round(cost, 2)
  {
    var factor := Normal(1.0, 0.1, deviate);
    if factor > 0.0 {
      MulMonotone(0.0, cost, factor);
    }
    assert Round(0.0, 2) == 0.0;
    RoundMonotone(0.0, cost * factor, 2);
  }
}
