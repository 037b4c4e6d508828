/** The fixed catalog the orchestrator is built with: the cloud providers in their
    declaration order with their relative cost factors, the data classifications, the
    migration strategies, and the label sets the project generator draws from. Each label
    set is an enumeration whose `Label()` is the string the tables hold. */
module Catalog {
  import opened Columns

  datatype Provider = AWS | GCP | Azure
  {
    function Label(): string
    {
      match this
      case AWS => "AWS"
      case GCP => "GCP"
      case Azure => "Azure"
    }

    /** The relative cost factor of the provider. */
    function CostFactor(): real
    {
      match this
      case AWS => 1.0
      case GCP => 0.9
      case Azure => 1.1
    }
  }

  datatype DataType = Transactional | Analytical | Streaming | Batch | Structured | Unstructured | SemiStructured
  {
    function Label(): string
    {
      match this
      case Transactional => "transactional"
      case Analytical => "analytical"
      case Streaming => "streaming"
      case Batch => "batch"
      case Structured => "structured"
      case Unstructured => "unstructured"
      case SemiStructured => "semi-structured"
    }
  }

  datatype Strategy = LiftAndShift | Replatform | Refactor | Hybrid
  {
    function Label(): string
    {
      match this
      case LiftAndShift => "lift_and_shift"
      case Replatform => "replatform"
      case Refactor => "refactor"
      case Hybrid => "hybrid"
    }
  }

  datatype Status = Planning | InProgress | Completed | OnHold
  {
    function Label(): string
    {
      match this
      case Planning => "Planning"
      case InProgress => "In Progress"
      case Completed => "Completed"
      case OnHold => "On Hold"
    }
  }

  datatype BusinessUnit = Finance | Marketing | Operations | IT | HR
  {
    function Label(): string
    {
      match this
      case Finance => "Finance"
      case Marketing => "Marketing"
      case Operations => "Operations"
      case IT => "IT"
      case HR => "HR"
    }
  }

  const Providers: seq<Provider> := [AWS, GCP, Azure]
  const DataTypes: seq<DataType> :=
    [Transactional, Analytical, Streaming, Batch, Structured, Unstructured, SemiStructured]
  const MigrationStrategies: seq<Strategy> := [LiftAndShift, Replatform, Refactor, Hybrid]
  const Statuses: seq<Status> := [Planning, InProgress, Completed, OnHold]
  /** The weights of the status choice, in the order of `Statuses`. */
  const StatusWeights: seq<real> := [0.2, 0.4, 0.3, 0.1]
  const BusinessUnits: seq<BusinessUnit> := [Finance, Marketing, Operations, IT, HR]

  /** The list without the entries equal to x, order kept (a list comprehension with `!=`). */
  function Without<T(==)>(s: seq<T>, x: T): (r: seq<T>)
    ensures forall k :: 0 <= k < |r| ==> r[k] in s && r[k] != x
    ensures forall c :: c in s && c != x ==> c in r
    ensures |r| <= |s|
  {
    if s == [] then []
    else if s[|s| - 1] == x then Without(s[..|s| - 1], x)
    else Without(s[..|s| - 1], x) + [s[|s| - 1]]
  }

  lemma {:induction false} WithoutLength<T(!new)>(s: seq<T>, x: T)
    requires NoDuplicates(s)
    ensures |Without(s, x)| == if x in s then |s| - 1 else |s|
  {
    if s != [] {
      var init := s[..|s| - 1];
      assert NoDuplicates(init);
      WithoutLength(init, x);
      assert s == init + [s[|s| - 1]];
      if s[|s| - 1] == x {
        assert x !in init;
      }
    }
  }

  lemma ProviderListed(c: Provider)
    ensures c in Providers
  {
    match c
    case AWS => assert Providers[0] == c;
    case GCP => assert Providers[1] == c;
    case Azure => assert Providers[2] == c;
  }

  /** The candidate targets for a migration out of `source`: every other provider, in
      catalog order. */
  function OtherProviders(source: Provider): (r: seq<Provider>)
    ensures forall c :: c in r <==> c != source
    ensures |r| == |Providers| - 1
    ensures source == AWS ==> r == [GCP, Azure]
    ensures source == GCP ==> r == [AWS, Azure]
    ensures source == Azure ==> r == [AWS, GCP]
  {
    assert NoDuplicates(Providers);
    ProviderListed(source);
    WithoutLength(Providers, source);
    var r := Without(Providers, source);
    assert forall c :: c != source ==> c in r by {
      forall c | c != source
        ensures c in r
      {
        ProviderListed(c);
      }
    }
    r
  }

  function AverageCostFactor(source: Provider, target: Provider): real
  {
    (source.CostFactor() + target.CostFactor()) / 2.0
  }

  /** Between two distinct providers the averaged cost factor is 0.95, 1.0 or 1.05. */
  lemma AverageCostFactorValues(source: Provider, target: Provider)
    requires source != target
    ensures AverageCostFactor(source, target) in {0.95, 1.0, 1.05}
  {
  }
}
