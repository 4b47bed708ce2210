/**
 The portfolio held by the analysis tool: an append-only list of asset
 records, the total-value sum shown in the overview, and the label and size
 lists handed to the allocation pie chart. Money and percentages are
 `real`; the float rounding of the original sums is not modelled.
 */
module Portfolio {
  import opened Sums

  /** One record of the portfolio: name, asset type, monetary value and allocation percentage. */
  datatype Asset = Asset(name: string, assetType: string, value: real, allocation: real)

  /** The tool's whole state: its records in insertion order (empty for a new tool). */
  type Portfolio = seq<Asset>

  /** The asset types the entry form offers. */
  const FormAssetTypes: seq<string> := ["Stocks", "Bonds", "Cash", "Real Estate"]

  /** What the entry form's widgets enforce on a record; the tool itself never checks it. */
  predicate FormBounded(a: Asset)
  {
    && a.assetType in FormAssetTypes
    && a.value >= 0.0
    && 0.0 <= a.allocation <= 100.0
  }

  /**
   Adds a record at the end of the portfolio. There is no precondition:
   negative values, allocations above 100 and unknown types are all stored.
   */
  function AddAsset(p: Portfolio, name: string, assetType: string, value: real, allocation: real): (q: Portfolio)
    ensures |q| == |p| + 1
    ensures q[..|p|] == p
    ensures q[|p|].name == name && q[|p|].assetType == assetType
    ensures q[|p|].value == value && q[|p|].allocation == allocation
  {
    p + [Asset(name, assetType, value, allocation)]
  }

  /** The records' names, in portfolio order. */
  function Names(p: Portfolio): (ns: seq<string>)
    ensures |ns| == |p|
    ensures forall i :: 0 <= i < |p| ==> ns[i] == p[i].name
  {
    if |p| == 0 then [] else Names(p[..|p| - 1]) + [p[|p| - 1].name]
  }

  /** The records' monetary values, in portfolio order. */
  function AssetValues(p: Portfolio): (vs: seq<real>)
    ensures |vs| == |p|
    ensures forall i :: 0 <= i < |p| ==> vs[i] == p[i].value
  {
    if |p| == 0 then [] else AssetValues(p[..|p| - 1]) + [p[|p| - 1].value]
  }

  /** The records' allocation percentages, in portfolio order. */
  function Allocations(p: Portfolio): (xs: seq<real>)
    ensures |xs| == |p|
    ensures forall i :: 0 <= i < |p| ==> xs[i] == p[i].allocation
  {
    if |p| == 0 then [] else Allocations(p[..|p| - 1]) + [p[|p| - 1].allocation]
  }

  /** The total portfolio value: the sum of every record's value. */
  function TotalValue(p: Portfolio): real
  {
    Sum(AssetValues(p))
  }

  /** The sum of every record's allocation percentage. */
  function TotalAllocation(p: Portfolio): real
  {
    Sum(Allocations(p))
  }

  /** The overview's total, accumulated record by record as the generator sum does. */
  method ComputeTotalValue(p: Portfolio) returns (total: real)
    ensures total == TotalValue(p)
    ensures |p| == 0 ==> total == 0.0
  {
    total := 0.0;
    var i := 0;
    while i < |p|
      invariant 0 <= i <= |p|
      invariant total == Sum(AssetValues(p)[..i])
    {
      assert AssetValues(p)[..i + 1] == AssetValues(p)[..i] + [p[i].value];
      SumSnoc(AssetValues(p)[..i], p[i].value);
      total := total + p[i].value;
      i := i + 1;
    }
    assert AssetValues(p)[..|p|] == AssetValues(p);
  }

  /** The total allocation is the total of all records but the last, plus the last one's percentage. */
  lemma TotalAllocationLast(p: Portfolio)
    requires |p| > 0
    ensures TotalAllocation(p) == TotalAllocation(p[..|p| - 1]) + p[|p| - 1].allocation
  {
    assert Allocations(p) == Allocations(p[..|p| - 1]) + [p[|p| - 1].allocation];
    SumSnoc(Allocations(p[..|p| - 1]), p[|p| - 1].allocation);
  }

  /** The total value of two portfolios laid end to end is the sum of their totals. */
  lemma TotalValueConcat(p: Portfolio, p': Portfolio)
    ensures TotalValue(p + p') == TotalValue(p) + TotalValue(p')
  {
    assert AssetValues(p + p') == AssetValues(p) + AssetValues(p');
    SumConcat(AssetValues(p), AssetValues(p'));
  }

  /**
   When every record respects the entry form's bounds (a value of at least 0,
   an allocation between 0 and 100, one of the offered types), the total value
   and the total allocation are both non-negative. Nothing in the tool itself
   enforces those bounds.
   */
  lemma FormBoundedTotalValue(p: Portfolio)
    requires forall i :: 0 <= i < |p| ==> FormBounded(p[i])
    ensures TotalValue(p) >= 0.0
    ensures TotalAllocation(p) >= 0.0
  {
    SumNonNegative(AssetValues(p));
    SumNonNegative(Allocations(p));
  }

  /** What the pie chart is drawn from; an empty portfolio yields only a warning. */
  datatype PieInput = NoAssetsWarning | Pie(labels: seq<string>, sizes: seq<real>)

  /** The pie chart's input: one label (the name) and one size (the allocation) per record. */
  function PieChartInput(p: Portfolio): (r: PieInput)
    ensures r.NoAssetsWarning? <==> |p| == 0
    ensures r.Pie? ==> |r.labels| == |p| && |r.sizes| == |p|
    ensures r.Pie? ==> forall i :: 0 <= i < |p| ==>
              r.labels[i] == p[i].name && r.sizes[i] == p[i].allocation
  {
    if |p| == 0 then NoAssetsWarning else Pie(Names(p), Allocations(p))
  }
}
