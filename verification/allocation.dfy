/**
 The allocation analysis: allocation percentages grouped by asset type into
 an insertion-ordered dictionary, and the check that warns when the grouped
 percentages do not add up to exactly 100.
 */
module Allocation {
  import opened Sums
  import opened Dict
  import opened Portfolio

  /** The distinct asset types of `p`, in order of first appearance. */
  function Types(p: Portfolio): seq<string>
    decreases |p|
  {
    if |p| == 0 then []
    else
      var ts := Types(p[..|p| - 1]);
      var t := p[|p| - 1].assetType;
      if t in ts then ts else ts + [t]
  }

  /** The sum of the allocation percentages of the records whose type is `t`. */
  function TypeTotal(p: Portfolio, t: string): real
    decreases |p|
  {
    if |p| == 0 then 0.0
    else
      var a := p[|p| - 1];
      TypeTotal(p[..|p| - 1], t) + (if a.assetType == t then a.allocation else 0.0)
  }

  /** Some record of `p` has type `t`. */
  predicate HasType(p: Portfolio, t: string)
  {
    exists i :: 0 <= i < |p| && p[i].assetType == t
  }

  /** Some record of type `t` comes before every record of type `u`. */
  predicate OccursBefore(p: Portfolio, t: string, u: string)
  {
    exists i :: 0 <= i < |p| && p[i].assetType == t &&
      forall i' :: 0 <= i' <= i ==> p[i'].assetType != u
  }

  /**
   The per-type dictionary built by the analysis loop: for each record in
   turn, `allocation[type] = allocation.get(type, 0) + percentage`.
   */
  function Group(p: Portfolio): (r: seq<Entry<string, real>>)
    ensures Valid(r)
    ensures Keys(r) == Types(p)
    decreases |p|
  {
    if |p| == 0 then []
    else
      var a := p[|p| - 1];
      AddTo(Group(p[..|p| - 1]), a.assetType, a.allocation)
  }

  /** `Types` lists exactly the types present, each once. */
  lemma {:induction false} TypesMembership(p: Portfolio)
    ensures forall t :: t in Types(p) <==> HasType(p, t)
    ensures forall j, j' :: 0 <= j < j' < |Types(p)| ==> Types(p)[j] != Types(p)[j']
    decreases |p|
  {
    if |p| > 0 {
      var init := p[..|p| - 1];
      TypesMembership(init);
      forall t
        ensures t in Types(p) <==> HasType(p, t)
      {
        if HasType(p, t) {
          var i :| 0 <= i < |p| && p[i].assetType == t;
          if i < |init| {
            assert init[i].assetType == t;
          }
        }
        if t in Types(init) {
          var i :| 0 <= i < |init| && init[i].assetType == t;
          assert p[i].assetType == t;
        }
      }
    }
  }

  /** A type absent from the portfolio has a type total of 0. */
  lemma {:induction false} TypeTotalAbsent(p: Portfolio, t: string)
    requires !HasType(p, t)
    ensures TypeTotal(p, t) == 0.0
    decreases |p|
  {
    if |p| > 0 {
      var init := p[..|p| - 1];
      assert !HasType(init, t) by {
        forall i | 0 <= i < |init|
          ensures init[i].assetType != t
        {
          assert init[i] == p[i];
        }
      }
      TypeTotalAbsent(init, t);
    }
  }

  /**
   `Types` is in order of first appearance: of any two listed types, the
   earlier one occurs in the portfolio before the later one does.
   */
  lemma {:induction false} TypesFirstAppearance(p: Portfolio)
    ensures forall j, j' :: 0 <= j < j' < |Types(p)| ==> OccursBefore(p, Types(p)[j], Types(p)[j'])
    decreases |p|
  {
    if |p| > 0 {
      var init := p[..|p| - 1];
      var t := p[|p| - 1].assetType;
      TypesFirstAppearance(init);
      TypesMembership(init);
      var ts := Types(init);
      forall j, j' | 0 <= j < j' < |Types(p)|
        ensures OccursBefore(p, Types(p)[j], Types(p)[j'])
      {
        if j' < |ts| {
          assert OccursBefore(init, ts[j], ts[j']);
          var i :| 0 <= i < |init| && init[i].assetType == ts[j] &&
            forall i' :: 0 <= i' <= i ==> init[i'].assetType != ts[j'];
          assert p[i].assetType == ts[j];
          forall i' | 0 <= i' <= i
            ensures p[i'].assetType != ts[j']
          {
            assert p[i'] == init[i'];
          }
        } else {
          assert t !in ts && Types(p)[j'] == t;
          assert !HasType(init, t);
          assert HasType(init, ts[j]);
          var i :| 0 <= i < |init| && init[i].assetType == ts[j];
          assert p[i].assetType == ts[j];
          forall i' | 0 <= i' <= i
            ensures p[i'].assetType != t
          {
            assert p[i'] == init[i'];
          }
        }
      }
    }
  }

  /** Once every entry holds its type's total, a lookup with default 0 gives any type's total. */
  lemma LookupTypeTotal(p: Portfolio, t: string)
    requires forall i :: 0 <= i < |Group(p)| ==> Group(p)[i].value == TypeTotal(p, Group(p)[i].key)
    ensures Get(Group(p), t, 0.0) == TypeTotal(p, t)
  {
    var d := Group(p);
    if t !in Keys(d) {
      TypesMembership(p);
      TypeTotalAbsent(p, t);
    } else {
      var i :| 0 <= i < |d| && Keys(d)[i] == t;
    }
  }

  /** Each entry of the grouping loop's dictionary is the total of its type. */
  lemma {:induction false} GroupValues(p: Portfolio)
    ensures forall i :: 0 <= i < |Group(p)| ==> Group(p)[i].value == TypeTotal(p, Group(p)[i].key)
    decreases |p|
  {
    if |p| > 0 {
      var init := p[..|p| - 1];
      var a := p[|p| - 1];
      var d := Group(init);
      GroupValues(init);
      LookupTypeTotal(init, a.assetType);
      var r := Group(p);
      forall i | 0 <= i < |r|
        ensures r[i].value == TypeTotal(p, r[i].key)
      {
        if r[i].key != a.assetType {
          assert Keys(r)[i] == Keys(d)[i];
        }
      }
    }
  }

  /** Grouping conserves the total: the entries add up to the sum of all records' percentages. */
  lemma {:induction false} GroupConserves(p: Portfolio)
    ensures Sum(Values(Group(p))) == TotalAllocation(p)
    decreases |p|
  {
    if |p| > 0 {
      var init := p[..|p| - 1];
      var a := p[|p| - 1];
      GroupConserves(init);
      TotalAllocationLast(p);
    }
  }

  /**
   `allocation.get(t, 0)` on the finished dictionary is the sum of the
   allocation percentages of the records of type `t`, and 0 for a type
   with no record.
   */
  lemma GroupGet(p: Portfolio, t: string)
    ensures Get(Group(p), t, 0.0) == TypeTotal(p, t)
  {
    GroupValues(p);
    LookupTypeTotal(p, t);
  }

  /**
   Adding a record changes the dictionary only for the record's own type:
   that type's entry grows by the record's percentage (and the type becomes
   the last key if it is new); every other lookup is unchanged.
   */
  lemma AddAssetRegroups(p: Portfolio, name: string, assetType: string, value: real, allocation: real, t: string)
    ensures var q := AddAsset(p, name, assetType, value, allocation);
      && Get(Group(q), t, 0.0) == Get(Group(p), t, 0.0) + (if t == assetType then allocation else 0.0)
      && Keys(Group(q)) == if assetType in Keys(Group(p)) then Keys(Group(p)) else Keys(Group(p)) + [assetType]
  {
    var q := AddAsset(p, name, assetType, value, allocation);
    assert q[..|q| - 1] == p && q[|q| - 1].assetType == assetType;
    GetAddTo(Group(p), assetType, allocation, t);
  }

  /** What the analysis reports: the per-type dictionary and whether the warning is shown. */
  datatype AllocationReport = AllocationReport(byType: seq<Entry<string, real>>, warning: bool)

  /**
   The allocation analysis. The warning is shown exactly when the percentages
   of all records do not add up to 100; grouping by type loses nothing.
   */
  function AllocationAnalysis(p: Portfolio): (r: AllocationReport)
    ensures Valid(r.byType)
    ensures Keys(r.byType) == Types(p)
    ensures forall i :: 0 <= i < |r.byType| ==> r.byType[i].value == TypeTotal(p, r.byType[i].key)
    ensures Sum(Values(r.byType)) == TotalAllocation(p)
    ensures r.warning <==> TotalAllocation(p) != 100.0
  {
    GroupValues(p);
    GroupConserves(p);
    var d := Group(p);
    AllocationReport(d, Sum(Values(d)) != 100.0)
  }

  /** The per-type dictionary viewed as a map from asset type to percentage. */
  function AllocationMap(p: Portfolio): (m: map<string, real>)
    ensures forall t :: t in m <==> HasType(p, t)
    ensures forall t :: t in m ==> m[t] == TypeTotal(p, t)
  {
    GroupValues(p);
    TypesMembership(p);
    ToMap(Group(p))
  }

  /**
   The pie chart's sizes add up to 100 exactly when the allocation analysis
   shows no warning: the chart and the check read the same percentages.
   */
  lemma PieMatchesWarning(p: Portfolio)
    requires |p| > 0
    ensures Sum(PieChartInput(p).sizes) == 100.0 <==> !AllocationAnalysis(p).warning
  {
    var r := AllocationAnalysis(p);
    assert PieChartInput(p).sizes == Allocations(p);
  }
}
