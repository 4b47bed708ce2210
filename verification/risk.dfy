/**
 The risk assessment: a fixed table from asset type to risk level, with
 "Unknown" for every type the table does not list, applied to each record
 in portfolio order.
 */
module Risk {
  import opened Portfolio

  datatype RiskLevel = High | Medium | Low | Unknown

  /** The tool's fixed risk table. */
  const RiskLevels: map<string, RiskLevel> :=
    map["Stocks" := High, "Bonds" := Medium, "Cash" := Low, "Real Estate" := Medium]

  /**
   The risk of an asset type (`risk_levels.get(type, "Unknown")`). Total:
   every string gets exactly one level, and only the four types in the table get a
   known one.
   */
  function RiskOf(assetType: string): (r: RiskLevel)
    ensures r == High <==> assetType == "Stocks"
    ensures r == Medium <==> assetType == "Bonds" || assetType == "Real Estate"
    ensures r == Low <==> assetType == "Cash"
    ensures r == Unknown <==> assetType !in {"Stocks", "Bonds", "Cash", "Real Estate"}
  {
    if assetType in RiskLevels then RiskLevels[assetType] else Unknown
  }

  /** One line of the assessment: the record's name and type with its risk level. */
  datatype RiskRow = RiskRow(name: string, assetType: string, risk: RiskLevel)

  /** The assessment: exactly one row per record, in portfolio order. */
  function RiskAssessment(p: Portfolio): (rows: seq<RiskRow>)
    ensures |rows| == |p|
    ensures forall i :: 0 <= i < |p| ==>
              rows[i].name == p[i].name && rows[i].assetType == p[i].assetType &&
              rows[i].risk == RiskOf(p[i].assetType)
    decreases |p|
  {
    if |p| == 0 then []
    else
      var a := p[|p| - 1];
      RiskAssessment(p[..|p| - 1]) + [RiskRow(a.name, a.assetType, RiskOf(a.assetType))]
  }

  /** Records entered through the form, whose type is one of the four offered, never rate "Unknown". */
  lemma FormTypesKnownRisk(p: Portfolio)
    requires forall i :: 0 <= i < |p| ==> FormBounded(p[i])
    ensures forall i :: 0 <= i < |p| ==> RiskAssessment(p)[i].risk != Unknown
  {
  }
}
