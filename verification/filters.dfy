/** The filter configuration and the two visibility predicates built on it. */
module Filtering {
  import opened Wrappers
  import opened AssetClasses
  import opened RiskLevels
  import opened Dates
  import opened Signals
  import opened Flows

  /** Map framing presets; the camera centres and distances are not modelled. */
  datatype RegionPreset = Global | Africa | Latam | Apac | Emea | Mena | Europe | NorthAmerica

  function RegionRawValue(r: RegionPreset): string {
    match r
    case Global => "global"
    case Africa => "africa"
    case Latam => "latam"
    case Apac => "apac"
    case Emea => "emea"
    case Mena => "mena"
    case Europe => "europe"
    case NorthAmerica => "northAmerica"
  }

  function RegionFromRawValue(s: string): (r: Option<RegionPreset>)
    ensures r.Some? ==> RegionRawValue(r.value) == s
    ensures r.None? ==> forall p: RegionPreset :: RegionRawValue(p) != s
  {
    if s == "global" then Some(Global)
    else if s == "africa" then Some(Africa)
    else if s == "latam" then Some(Latam)
    else if s == "apac" then Some(Apac)
    else if s == "emea" then Some(Emea)
    else if s == "mena" then Some(Mena)
    else if s == "europe" then Some(Europe)
    else if s == "northAmerica" then Some(NorthAmerica)
    else None
  }

  function RegionDisplayName(r: RegionPreset): string {
    match r
    case Global => "Global"
    case Africa => "Africa"
    case Latam => "Latin America"
    case Apac => "Asia Pacific"
    case Emea => "EMEA"
    case Mena => "MENA"
    case Europe => "Europe"
    case NorthAmerica => "North America"
  }

  /** Region raw values decode back to their preset, and display names tell presets apart. */
  lemma RegionTables(a: RegionPreset, b: RegionPreset)
    ensures RegionFromRawValue(RegionRawValue(a)) == Some(a)
    ensures RegionDisplayName(a) == RegionDisplayName(b) <==> a == b
  {
  }

  datatype Filters = Filters(
    assetClasses: set<AssetClass>,
    region: RegionPreset,
    riskMin: RiskLevel,
    dateRange: ClosedRange,
    showFlows: bool)

  /** `Filters()` with every default argument. */
  function DefaultFilters(): (f: Filters)
    ensures forall c: AssetClass :: c in f.assetClasses
    ensures f.riskMin == Low && f.showFlows && f.region == Global
    ensures f.dateRange == Unbounded
  {
    AllCasesComplete();
    Filters((set c | c in AllCases), Global, Low, Unbounded, true)
  }

  /** `matches(asset:)`. */
  predicate MatchesAsset(f: Filters, a: AssetSignal) {
    && a.assetType in f.assetClasses
    && AtLeast(a.risk, f.riskMin)
    && Contains(f.dateRange, a.ts)
  }

  /** `matches(flow:)`: no risk test, and nothing passes while flows are hidden. */
  predicate MatchesFlow(f: Filters, fl: AssetFlow) {
    && f.showFlows
    && fl.classTag in f.assetClasses
    && Contains(f.dateRange, fl.ts)
  }

  /** An asset matches exactly when its class is selected, its risk reaches the
      minimum, and its timestamp lies in the window, both ends included. */
  lemma MatchesAssetExactly(f: Filters, a: AssetSignal)
    ensures MatchesAsset(f, a) <==>
      a.assetType in f.assetClasses
      && Order(a.risk) >= Order(f.riskMin)
      && f.dateRange.lower <= a.ts <= f.dateRange.upper
  {
  }

  /** A flow matches exactly when flows are shown, its class is selected and its
      timestamp lies in the window; hidden flows never match. */
  lemma MatchesFlowExactly(f: Filters, fl: AssetFlow)
    ensures MatchesFlow(f, fl) <==>
      f.showFlows
      && fl.classTag in f.assetClasses
      && f.dateRange.lower <= fl.ts <= f.dateRange.upper
    ensures !f.showFlows ==> !MatchesFlow(f, fl)
  {
  }

  /** Neither predicate reads the region, and the flow predicate ignores `riskMin`. */
  lemma IrrelevantFields(f: Filters, a: AssetSignal, fl: AssetFlow, region: RegionPreset, riskMin: RiskLevel)
    ensures MatchesAsset(f.(region := region), a) == MatchesAsset(f, a)
    ensures MatchesFlow(f.(region := region), fl) == MatchesFlow(f, fl)
    ensures MatchesFlow(f.(riskMin := riskMin), fl) == MatchesFlow(f, fl)
  {
  }

  /** Raising `riskMin` can only turn an asset match off, never on. */
  lemma RaisingRiskMinNarrows(f: Filters, a: AssetSignal, higher: RiskLevel)
    requires AtLeast(higher, f.riskMin)
    ensures MatchesAsset(f.(riskMin := higher), a) ==> MatchesAsset(f, a)
  {
  }

  /** The default filter admits every asset timestamped between the distant past
      and the distant future, and every such flow. */
  lemma DefaultAdmitsEverything(a: AssetSignal, fl: AssetFlow)
    ensures DistantPast <= a.ts <= DistantFuture ==> MatchesAsset(DefaultFilters(), a)
    ensures DistantPast <= fl.ts <= DistantFuture ==> MatchesFlow(DefaultFilters(), fl)
  {
    Bounds(a.risk);
  }

  /** A point window `d...d` admits only what is timestamped exactly `d`. */
  lemma PointWindowIsExact(f: Filters, d: Date, a: AssetSignal, fl: AssetFlow)
    requires f.dateRange == Point(d)
    ensures MatchesAsset(f, a) ==> a.ts == d
    ensures MatchesFlow(f, fl) ==> fl.ts == d
  {
  }

  /** The risk scenario: a high-risk crypto signal at T passes {riskMin: medium,
      classes: {crypto}, window T...T}, fails once the classes become {bond},
      and fails with riskMin extreme. */
  lemma FilterScenario(f: Filters, a: AssetSignal, t: Date)
    requires a.risk == High && a.assetType == Crypto && a.ts == t
    requires f.riskMin == Medium && f.assetClasses == {Crypto} && f.dateRange == Point(t)
    ensures MatchesAsset(f, a)
    ensures !MatchesAsset(f.(assetClasses := {Bond}), a)
    ensures !MatchesAsset(f.(riskMin := Extreme), a)
  {
  }
}
