/**
 * The data loader: the full dataset, the current filters and the published,
 * filtered view, with the loading path that decodes the two seed files.
 *
 * Recomputation of the view (which the loader schedules through a 120 ms
 * throttle) is an explicit transition, `ApplyCurrentFilters`, that the
 * scheduler may fire at any point after a filter change.
 */
module Loading {
  import opened Wrappers
  import opened AssetClasses
  import opened RiskLevels
  import opened Dates
  import opened Signals
  import opened Flows
  import opened Filtering
  import opened Selection

  datatype LoadError =
    | FileNotFound(fileName: string)   // the seed file is not in the bundle
    | DataCorrupted                    // the file cannot be read or is not a JSON array of records
    | InvalidValue(field: string)      // an enum field holds an unknown raw value
    | InvalidDate(text: string)        // neither timestamp format accepts the text

  /** A seed file as the bundle presents it. */
  datatype Source<R> = NotBundled | Unreadable | Records(records: seq<R>)

  /**
   * The two ISO 8601 formatters: internet date-time with fractional seconds,
   * and plain internet date-time. How they parse is outside this model.
   */
  datatype DateParsers = DateParsers(
    withFractionalSeconds: string -> Option<Date>,
    internetDateTime: string -> Option<Date>)

  /** The custom date-decoding strategy: the fractional-seconds format first,
      the plain format as a fallback, an error when both reject the text. */
  function DecodeDate(text: string, parsers: DateParsers): (r: Result<Date, LoadError>)
    ensures r.Success? <==>
      parsers.withFractionalSeconds(text).Some? || parsers.internetDateTime(text).Some?
    ensures parsers.withFractionalSeconds(text).Some? ==>
      r.Success? && Some(r.value) == parsers.withFractionalSeconds(text)
    ensures parsers.withFractionalSeconds(text).None? && r.Success? ==>
      Some(r.value) == parsers.internetDateTime(text)
    ensures r.Failure? ==> r.error == InvalidDate(text)
  {
    match parsers.withFractionalSeconds(text)
    case Some(d) => Success(d)
    case None =>
      match parsers.internetDateTime(text)
      case Some(d) => Success(d)
      case None => Failure(InvalidDate(text))
  }

  /** A signal record as it appears in the JSON file. */
  datatype RawSignal = RawSignal(
    id: string, name: string, assetType: string, latitude: real, longitude: real,
    value: real, risk: string, country: string, ts: string)

  /** A flow record as it appears in the JSON file. */
  datatype RawFlow = RawFlow(
    id: string, fromLat: real, fromLon: real, toLat: real, toLon: real,
    magnitude: real, classTag: string, ts: string)

  /** Decoding one signal record; fields fail in declaration order. */
  function DecodeSignal(raw: RawSignal, parsers: DateParsers): (r: Result<AssetSignal, LoadError>)
    ensures r.Success? <==>
      && AssetClasses.FromRawValue(raw.assetType).Some?
      && RiskLevels.FromRawValue(raw.risk).Some?
      && DecodeDate(raw.ts, parsers).Success?
    ensures r.Success? ==>
      && r.value.id == raw.id && r.value.name == raw.name && r.value.country == raw.country
      && r.value.latitude == raw.latitude && r.value.longitude == raw.longitude
      && r.value.value == raw.value
      && AssetClasses.RawValue(r.value.assetType) == raw.assetType
      && RiskLevels.RawValue(r.value.risk) == raw.risk
      && DecodeDate(raw.ts, parsers) == Success(r.value.ts)
  {
    match AssetClasses.FromRawValue(raw.assetType)
    case None => Failure(InvalidValue("type"))
    case Some(assetType) =>
      match RiskLevels.FromRawValue(raw.risk)
      case None => Failure(InvalidValue("risk"))
      case Some(risk) =>
        match DecodeDate(raw.ts, parsers)
        case Failure(e) => Failure(e)
        case Success(ts) =>
          Success(AssetSignal(raw.id, raw.name, assetType, raw.latitude, raw.longitude,
                              raw.value, risk, raw.country, ts))
  }

  /** Decoding one flow record; fields fail in declaration order. */
  function DecodeFlow(raw: RawFlow, parsers: DateParsers): (r: Result<AssetFlow, LoadError>)
    ensures r.Success? <==>
      AssetClasses.FromRawValue(raw.classTag).Some? && DecodeDate(raw.ts, parsers).Success?
    ensures r.Success? ==>
      && r.value.id == raw.id
      && r.value.fromLat == raw.fromLat && r.value.fromLon == raw.fromLon
      && r.value.toLat == raw.toLat && r.value.toLon == raw.toLon
      && r.value.magnitude == raw.magnitude
      && AssetClasses.RawValue(r.value.classTag) == raw.classTag
      && DecodeDate(raw.ts, parsers) == Success(r.value.ts)
  {
    match AssetClasses.FromRawValue(raw.classTag)
    case None => Failure(InvalidValue("classTag"))
    case Some(classTag) =>
      match DecodeDate(raw.ts, parsers)
      case Failure(e) => Failure(e)
      case Success(ts) =>
        Success(AssetFlow(raw.id, raw.fromLat, raw.fromLon, raw.toLat, raw.toLon,
                          raw.magnitude, classTag, ts))
  }

  /**
   * Decoding a JSON array: all records or nothing. The first record that
   * fails decides the error, and one bad record fails the whole array.
   */
  function DecodeArray<R, T>(raws: seq<R>, decode: R -> Result<T, LoadError>): (r: Result<seq<T>, LoadError>)
    ensures r.Success? <==> forall i :: 0 <= i < |raws| ==> decode(raws[i]).Success?
    ensures r.Success? ==>
      |r.value| == |raws| && forall i :: 0 <= i < |raws| ==> decode(raws[i]) == Success(r.value[i])
    ensures r.Failure? ==>
      exists i :: 0 <= i < |raws| && decode(raws[i]) == Failure(r.error)
        && forall j :: 0 <= j < i ==> decode(raws[j]).Success?
    decreases |raws|
  {
    if |raws| == 0 then Success([])
    else
      match decode(raws[0])
      case Failure(e) => Failure(e)
      case Success(x) =>
        match DecodeArray(raws[1..], decode)
        case Failure(e) =>
          var i :| 0 <= i < |raws[1..]| && decode(raws[1..][i]) == Failure(e)
            && forall j :: 0 <= j < i ==> decode(raws[1..][j]).Success?;
          assert decode(raws[i + 1]) == Failure(e);
          Failure(e)
        case Success(xs) => Success([x] + xs)
  }

  /** `loadAssets`: the bundled `seed_assets.json`, decoded. */
  function LoadAssets(src: Source<RawSignal>, parsers: DateParsers): (r: Result<seq<AssetSignal>, LoadError>)
    ensures src.NotBundled? ==> r == Failure(FileNotFound("seed_assets.json"))
    ensures src.Unreadable? ==> r == Failure(DataCorrupted)
    ensures src.Records? ==>
      (r.Success? <==> forall i :: 0 <= i < |src.records| ==> DecodeSignal(src.records[i], parsers).Success?)
    ensures src.Records? && r.Success? ==>
      |r.value| == |src.records|
      && forall i :: 0 <= i < |src.records| ==> DecodeSignal(src.records[i], parsers) == Success(r.value[i])
  {
    match src
    case NotBundled => Failure(FileNotFound("seed_assets.json"))
    case Unreadable => Failure(DataCorrupted)
    case Records(raws) => DecodeArray(raws, (raw: RawSignal) => DecodeSignal(raw, parsers))
  }

  /** `loadFlows`: the bundled `seed_flows.json`, decoded. */
  function LoadFlows(src: Source<RawFlow>, parsers: DateParsers): (r: Result<seq<AssetFlow>, LoadError>)
    ensures src.NotBundled? ==> r == Failure(FileNotFound("seed_flows.json"))
    ensures src.Unreadable? ==> r == Failure(DataCorrupted)
    ensures src.Records? ==>
      (r.Success? <==> forall i :: 0 <= i < |src.records| ==> DecodeFlow(src.records[i], parsers).Success?)
    ensures src.Records? && r.Success? ==>
      |r.value| == |src.records|
      && forall i :: 0 <= i < |src.records| ==> DecodeFlow(src.records[i], parsers) == Success(r.value[i])
  {
    match src
    case NotBundled => Failure(FileNotFound("seed_flows.json"))
    case Unreadable => Failure(DataCorrupted)
    case Records(raws) => DecodeArray(raws, (raw: RawFlow) => DecodeFlow(raw, parsers))
  }

  datatype DataLoader = DataLoader(
    assets: seq<AssetSignal>,       // published
    flows: seq<AssetFlow>,          // published
    error: Option<LoadError>,       // published
    allAssets: seq<AssetSignal>,
    allFlows: seq<AssetFlow>,
    currentFilters: Filters)

  /** A fresh loader: nothing loaded, nothing published, default filters. */
  function Init(): (s: DataLoader)
    ensures s.assets == [] && s.flows == [] && s.error.None?
    ensures s.allAssets == [] && s.allFlows == []
    ensures s.currentFilters == DefaultFilters()
  {
    DataLoader([], [], None, [], [], DefaultFilters())
  }

  function AssetFilter(f: Filters): AssetSignal -> bool {
    a => MatchesAsset(f, a)
  }

  function FlowFilter(f: Filters): AssetFlow -> bool {
    fl => MatchesFlow(f, fl)
  }

  /** Everything but the published arrays. */
  predicate SameBacking(s: DataLoader, t: DataLoader) {
    s.allAssets == t.allAssets && s.allFlows == t.allFlows
    && s.currentFilters == t.currentFilters && s.error == t.error
  }

  /**
   * `applyCurrentFilters`: the published arrays become the order-preserving
   * selection of exactly the matching entities of the full dataset.
   */
  function ApplyCurrentFilters(s: DataLoader): (r: DataLoader)
    ensures SameBacking(r, s)
    ensures SelectionOf(r.assets, s.allAssets,
                        KeptIndices(s.allAssets, AssetFilter(s.currentFilters)), AssetFilter(s.currentFilters))
    ensures SelectionOf(r.flows, s.allFlows,
                        KeptIndices(s.allFlows, FlowFilter(s.currentFilters)), FlowFilter(s.currentFilters))
    ensures forall a :: a in r.assets <==> a in s.allAssets && MatchesAsset(s.currentFilters, a)
    ensures forall fl :: fl in r.flows <==> fl in s.allFlows && MatchesFlow(s.currentFilters, fl)
    ensures !s.currentFilters.showFlows ==> r.flows == []
  {
    var p, q := AssetFilter(s.currentFilters), FlowFilter(s.currentFilters);
    KeepIsSelection(s.allAssets, p);
    KeepIsSelection(s.allFlows, q);
    KeepMembersAll(s.allAssets, p);
    KeepMembersAll(s.allFlows, q);
    assert !s.currentFilters.showFlows ==> Keep(s.allFlows, q) == [] by {
      if !s.currentFilters.showFlows {
        KeepNothing(s.allFlows, q);
      }
    }
    s.(assets := Keep(s.allAssets, p), flows := Keep(s.allFlows, q))
  }

  /** Recomputing again, with nothing changed in between, publishes the same arrays;
      and filtering the published view once more leaves it as it is. */
  lemma RecomputeIdempotent(s: DataLoader)
    ensures ApplyCurrentFilters(ApplyCurrentFilters(s)) == ApplyCurrentFilters(s)
    ensures var r := ApplyCurrentFilters(s);
      Keep(r.assets, AssetFilter(s.currentFilters)) == r.assets
      && Keep(r.flows, FlowFilter(s.currentFilters)) == r.flows
  {
    var r := ApplyCurrentFilters(s);
    SelectionIsUnique(r.assets, s.allAssets, KeptIndices(s.allAssets, AssetFilter(s.currentFilters)), AssetFilter(s.currentFilters));
    SelectionIsUnique(r.flows, s.allFlows, KeptIndices(s.allFlows, FlowFilter(s.currentFilters)), FlowFilter(s.currentFilters));
    KeepIdempotent(s.allAssets, AssetFilter(s.currentFilters));
    KeepIdempotent(s.allFlows, FlowFilter(s.currentFilters));
  }

  /** `applyFilters`: replaces the filters; the dataset and the published view wait
      for the next recompute. */
  function ApplyFilters(s: DataLoader, f: Filters): (r: DataLoader)
    ensures r.currentFilters == f
    ensures r.assets == s.assets && r.flows == s.flows && r.error == s.error
    ensures r.allAssets == s.allAssets && r.allFlows == s.allFlows
  {
    s.(currentFilters := f)
  }

  /** `setCurrentDate`: narrows the date window to the single instant `d` and
      leaves every other filter field alone. */
  function SetCurrentDate(s: DataLoader, d: Date): (r: DataLoader)
    ensures forall e: Date :: Contains(r.currentFilters.dateRange, e) <==> e == d
    ensures r.currentFilters.assetClasses == s.currentFilters.assetClasses
    ensures r.currentFilters.region == s.currentFilters.region
    ensures r.currentFilters.riskMin == s.currentFilters.riskMin
    ensures r.currentFilters.showFlows == s.currentFilters.showFlows
    ensures r.assets == s.assets && r.flows == s.flows && r.error == s.error
    ensures r.allAssets == s.allAssets && r.allFlows == s.allFlows
  {
    s.(currentFilters := s.currentFilters.(dateRange := Point(d)))
  }

  /** After `setCurrentDate(d)` and a recompute, only entities stamped exactly `d` are shown. */
  lemma CurrentDateShowsOnlyThatInstant(s: DataLoader, d: Date)
    ensures var r := ApplyCurrentFilters(SetCurrentDate(s, d));
      (forall a :: a in r.assets ==> a.ts == d) && (forall fl :: fl in r.flows ==> fl.ts == d)
  {
  }

  /** A filter change the scheduler has not yet turned into a recompute. */
  datatype Command = ApplyFiltersCommand(filters: Filters) | SetCurrentDateCommand(date: Date)

  function Run(s: DataLoader, c: Command): DataLoader {
    match c
    case ApplyFiltersCommand(f) => ApplyFilters(s, f)
    case SetCurrentDateCommand(d) => SetCurrentDate(s, d)
  }

  /** A burst of filter changes, applied in order. */
  function RunAll(s: DataLoader, cs: seq<Command>): DataLoader
    decreases |cs|
  {
    if |cs| == 0 then s else Run(RunAll(s, cs[..|cs| - 1]), cs[|cs| - 1])
  }

  /** A burst of filter changes touches neither the dataset, the error nor the
      published view. */
  lemma {:induction false} BurstChangesOnlyFilters(s: DataLoader, cs: seq<Command>)
    ensures var r := RunAll(s, cs);
      r.assets == s.assets && r.flows == s.flows && r.error == s.error
      && r.allAssets == s.allAssets && r.allFlows == s.allFlows
    decreases |cs|
  {
    if |cs| > 0 {
      BurstChangesOnlyFilters(s, cs[..|cs| - 1]);
    }
  }

  /**
   * However many filter changes precede it, a burst that ends with
   * `applyFilters(f)` recomputes exactly as `applyFilters(f)` alone would:
   * earlier filter values are never applied.
   */
  lemma LatestFilterWins(s: DataLoader, cs: seq<Command>, f: Filters)
    ensures ApplyCurrentFilters(RunAll(s, cs + [ApplyFiltersCommand(f)]))
         == ApplyCurrentFilters(ApplyFilters(s, f))
  {
    var all := cs + [ApplyFiltersCommand(f)];
    assert all[..|all| - 1] == cs;
    BurstChangesOnlyFilters(s, cs);
  }

  /**
   * `refresh`: load the assets, then the flows, then recompute. A thrown
   * error is published and the published arrays are left untouched; if only
   * the flows fail, the new assets have already replaced `allAssets`.
   */
  function Refresh(s: DataLoader, assetSrc: Source<RawSignal>, flowSrc: Source<RawFlow>, parsers: DateParsers): (r: DataLoader)
    ensures r.currentFilters == s.currentFilters
    ensures LoadAssets(assetSrc, parsers).Failure? ==>
      r == s.(error := Some(LoadAssets(assetSrc, parsers).error))
    ensures LoadAssets(assetSrc, parsers).Success? && LoadFlows(flowSrc, parsers).Failure? ==>
      && r.error == Some(LoadFlows(flowSrc, parsers).error)
      && r.allAssets == LoadAssets(assetSrc, parsers).value
      && r.allFlows == s.allFlows
      && r.assets == s.assets && r.flows == s.flows
    ensures LoadAssets(assetSrc, parsers).Success? && LoadFlows(flowSrc, parsers).Success? ==>
      && r.allAssets == LoadAssets(assetSrc, parsers).value
      && r.allFlows == LoadFlows(flowSrc, parsers).value
      && r.error == s.error
      && r.assets == Keep(r.allAssets, AssetFilter(s.currentFilters))
      && r.flows == Keep(r.allFlows, FlowFilter(s.currentFilters))
  {
    match LoadAssets(assetSrc, parsers)
    case Failure(e) => s.(error := Some(e))
    case Success(loadedAssets) =>
      var s1 := s.(allAssets := loadedAssets);
      match LoadFlows(flowSrc, parsers)
      case Failure(e) => s1.(error := Some(e))
      case Success(loadedFlows) =>
        var s2 := s1.(allFlows := loadedFlows);
        var r := ApplyCurrentFilters(s2);
        SelectionIsUnique(r.assets, s2.allAssets, KeptIndices(s2.allAssets, AssetFilter(s2.currentFilters)), AssetFilter(s2.currentFilters));
        SelectionIsUnique(r.flows, s2.allFlows, KeptIndices(s2.allFlows, FlowFilter(s2.currentFilters)), FlowFilter(s2.currentFilters));
        r
  }

  /** A failed refresh publishes an error and never disturbs the published view. */
  lemma FailedRefreshKeepsView(s: DataLoader, assetSrc: Source<RawSignal>, flowSrc: Source<RawFlow>, parsers: DateParsers)
    requires LoadAssets(assetSrc, parsers).Failure? || LoadFlows(flowSrc, parsers).Failure?
    ensures var r := Refresh(s, assetSrc, flowSrc, parsers);
      r.error.Some? && r.assets == s.assets && r.flows == s.flows && r.allFlows == s.allFlows
  {
  }

  /** One timestamp that neither format accepts fails the whole signal file, so a
      refresh over it loads nothing and reports that timestamp. */
  lemma OneBadDateFailsTheFile(s: DataLoader, raws: seq<RawSignal>, k: int, flowSrc: Source<RawFlow>, parsers: DateParsers)
    requires 0 <= k < |raws|
    requires forall i :: 0 <= i < |raws| ==>
      AssetClasses.FromRawValue(raws[i].assetType).Some? && RiskLevels.FromRawValue(raws[i].risk).Some?
    requires forall i :: 0 <= i < k ==> DecodeDate(raws[i].ts, parsers).Success?
    requires parsers.withFractionalSeconds(raws[k].ts).None? && parsers.internetDateTime(raws[k].ts).None?
    ensures Refresh(s, Records(raws), flowSrc, parsers) == s.(error := Some(InvalidDate(raws[k].ts)))
  {
    var r := LoadAssets(Records(raws), parsers);
    assert DecodeSignal(raws[k], parsers).Failure?;
    var i :| 0 <= i < |raws| && DecodeSignal(raws[i], parsers) == Failure(r.error)
        && forall j :: 0 <= j < i ==> DecodeSignal(raws[j], parsers).Success?;
    assert i == k;
  }

  /** When only the flow file fails, `allAssets` has already been replaced, so
      the next recompute publishes the new assets beside the old flows. */
  lemma FlowFailureLeavesNewAssetsBehind(s: DataLoader, assetSrc: Source<RawSignal>, flowSrc: Source<RawFlow>, parsers: DateParsers)
    requires LoadAssets(assetSrc, parsers).Success? && LoadFlows(flowSrc, parsers).Failure?
    ensures var r := ApplyCurrentFilters(Refresh(s, assetSrc, flowSrc, parsers));
      r.assets == Keep(LoadAssets(assetSrc, parsers).value, AssetFilter(s.currentFilters))
      && r.flows == Keep(s.allFlows, FlowFilter(s.currentFilters))
  {
    var t := Refresh(s, assetSrc, flowSrc, parsers);
    var r := ApplyCurrentFilters(t);
    SelectionIsUnique(r.assets, t.allAssets, KeptIndices(t.allAssets, AssetFilter(t.currentFilters)), AssetFilter(t.currentFilters));
    SelectionIsUnique(r.flows, t.allFlows, KeptIndices(t.allFlows, FlowFilter(t.currentFilters)), FlowFilter(t.currentFilters));
  }
}
