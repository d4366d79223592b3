# FrontierMetrix core, modelled in Dafny

FrontierMetrix shows asset signals and asset flows on a globe. Each signal has a risk level and each flow has a magnitude. A timeline plays the data back hour by hour. This project models the logic underneath the views:

- **Entities.** Risk levels and asset classes, with their raw values and display tables. Asset signals and asset flows compare and hash by `id` alone.
- **Filtering.** `Filters` is the filter configuration. `matches(asset:)` and `matches(flow:)` decide what is visible.
- **DataLoader.** It keeps the full dataset and the current filters. It publishes the filtered arrays. `refresh` loads the two seed files with a two-stage date decoder.
- **TimelineEngine.** A play/pause state machine over a current date and a closed date range.
- **FlowArcCalculator arithmetic.** The adaptive segment count, the sampling parameters, the linear fallback for nearly coincident endpoints, and the arch-height, width and opacity clamps.
- **RiskStyling.** Colour palettes, pulse, halo and dot sizes, and the accessibility strings.

Modelling conventions:

- A `Date` is a `real`: seconds since the reference date. `Date.distantPast` and `Date.distantFuture` are Foundation's values.
- A `ClosedRange<Date>` is a bound pair with `lower <= upper`. Swift traps when a range is built with its bounds reversed.
- Swift `Double` arithmetic is exact `real` arithmetic.
- Stateful classes become immutable records, and each mutating method becomes a function from the old record to the new one.

Modules, one per source file:

- `RiskLevels`, `AssetClasses`, `Signals`, `Flows`, `Filtering`: the model files.
- `Loading`, `Timeline`, `FlowArcs`, `Styling`: the services.
- Shared helpers: `Wrappers` (Option/Result), `Dates`, `Geo` (coordinates), and `Selection`. `Selection` models Swift's `Array.filter` and proves it selects exactly the matching elements, in order.

Behaviours of the code that a reader might not expect, all of which the model keeps:

- **Timestamp decoding.** One timestamp that neither ISO 8601 format accepts fails the decode of the whole file. Records are not dropped one by one (`Loading.DecodeArray`, `Loading.OneBadDateFailsTheFile`).
- **Failed refresh.** A refresh whose flow file fails has already replaced `allAssets` with the newly loaded assets. The published arrays stay untouched until the next recompute (`Loading.Refresh`, `Loading.FlowFailureLeavesNewAssetsBehind`).
- **Error field.** A successful refresh does not clear an earlier `error`.
- **Minimum arc length.** An arc has at least 25 points only when the caller allows at least 24 segments. Smaller caps give `segments + 1` points.
- **Antipodal endpoints.** The code has no guard for antipodal endpoints.
- **Throttle, not debounce.** Filter changes are throttled with the latest value. Every recompute reads the filters current at that moment, so the last change always wins (`Loading.LatestFilterWins`).

## Model

| member | source | states |
|---|---|---|
| RiskLevels.FromRawValue | FrontierMetrix/Models/RiskLevel.swift:3-7 | decoding accepts exactly the four raw strings and a decoded level's raw value is the input |
| RiskLevels.RawValueRoundTrip | FrontierMetrix/Models/RiskLevel.swift:3-7 | decoding the raw value of a level gives that level back |
| RiskLevels.HighDisplayName | FrontierMetrix/Models/RiskLevel.swift:9-20 | high risk displays as "High" |
| RiskLevels.DisplayNameInjective | FrontierMetrix/Models/RiskLevel.swift:9-20 | display names are pairwise distinct |
| RiskLevels.Order | FrontierMetrix/Models/RiskLevel.swift:22-33 | low, medium, high and extreme sit at exactly 0, 1, 2 and 3 |
| RiskLevels.OrderInjective | FrontierMetrix/Models/RiskLevel.swift:22-33 | distinct levels have distinct orders |
| RiskLevels.AtLeastIsTotalOrder | FrontierMetrix/Models/RiskLevel.swift:35-37 | `>=` is reflexive, antisymmetric, transitive and total |
| RiskLevels.Bounds | FrontierMetrix/Models/RiskLevel.swift:22-37 | every level is `>= .low`, `.extreme >=` every level, and only low/extreme sit at the ends |
| RiskLevels.AtMostIsConverse | FrontierMetrix/Models/RiskLevel.swift:35-41 | `a <= b` exactly when `b >= a` |
| AssetClasses.AllCasesComplete | FrontierMetrix/Models/AssetClass.swift:3-8 | `allCases` has five distinct members and contains every class |
| AssetClasses.FromRawValue | FrontierMetrix/Models/AssetClass.swift:3-8 | decoding accepts exactly the five raw strings and a decoded class's raw value is the input |
| AssetClasses.RawValueRoundTrip | FrontierMetrix/Models/AssetClass.swift:3-8 | decoding a class's raw value gives that class back |
| AssetClasses.DisplayNameFacts | FrontierMetrix/Models/AssetClass.swift:10-23 | crypto displays as "Cryptocurrency" and display names are pairwise distinct |
| AssetClasses.IconInjective | FrontierMetrix/Models/AssetClass.swift:25-38 | icons are pairwise distinct |
| Signals.Location | FrontierMetrix/Models/AssetSignal.swift:15-17 | the coordinate is exactly (latitude, longitude) |
| Signals.SameSignalIsEquivalence | FrontierMetrix/Models/AssetSignal.swift:40-42 | id-only `==` is reflexive, symmetric and transitive |
| Signals.HashConsistentWithEquality | FrontierMetrix/Models/AssetSignal.swift:35-42 | two signals feed the hasher the same inputs exactly when they are `==` |
| Signals.EqualityIgnoresPayload | FrontierMetrix/Models/AssetSignal.swift:40-42 | any two signals sharing an id are `==` and hash alike, whatever every other field holds |
| Flows.FromCoordinate | FrontierMetrix/Models/AssetFlow.swift:14-16 | the origin is exactly (fromLat, fromLon) |
| Flows.ToCoordinate | FrontierMetrix/Models/AssetFlow.swift:18-20 | the destination is exactly (toLat, toLon) |
| Flows.SameFlowIsEquivalence | FrontierMetrix/Models/AssetFlow.swift:41-43 | id-only `==` is reflexive, symmetric and transitive |
| Flows.HashConsistentWithEquality | FrontierMetrix/Models/AssetFlow.swift:36-43 | two flows feed the hasher the same inputs exactly when they are `==` |
| Flows.EqualityIgnoresPayload | FrontierMetrix/Models/AssetFlow.swift:41-43 | any two flows sharing an id are `==` and hash alike, whatever every other field holds (endpoints included) |
| Dates.Point | FrontierMetrix/Services/DataLoader.swift:61 | the range `d...d` contains `d` and nothing else |
| Dates.Duration | FrontierMetrix/Services/TimelineEngine.swift:87 | a range's duration is non-negative and zero exactly when the range holds a single instant |
| Filtering.RegionFromRawValue | FrontierMetrix/Models/Filters.swift:3-11 | region decoding accepts exactly the eight raw strings and returns a preset with that raw value |
| Filtering.RegionTables | FrontierMetrix/Models/Filters.swift:3-32 | region raw values round-trip and region display names are pairwise distinct |
| Filtering.DefaultFilters | FrontierMetrix/Models/Filters.swift:84-96 | the default selects every class, minimum risk low, the global region, flows shown, window distantPast...distantFuture |
| Filtering.MatchesAssetExactly | FrontierMetrix/Models/Filters.swift:98-102 | an asset matches iff its class is selected, its risk order reaches `riskMin`'s and its timestamp lies in the window, both ends inclusive |
| Filtering.MatchesFlowExactly | FrontierMetrix/Models/Filters.swift:104-108 | a flow matches iff flows are shown, its class is selected and its timestamp lies in the window; hidden flows never match |
| Filtering.IrrelevantFields | FrontierMetrix/Models/Filters.swift:98-108 | neither predicate depends on the region, and the flow predicate does not depend on `riskMin` |
| Filtering.RaisingRiskMinNarrows | FrontierMetrix/Models/Filters.swift:100 | raising `riskMin` can only turn an asset match off |
| Filtering.DefaultAdmitsEverything | FrontierMetrix/Models/Filters.swift:84-108 | the default filter admits every asset and flow timestamped within distantPast...distantFuture |
| Filtering.PointWindowIsExact | FrontierMetrix/Models/Filters.swift:101-107 | a window `d...d` admits only entities timestamped exactly `d` |
| Filtering.FilterScenario | FrontierMetrix/Models/Filters.swift:98-102 | a high-risk crypto signal passes riskMin medium with classes {crypto}, and fails with classes {bond} or riskMin extreme |
| Selection.Keep | FrontierMetrix/Services/DataLoader.swift:126-127 | filtering never lengthens the array |
| Selection.KeepIsSelection | FrontierMetrix/Services/DataLoader.swift:126-127 | the filtered array is the input restricted to increasing positions, which are exactly the positions whose element matches |
| Selection.SelectionIsUnique | FrontierMetrix/Services/DataLoader.swift:126-127 | any order-preserving selection of exactly the matching positions equals the filtered array |
| Selection.KeepMembers | FrontierMetrix/Services/DataLoader.swift:126-127 | an element is in the filtered array iff it is in the input and matches |
| Selection.KeepIdempotent | FrontierMetrix/Services/DataLoader.swift:126-127 | filtering twice with the same predicate equals filtering once |
| Selection.KeepNothing | FrontierMetrix/Services/DataLoader.swift:127 | when no element matches the result is empty |
| Selection.KeepEverything | FrontierMetrix/Services/DataLoader.swift:126 | when every element matches the result is the input unchanged |
| Loading.DecodeDate | FrontierMetrix/Services/DataLoader.swift:72-90 | the fractional-seconds parse wins when it succeeds, else the plain parse, else an invalid-date error naming the text |
| Loading.DecodeSignal | FrontierMetrix/Services/DataLoader.swift:72-92 | a signal record decodes iff its class, risk and timestamp decode, and the result carries the record's fields |
| Loading.DecodeFlow | FrontierMetrix/Services/DataLoader.swift:102-122 | a flow record decodes iff its class and timestamp decode, and the result carries the record's fields |
| Loading.DecodeArray | FrontierMetrix/Services/DataLoader.swift:92 | an array decodes iff every record does, element by element; otherwise the first failing record's error is thrown |
| Loading.LoadAssets | FrontierMetrix/Services/DataLoader.swift:65-93 | a missing seed_assets.json throws fileNotFound; otherwise the whole array decodes or the load fails |
| Loading.LoadFlows | FrontierMetrix/Services/DataLoader.swift:95-123 | a missing seed_flows.json throws fileNotFound; otherwise the whole array decodes or the load fails |
| Loading.Init | FrontierMetrix/Services/DataLoader.swift:5-11 | a new loader publishes nothing, holds nothing and uses the default filters |
| Loading.ApplyCurrentFilters | FrontierMetrix/Services/DataLoader.swift:125-128 | published assets and flows are order-preserving selections of exactly the matching entities of the full dataset; flows are empty when hidden; nothing else changes |
| Loading.RecomputeIdempotent | FrontierMetrix/Services/DataLoader.swift:125-128 | recomputing twice publishes the same arrays, and re-filtering the published arrays changes nothing |
| Loading.ApplyFilters | FrontierMetrix/Services/DataLoader.swift:53-56 | the filters are replaced and neither the dataset nor the published arrays change |
| Loading.SetCurrentDate | FrontierMetrix/Services/DataLoader.swift:58-63 | the window becomes exactly the instant `d`; classes, region, riskMin, showFlows, dataset and published arrays are unchanged |
| Loading.CurrentDateShowsOnlyThatInstant | FrontierMetrix/Services/DataLoader.swift:58-63 | after `setCurrentDate(d)` and a recompute, every published entity is timestamped `d` |
| Loading.BurstChangesOnlyFilters | FrontierMetrix/Services/DataLoader.swift:53-63 | any sequence of filter changes leaves the dataset, error and published arrays untouched |
| Loading.LatestFilterWins | FrontierMetrix/Services/DataLoader.swift:32-37 | a recompute after a burst ending in `applyFilters(f)` equals the recompute after `applyFilters(f)` alone |
| Loading.Refresh | FrontierMetrix/Services/DataLoader.swift:43-51 | success replaces both arrays and republishes immediately; a failure sets the error and keeps the published arrays; a flow failure keeps the new assets in `allAssets` |
| Loading.FailedRefreshKeepsView | FrontierMetrix/Services/DataLoader.swift:48-50 | any failed refresh publishes an error and leaves the published assets, flows and `allFlows` as they were |
| Loading.OneBadDateFailsTheFile | FrontierMetrix/Services/DataLoader.swift:72-92 | one timestamp both formats reject makes the refresh fail with that timestamp's error and change nothing else |
| Loading.FlowFailureLeavesNewAssetsBehind | FrontierMetrix/Services/DataLoader.swift:45-50 | after a refresh whose flows fail, the next recompute shows the new assets beside the old flows |
| Timeline.Init | FrontierMetrix/Services/TimelineEngine.swift:7-9 | a new engine is paused at now over distantPast...distantFuture, and is in range iff now lies in that range |
| Timeline.Play | FrontierMetrix/Services/TimelineEngine.swift:23-25 | play sets `isPlaying` and changes nothing else |
| Timeline.Pause | FrontierMetrix/Services/TimelineEngine.swift:27-29 | pause clears `isPlaying` and changes nothing else |
| Timeline.PlayPauseIdempotent | FrontierMetrix/Services/TimelineEngine.swift:23-29 | play and pause are idempotent and the later one decides the flag |
| Timeline.HapticFeedback | FrontierMetrix/Services/TimelineEngine.swift:77-80 | one impact is delivered iff haptics are enabled |
| Timeline.SetHapticsEnabled | FrontierMetrix/Services/TimelineEngine.swift:82-84 | only the haptics switch changes |
| Timeline.Step | FrontierMetrix/Services/TimelineEngine.swift:31-37 | an in-range target is committed with feedback, otherwise nothing changes; never clamps; keeps the instant in range |
| Timeline.Tick | FrontierMetrix/Services/TimelineEngine.swift:62-75 | idle when paused; while playing, advance one hour with one haptic request (when enabled) if in range, else pause in place; keeps the instant in range and never moves back |
| Timeline.PlaybackStaysInRange | FrontierMetrix/Services/TimelineEngine.swift:62-75 | after any number of ticks the instant is in range, has moved forward by a whole number of hours, and the range is unchanged |
| Timeline.PausedTicksAreIdle | FrontierMetrix/Services/TimelineEngine.swift:63 | ticks of a paused engine change nothing |
| Timeline.SetDateRange | FrontierMetrix/Services/TimelineEngine.swift:39-44 | the range is replaced; the instant is kept if inside, else snapped to the lower bound; the result is always in range; playback, haptics switch and impacts are untouched |
| Timeline.ResetToStart | FrontierMetrix/Services/TimelineEngine.swift:46-48 | the instant becomes the earliest instant of the range; no haptic impact and nothing else changes |
| Timeline.ResetToEnd | FrontierMetrix/Services/TimelineEngine.swift:50-52 | the instant becomes the latest instant of the range; no haptic impact and nothing else changes |
| Timeline.Progress | FrontierMetrix/Services/TimelineEngine.swift:86-90 | progress is 0 for a zero-length range, lies in [0,1] when in range, and is 0/1 exactly at the lower/upper bound |
| Timeline.Clamp01 | FrontierMetrix/Services/TimelineEngine.swift:93 | the clamp lies in [0,1] and is the identity there |
| Timeline.SetProgress | FrontierMetrix/Services/TimelineEngine.swift:92-97 | the new instant is in range, and with a positive duration `progress` reads back the clamped value; no haptic impact and nothing but the instant changes |
| Timeline.ProgressRoundTrip | FrontierMetrix/Services/TimelineEngine.swift:86-97 | `setProgress(progress)` leaves an in-range engine's instant unchanged |
| FlowArcs.Truncate | FrontierMetrix/Services/FlowArcCalculator.swift:14 | `Int(x)` truncates toward zero |
| FlowArcs.AdaptiveSegments | FrontierMetrix/Services/FlowArcCalculator.swift:14 | the adaptive count is in [24, 96]: 24 below 12,500 km, 96 from 48,000 km, one per 500 km between |
| FlowArcs.AdaptiveSegmentsMonotone | FrontierMetrix/Services/FlowArcCalculator.swift:14 | longer arcs never get fewer segments |
| FlowArcs.FinalSegments | FrontierMetrix/Services/FlowArcCalculator.swift:15 | the final count is the smaller of the caller's cap and the adaptive count (one of the two, at most either), so at most 96, and at least 24 when the cap allows |
| FlowArcs.Parameter | FrontierMetrix/Services/FlowArcCalculator.swift:20 | t lies in [0,1], with t = 0 at the first sample and t = 1 at the last |
| FlowArcs.ParametersIncrease | FrontierMetrix/Services/FlowArcCalculator.swift:19-20 | the parameter values strictly increase |
| FlowArcs.DistanceKm | FrontierMetrix/Services/FlowArcCalculator.swift:84 | the distance in km, times 1000, is the angular distance times the Earth's radius in metres; non-negative for a non-negative angle, and over 6.371 km whenever the arched branch is taken |
| FlowArcs.Interpolate | FrontierMetrix/Services/FlowArcCalculator.swift:33-52 | above 0.001 rad the arched spherical point; otherwise the linear fallback, which hits the endpoints at t=0 and t=1 and stays between them |
| FlowArcs.Lerp | FrontierMetrix/Services/FlowArcCalculator.swift:47-52 | the linear fallback gives start at t=0 and end at t=1, and stays between the endpoints for t in [0,1] |
| FlowArcs.GreatCircle | FrontierMetrix/Services/FlowArcCalculator.swift:7-31 | exactly finalSegments + 1 points, sample i taken at t = i/finalSegments; in the near-coincident branch the first is start and the last is end |
| FlowArcs.ShortArcsGetMinimumSegments | FrontierMetrix/Services/FlowArcCalculator.swift:14-19 | an arc under 12,500 km with a cap of at least 24 has exactly 25 points |
| FlowArcs.HeightScale | FrontierMetrix/Services/FlowArcCalculator.swift:102 | the arch height lies in [0.05, 0.12] and is a tenth of the magnitude where not clamped |
| FlowArcs.CreatePolyline | FrontierMetrix/Services/FlowArcCalculator.swift:98-104 | a flow's arc has between 25 and 65 points, sampled with its magnitude's arch height, from its origin to its destination |
| FlowArcs.PolylineWidth | FrontierMetrix/Services/FlowArcCalculator.swift:106-109 | the width lies in [1, 5] and is twice the magnitude where not clamped |
| FlowArcs.PolylineAlpha | FrontierMetrix/Services/FlowArcCalculator.swift:111-114 | the opacity lies in [0.3, 1] and is half the magnitude where not clamped |
| FlowArcs.StylingMonotone | FrontierMetrix/Services/FlowArcCalculator.swift:102-114 | width, opacity and arch height never decrease with magnitude, and width and opacity strictly increase where not clamped |
| FlowArcs.StylingSamples | FrontierMetrix/Services/FlowArcCalculator.swift:106-114 | magnitudes 0.5, 1 and 2 give strictly increasing widths and opacities within their bounds |
| Styling.ColorFor | FrontierMetrix/Services/RiskStyling.swift:6-12 | the colour-vision setting selects which palette the colour comes from |
| Styling.PalettesDistinguish | FrontierMetrix/Services/RiskStyling.swift:14-38 | each palette gives the four levels distinct colours and the two palettes are disjoint |
| Styling.PulseRate | FrontierMetrix/Services/RiskStyling.swift:40-51 | the rates are 1.2, 0.9, 0.6 and 0.45 pulses per second from low to extreme, all positive |
| Styling.HaloWidth | FrontierMetrix/Services/RiskStyling.swift:53-64 | the halo width is 4 plus 2 per step of risk order |
| Styling.DotSize | FrontierMetrix/Services/RiskStyling.swift:66-77 | the dot size is 8 plus 2 per step of risk order |
| Styling.AnimationDuration | FrontierMetrix/Services/RiskStyling.swift:79-81 | the duration is positive and is the reciprocal of the pulse rate |
| Styling.StylingFollowsRiskOrder | FrontierMetrix/Services/RiskStyling.swift:40-81 | halo and dot strictly grow, pulse rate strictly falls and duration strictly grows with risk order |
| Styling.AccessibilityLabel | FrontierMetrix/Services/RiskStyling.swift:85-87 | the label is the name, ", ", the class display name, ", risk " and the risk display name, in that order and nothing more, so it contains all three |
| Styling.LabelDistinguishesRisk | FrontierMetrix/Services/RiskStyling.swift:85-87 | for the same name and class, labels are equal iff the risk levels are |
| Styling.LabelSample | FrontierMetrix/Services/RiskStyling.swift:85-87 | a high-risk crypto signal named "Test Asset" has a label containing "Test Asset", "Cryptocurrency" and "High" |
| Styling.AccessibilityHint | FrontierMetrix/Services/RiskStyling.swift:89-91 | the hint begins with the "Double-tap" gesture |
| Styling.HintSample | FrontierMetrix/Services/RiskStyling.swift:89-91 | the hint is exactly "Double-tap for details" |

## Left out

- Trigonometry: `haversineKm`/`haversineRadians` (FlowArcCalculator.swift:78-96) and the spherical interpolation with arch height (FlowArcCalculator.swift:54-75) use `sin`, `cos`, `atan2` and `sqrt` on `Double`s. The angular distance is an input (`angle`) and the arched point is an input function (`arch`).
- FlowArcs.GreatCircle: endpoint exactness is proved only for the linear branch (angular distance at most 0.001 rad). In the spherical branch the endpoints come from the trigonometry, which is not modelled.
- FlowArcs.CreatePolyline: the same limit applies. Its endpoints are proved to be the flow's coordinates only in the linear branch.
- FlowArcs.GreatCircle: requires `segments >= 1`. With `segments == 0` the code samples once at t = 0/0, which is NaN. With a negative cap `0...finalSegments` traps.
- Floating point: every `Double` is an exact `real`. Rounding, NaN and infinities are not modelled. In particular `lowerBound + total * p` in `setProgress` is taken to stay within the range exactly.
- Timing: the 120 ms Combine throttle (DataLoader.swift:32-37) and the 0.25 s `Timer.publish` (TimelineEngine.swift:54-60) are scheduler behaviour. A recompute is the explicit step `Loading.ApplyCurrentFilters`, and one timer firing is one `Timeline.Tick`.
- Loading.Refresh: modelled as one uninterrupted step. In the code, `try await loadAssets()` and `try await loadFlows()` (DataLoader.swift:45-46) are suspension points. A throttled recompute on the main queue (DataLoader.swift:32-36) can run in between and publish the new `allAssets` next to the old `allFlows`, even when the flows then fail. `Loading.FailedRefreshKeepsView` holds only for a refresh that nothing interleaves with.
- Timeline.InRange: kept only by the modelled operations. `currentDate`, `isPlaying` and `dateRange` are `@Published var`s (TimelineEngine.swift:7-9) that other code may assign directly, and such writes can leave the instant outside the range.
- Haptics: `UIImpactFeedbackGenerator` is hardware. The model only counts the impacts requested (`hapticImpacts`).
- File and JSON I/O: bundle lookup, `Data(contentsOf:)` and `JSONDecoder`'s key mapping are collapsed. A seed file is either not bundled, unreadable or corrupt as a whole (`DataCorrupted`), or a list of raw records whose enum and timestamp fields are then decoded. A numeric field with the wrong JSON type falls under `DataCorrupted` and is not tracked per field.
- Date parsing: the two `ISO8601DateFormatter` configurations are uninterpreted partial functions (`DateParsers`).
- `DataLoaderError.decodingError` (DataLoader.swift:133) is never thrown by the code and is not modelled. `errorDescription` strings are not modelled either.
- Combine publishers (`assetsPublisher`, `flowsPublisher`, `errorPublisher`) and the `SignalRepository` protocol are interfaces only.
- Formatting: `formattedValue` and `formattedTimestamp` (AssetSignal.swift:19-32), and `formattedMagnitude` and `distance` (AssetFlow.swift:22-33), are foreign formatter and CoreLocation code.
- `RegionPreset.centerCoordinate` and `centerDistance` (Filters.swift:34-74) are used only to frame the map camera.
- Colours: the SwiftUI `Color` values are replaced by an enumeration of their names.
- Hashing: Swift's `Hasher` output is not modelled, only the values fed to it (`HashInputs`). Dafny's own `==` on the entity datatypes stays structural. The id-only equality is `SameSignal`/`SameFlow`.
- Map backends and UI tests (Map/SwiftUIMapBackend.swift, Map/MKMapBackend.swift, Tests/UITests_GlobeBasics.swift) are views.
- Two test expectations are not met by the code, and the model follows the code:
  - FlowArcCalculatorTests.swift:26 expects 65 points for a roughly 157 km arc. The code gives 25 (`FlowArcs.ShortArcsGetMinimumSegments`).
  - DataLoaderTests.swift:150-194 writes the published `assets` directly, while a recompute reads `allAssets`.
