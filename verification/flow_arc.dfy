/**
 * The arithmetic of arc tessellation: how many segments an arc gets, the
 * parameter values it is sampled at, the linear fallback for nearly
 * coincident endpoints, and the magnitude-driven styling scalars.
 *
 * The haversine angular distance and the spherical interpolation with arch
 * height are trigonometry and are inputs here: `angle` is the angular
 * distance in radians, and `arch` computes an interpolated, lifted point.
 */
module FlowArcs {
  import opened Geo
  import opened Flows

  const EarthRadiusMeters: real := 6371000.0

  /** Below this angular separation (radians) the linear fallback is used. */
  const NearlyCoincident: real := 0.001

  const MinAdaptiveSegments: int := 24
  const MaxAdaptiveSegments: int := 96

  /** `greatCircle`'s default `segments`, which `createPolyline` uses. */
  const DefaultSegments: int := 64

  /** The spherical interpolation with arch height: start, end, t, heightScale. */
  type ArchPoint = (Coordinate, Coordinate, real, real) -> Coordinate

  function Min(a: int, b: int): int {
    if a <= b then a else b
  }

  function Max(a: int, b: int): int {
    if a >= b then a else b
  }

  /** Swift's `Int(x)` on a `Double`: truncation toward zero. */
  function Truncate(x: real): (n: int)
    ensures x >= 0.0 ==> n as real <= x < n as real + 1.0
    ensures x < 0.0 ==> n as real - 1.0 < x <= n as real
  {
    if x >= 0.0 then x.Floor else -((-x).Floor)
  }

  lemma TruncateMonotone(x: real, y: real)
    requires x <= y
    ensures Truncate(x) <= Truncate(y)
  {
  }

  /** `haversineKm`: the angular distance as kilometres on the Earth's surface. */
  function DistanceKm(angle: real): (km: real)
    ensures km * 1000.0 == angle * EarthRadiusMeters
    ensures angle >= 0.0 ==> km >= 0.0
    ensures angle > NearlyCoincident ==> km > 6.371
  {
    angle * EarthRadiusMeters / 1000.0
  }

  /** One segment per 500 km, but never fewer than 24 nor more than 96. */
  function AdaptiveSegments(distanceKm: real): (n: int)
    ensures MinAdaptiveSegments <= n <= MaxAdaptiveSegments
    ensures distanceKm < 12500.0 ==> n == MinAdaptiveSegments
    ensures distanceKm >= 48000.0 ==> n == MaxAdaptiveSegments
    ensures 12500.0 <= distanceKm < 48000.0 ==>
      n as real * 500.0 <= distanceKm < (n + 1) as real * 500.0
  {
    Max(MinAdaptiveSegments, Min(MaxAdaptiveSegments, Truncate(distanceKm / 500.0)))
  }

  /** Longer arcs never get fewer segments. */
  lemma AdaptiveSegmentsMonotone(d1: real, d2: real)
    requires d1 <= d2
    ensures AdaptiveSegments(d1) <= AdaptiveSegments(d2)
  {
    TruncateMonotone(d1 / 500.0, d2 / 500.0);
  }

  /** The caller's cap applied to the adaptive count. */
  function FinalSegments(segments: int, distanceKm: real): (n: int)
    ensures n <= segments && n <= AdaptiveSegments(distanceKm) && n <= MaxAdaptiveSegments
    ensures n == segments || n == AdaptiveSegments(distanceKm)
    ensures segments >= MinAdaptiveSegments ==> n >= MinAdaptiveSegments
    ensures segments >= 1 ==> n >= 1
  {
    Min(segments, AdaptiveSegments(distanceKm))
  }

  /** The `i`-th of `n + 1` parameter values. */
  function Parameter(i: int, n: int): (t: real)
    requires n >= 1
    ensures 0 <= i <= n ==> 0.0 <= t <= 1.0
    ensures i == 0 ==> t == 0.0
    ensures i == n ==> t == 1.0
  {
    assert 0 <= i <= n ==> i as real / n as real <= 1.0 by {
      if 0 <= i <= n {
        assert (i as real) <= n as real;
      }
    }
    i as real / n as real
  }

  /** The parameter values strictly increase from 0 to 1. */
  lemma ParametersIncrease(i: int, j: int, n: int)
    requires n >= 1 && i < j
    ensures Parameter(i, n) < Parameter(j, n)
  {
    var nr := n as real;
    assert (j as real) / nr - (i as real) / nr == (j - i) as real / nr;
  }

  /** The near-coincident fallback: straight-line interpolation of latitude and
      longitude. */
  function Lerp(start: Coordinate, end: Coordinate, t: real): (c: Coordinate)
    ensures t == 0.0 ==> c == start
    ensures t == 1.0 ==> c == end
    ensures 0.0 <= t <= 1.0 ==>
      Between(c.latitude, start.latitude, end.latitude) && Between(c.longitude, start.longitude, end.longitude)
  {
    LerpBetween(start.latitude, end.latitude, t);
    LerpBetween(start.longitude, end.longitude, t);
    Coordinate(start.latitude + t * (end.latitude - start.latitude),
               start.longitude + t * (end.longitude - start.longitude))
  }

  predicate Between(x: real, a: real, b: real) {
    (a <= x <= b) || (b <= x <= a)
  }

  lemma LerpBetween(a: real, b: real, t: real)
    ensures 0.0 <= t <= 1.0 ==> Between(a + t * (b - a), a, b)
  {
    if !(0.0 <= t <= 1.0) {
    } else if a <= b {
      assert t * (b - a) <= b - a by {
        assert (1.0 - t) * (b - a) >= 0.0;
      }
    } else {
      assert t * (a - b) <= a - b by {
        assert (1.0 - t) * (a - b) >= 0.0;
      }
    }
  }

  /** `interpolateGreatCircle`: the arched spherical point, or the linear
      fallback when the endpoints are within 0.001 radians of each other. */
  function Interpolate(start: Coordinate, end: Coordinate, t: real, heightScale: real,
                       angle: real, arch: ArchPoint): (c: Coordinate)
    ensures angle > NearlyCoincident ==> c == arch(start, end, t, heightScale)
    ensures angle <= NearlyCoincident ==> c == Lerp(start, end, t)
    ensures angle <= NearlyCoincident && t == 0.0 ==> c == start
    ensures angle <= NearlyCoincident && t == 1.0 ==> c == end
    ensures angle <= NearlyCoincident && 0.0 <= t <= 1.0 ==>
      Between(c.latitude, start.latitude, end.latitude) && Between(c.longitude, start.longitude, end.longitude)
  {
    if angle > NearlyCoincident then arch(start, end, t, heightScale) else Lerp(start, end, t)
  }

  /**
   * `greatCircle`: `finalSegments + 1` points sampled at t = i / finalSegments.
   * In the near-coincident branch the first point is exactly `start` and the
   * last exactly `end`.
   */
  method GreatCircle(start: Coordinate, end: Coordinate, segments: int, heightScale: real,
                     angle: real, arch: ArchPoint) returns (coords: seq<Coordinate>)
    requires segments >= 1
    ensures |coords| == FinalSegments(segments, DistanceKm(angle)) + 1
    ensures |coords| <= segments + 1 && |coords| <= MaxAdaptiveSegments + 1
    ensures segments >= MinAdaptiveSegments ==> |coords| >= MinAdaptiveSegments + 1
    ensures forall i :: 0 <= i < |coords| ==>
      coords[i] == Interpolate(start, end, Parameter(i, |coords| - 1), heightScale, angle, arch)
    ensures angle <= NearlyCoincident ==> coords[0] == start && coords[|coords| - 1] == end
  {
    var n := FinalSegments(segments, DistanceKm(angle));
    coords := [];
    var i := 0;
    while i <= n
      invariant 0 <= i <= n + 1
      invariant |coords| == i
      invariant forall k :: 0 <= k < i ==>
        coords[k] == Interpolate(start, end, Parameter(k, n), heightScale, angle, arch)
    {
      var t := i as real / n as real;
      coords := coords + [Interpolate(start, end, t, heightScale, angle, arch)];
      i := i + 1;
    }
  }

  /** Arcs shorter than 12,500 km get the minimum 24 segments, hence 25 points,
      whenever the caller allows at least 24: a 157 km arc requested with 64
      segments yields 25 points. */
  lemma ShortArcsGetMinimumSegments(segments: int, angle: real)
    requires segments >= MinAdaptiveSegments
    requires DistanceKm(angle) < 12500.0
    ensures FinalSegments(segments, DistanceKm(angle)) + 1 == 25
  {
  }

  /** `createPolyline`'s arch height: a tenth of the magnitude, kept within [0.05, 0.12]. */
  function HeightScale(magnitude: real): (h: real)
    ensures 0.05 <= h <= 0.12
    ensures 0.5 <= magnitude <= 1.2 ==> h == magnitude * 0.1
  {
    if magnitude * 0.1 > 0.12 then 0.12
    else if magnitude * 0.1 < 0.05 then 0.05
    else magnitude * 0.1
  }

  /** `createPolyline`: the flow's arc at the default 64 segments, arched by its magnitude. */
  method CreatePolyline(flow: AssetFlow, angle: real, arch: ArchPoint) returns (coords: seq<Coordinate>)
    ensures MinAdaptiveSegments + 1 <= |coords| <= DefaultSegments + 1
    ensures forall i :: 0 <= i < |coords| ==>
      coords[i] == Interpolate(FromCoordinate(flow), ToCoordinate(flow), Parameter(i, |coords| - 1),
                               HeightScale(flow.magnitude), angle, arch)
    ensures angle <= NearlyCoincident ==>
      coords[0] == Coordinate(flow.fromLat, flow.fromLon)
      && coords[|coords| - 1] == Coordinate(flow.toLat, flow.toLon)
  {
    coords := GreatCircle(FromCoordinate(flow), ToCoordinate(flow), DefaultSegments,
                          HeightScale(flow.magnitude), angle, arch);
  }

  /** `calculatePolylineWidth`: twice the magnitude, kept within [1, 5] points. */
  function PolylineWidth(magnitude: real): (w: real)
    ensures 1.0 <= w <= 5.0
    ensures 0.5 <= magnitude <= 2.5 ==> w == magnitude * 2.0
  {
    if magnitude * 2.0 > 5.0 then 5.0
    else if magnitude * 2.0 < 1.0 then 1.0
    else magnitude * 2.0
  }

  /** `calculatePolylineAlpha`: half the magnitude, kept within [0.3, 1]. */
  function PolylineAlpha(magnitude: real): (a: real)
    ensures 0.3 <= a <= 1.0
    ensures 0.6 <= magnitude <= 2.0 ==> a == magnitude * 0.5
  {
    if magnitude * 0.5 > 1.0 then 1.0
    else if magnitude * 0.5 < 0.3 then 0.3
    else magnitude * 0.5
  }

  /** Width, opacity and arch height never decrease as the magnitude grows, and
      width and opacity strictly grow where they are not clamped. */
  lemma StylingMonotone(m1: real, m2: real)
    requires m1 <= m2
    ensures PolylineWidth(m1) <= PolylineWidth(m2)
    ensures PolylineAlpha(m1) <= PolylineAlpha(m2)
    ensures HeightScale(m1) <= HeightScale(m2)
    ensures m1 < m2 && 0.5 <= m1 && m2 <= 2.5 ==> PolylineWidth(m1) < PolylineWidth(m2)
    ensures m1 < m2 && 0.6 <= m1 && m2 <= 2.0 ==> PolylineAlpha(m1) < PolylineAlpha(m2)
  {
  }

  /** The sample magnitudes 0.5, 1 and 2 give strictly increasing widths and opacities. */
  lemma StylingSamples()
    ensures PolylineWidth(0.5) < PolylineWidth(1.0) < PolylineWidth(2.0)
    ensures PolylineAlpha(0.5) < PolylineAlpha(1.0) < PolylineAlpha(2.0)
    ensures PolylineWidth(0.5) >= 1.0 && PolylineWidth(2.0) <= 5.0
    ensures PolylineAlpha(0.5) >= 0.3 && PolylineAlpha(2.0) <= 1.0
  {
  }
}
