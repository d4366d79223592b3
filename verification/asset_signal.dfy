/** An asset signal: one located, risk-rated observation in the dataset. */
module Signals {
  import opened AssetClasses
  import opened RiskLevels
  import opened Dates
  import opened Geo

  datatype AssetSignal = AssetSignal(
    id: string,
    name: string,
    assetType: AssetClass,
    latitude: real,
    longitude: real,
    value: real,
    risk: RiskLevel,
    country: string,
    ts: Date)

  /** The signal's map position. */
  function Location(s: AssetSignal): (c: Coordinate)
    ensures c.latitude == s.latitude && c.longitude == s.longitude
  {
    Coordinate(s.latitude, s.longitude)
  }

  /** Swift's `==` on signals: identity is the `id` alone. */
  predicate SameSignal(a: AssetSignal, b: AssetSignal) {
    a.id == b.id
  }

  /** The values `hash(into:)` feeds to the hasher, in order. */
  function HashInputs(s: AssetSignal): seq<string> {
    [s.id]
  }

  /** `==` is an equivalence relation. */
  lemma SameSignalIsEquivalence(a: AssetSignal, b: AssetSignal, c: AssetSignal)
    ensures SameSignal(a, a)
    ensures SameSignal(a, b) ==> SameSignal(b, a)
    ensures SameSignal(a, b) && SameSignal(b, c) ==> SameSignal(a, c)
  {
  }

  /** Hashing agrees with `==`: equal signals hash alike, and the hash sees only the id. */
  lemma HashConsistentWithEquality(a: AssetSignal, b: AssetSignal)
    ensures SameSignal(a, b) <==> HashInputs(a) == HashInputs(b)
  {
    if HashInputs(a) == HashInputs(b) {
      assert HashInputs(a)[0] == HashInputs(b)[0];
    }
  }

  /** Two signals that share an id are equal however much else differs. */
  lemma EqualityIgnoresPayload(a: AssetSignal, b: AssetSignal)
    requires a.id == b.id
    ensures SameSignal(a, b) && HashInputs(a) == HashInputs(b)
  {
  }
}
