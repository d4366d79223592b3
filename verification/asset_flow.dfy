/** An asset flow: a directed movement of value between two locations. */
module Flows {
  import opened AssetClasses
  import opened Dates
  import opened Geo

  datatype AssetFlow = AssetFlow(
    id: string,
    fromLat: real,
    fromLon: real,
    toLat: real,
    toLon: real,
    magnitude: real,
    classTag: AssetClass,
    ts: Date)

  function FromCoordinate(f: AssetFlow): (c: Coordinate)
    ensures c.latitude == f.fromLat && c.longitude == f.fromLon
  {
    Coordinate(f.fromLat, f.fromLon)
  }

  function ToCoordinate(f: AssetFlow): (c: Coordinate)
    ensures c.latitude == f.toLat && c.longitude == f.toLon
  {
    Coordinate(f.toLat, f.toLon)
  }

  /** Swift's `==` on flows: identity is the `id` alone. */
  predicate SameFlow(a: AssetFlow, b: AssetFlow) {
    a.id == b.id
  }

  /** The values `hash(into:)` feeds to the hasher, in order. */
  function HashInputs(f: AssetFlow): seq<string> {
    [f.id]
  }

  /** `==` is an equivalence relation. */
  lemma SameFlowIsEquivalence(a: AssetFlow, b: AssetFlow, c: AssetFlow)
    ensures SameFlow(a, a)
    ensures SameFlow(a, b) ==> SameFlow(b, a)
    ensures SameFlow(a, b) && SameFlow(b, c) ==> SameFlow(a, c)
  {
  }

  /** Hashing agrees with `==`: equal flows hash alike, and the hash sees only the id. */
  lemma HashConsistentWithEquality(a: AssetFlow, b: AssetFlow)
    ensures SameFlow(a, b) <==> HashInputs(a) == HashInputs(b)
  {
    if HashInputs(a) == HashInputs(b) {
      assert HashInputs(a)[0] == HashInputs(b)[0];
    }
  }

  /** Two flows that share an id are equal however much else differs. */
  lemma EqualityIgnoresPayload(a: AssetFlow, b: AssetFlow)
    requires a.id == b.id
    ensures SameFlow(a, b) && HashInputs(a) == HashInputs(b)
  {
  }
}
