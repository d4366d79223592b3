/** The ordered risk scale attached to every asset signal. */
module RiskLevels {
  import opened Wrappers

  datatype RiskLevel = Low | Medium | High | Extreme

  /** The JSON raw value of each level. */
  function RawValue(r: RiskLevel): string {
    match r
    case Low => "low"
    case Medium => "medium"
    case High => "high"
    case Extreme => "extreme"
  }

  /** Decoding a raw value; anything but the four raw strings is rejected. */
  function FromRawValue(s: string): (r: Option<RiskLevel>)
    ensures r.Some? ==> RawValue(r.value) == s
    ensures r.None? ==> forall l: RiskLevel :: RawValue(l) != s
  {
    if s == "low" then Some(Low)
    else if s == "medium" then Some(Medium)
    else if s == "high" then Some(High)
    else if s == "extreme" then Some(Extreme)
    else None
  }

  /** Raw values are distinct, so decoding the raw value of a level gives it back. */
  lemma RawValueRoundTrip(r: RiskLevel)
    ensures FromRawValue(RawValue(r)) == Some(r)
  {
  }

  function DisplayName(r: RiskLevel): string {
    match r
    case Low => "Low"
    case Medium => "Medium"
    case High => "High"
    case Extreme => "Extreme"
  }

  lemma HighDisplayName()
    ensures DisplayName(High) == "High"
  {
  }

  lemma DisplayNameInjective(a: RiskLevel, b: RiskLevel)
    ensures DisplayName(a) == DisplayName(b) <==> a == b
  {
  }

  /** Position of a level on the scale, from 0 (low) to 3 (extreme). */
  function Order(r: RiskLevel): (n: nat)
    ensures n <= 3
    ensures n == 0 <==> r == Low
    ensures n == 1 <==> r == Medium
    ensures n == 2 <==> r == High
    ensures n == 3 <==> r == Extreme
  {
    match r
    case Low => 0
    case Medium => 1
    case High => 2
    case Extreme => 3
  }

  /** Distinct levels have distinct positions. */
  lemma OrderInjective(a: RiskLevel, b: RiskLevel)
    ensures Order(a) == Order(b) <==> a == b
  {
  }

  /** Swift's `lhs >= rhs`. */
  predicate AtLeast(lhs: RiskLevel, rhs: RiskLevel) {
    Order(lhs) >= Order(rhs)
  }

  /** Swift's `lhs <= rhs`. */
  predicate AtMost(lhs: RiskLevel, rhs: RiskLevel) {
    Order(lhs) <= Order(rhs)
  }

  /** `>=` is a total order on levels: reflexive, antisymmetric, transitive and total. */
  lemma AtLeastIsTotalOrder()
    ensures forall a: RiskLevel :: AtLeast(a, a)
    ensures forall a: RiskLevel, b: RiskLevel :: AtLeast(a, b) && AtLeast(b, a) ==> a == b
    ensures forall a: RiskLevel, b: RiskLevel, c: RiskLevel :: AtLeast(a, b) && AtLeast(b, c) ==> AtLeast(a, c)
    ensures forall a: RiskLevel, b: RiskLevel :: AtLeast(a, b) || AtLeast(b, a)
  {
    forall a: RiskLevel, b: RiskLevel | AtLeast(a, b) && AtLeast(b, a)
      ensures a == b
    {
      OrderInjective(a, b);
    }
  }

  /** Low is the bottom of the scale and Extreme its top. */
  lemma Bounds(r: RiskLevel)
    ensures AtLeast(r, Low)
    ensures AtLeast(Extreme, r)
    ensures AtLeast(Low, r) ==> r == Low
    ensures AtLeast(r, Extreme) ==> r == Extreme
  {
  }

  /** `<=` is exactly the converse of `>=`. */
  lemma AtMostIsConverse(a: RiskLevel, b: RiskLevel)
    ensures AtMost(a, b) <==> AtLeast(b, a)
  {
  }
}
