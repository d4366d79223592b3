/** How a risk level is drawn: colour, pulse, halo, dot, and the spoken text. */
module Styling {
  import opened RiskLevels
  import opened AssetClasses
  import opened Signals

  /** The named SwiftUI colours the two palettes draw from. */
  datatype Color = Green | Yellow | Orange | Red | Blue | Cyan | Purple | Pink

  function StandardColor(r: RiskLevel): Color {
    match r
    case Low => Green
    case Medium => Yellow
    case High => Orange
    case Extreme => Red
  }

  function ColorVisionFriendlyColor(r: RiskLevel): Color {
    match r
    case Low => Blue
    case Medium => Cyan
    case High => Purple
    case Extreme => Pink
  }

  /** `color(for:)`: the palette is chosen by the colour-vision setting. */
  function ColorFor(isColorVisionFriendly: bool, r: RiskLevel): (c: Color)
    ensures isColorVisionFriendly ==> c in {Blue, Cyan, Purple, Pink}
    ensures !isColorVisionFriendly ==> c in {Green, Yellow, Orange, Red}
  {
    if isColorVisionFriendly then ColorVisionFriendlyColor(r) else StandardColor(r)
  }

  /** Each palette gives the four levels four different colours, and the two
      palettes share none, so the setting and the level can be read back from
      the colour. */
  lemma PalettesDistinguish(v1: bool, r1: RiskLevel, v2: bool, r2: RiskLevel)
    ensures ColorFor(v1, r1) == ColorFor(v2, r2) <==> v1 == v2 && r1 == r2
  {
  }

  /** Pulses per second; riskier levels pulse faster, so the rate is lower. */
  function PulseRate(r: RiskLevel): (rate: real)
    ensures rate == [1.2, 0.9, 0.6, 0.45][Order(r)]
    ensures rate > 0.0
  {
    match r
    case Low => 1.2
    case Medium => 0.9
    case High => 0.6
    case Extreme => 0.45
  }

  function HaloWidth(r: RiskLevel): (w: real)
    ensures w == 4.0 + 2.0 * Order(r) as real
  {
    match r
    case Low => 4.0
    case Medium => 6.0
    case High => 8.0
    case Extreme => 10.0
  }

  function DotSize(r: RiskLevel): (s: real)
    ensures s == 8.0 + 2.0 * Order(r) as real
  {
    match r
    case Low => 8.0
    case Medium => 10.0
    case High => 12.0
    case Extreme => 14.0
  }

  /** Seconds per pulse. */
  function AnimationDuration(r: RiskLevel): (d: real)
    ensures d > 0.0 && d * PulseRate(r) == 1.0
  {
    1.0 / PulseRate(r)
  }

  /** Halo and dot grow, and pulse rate falls, strictly with the risk order, so
      the animation period strictly lengthens. */
  lemma StylingFollowsRiskOrder(a: RiskLevel, b: RiskLevel)
    requires Order(a) < Order(b)
    ensures HaloWidth(a) < HaloWidth(b)
    ensures DotSize(a) < DotSize(b)
    ensures PulseRate(a) > PulseRate(b)
    ensures AnimationDuration(a) < AnimationDuration(b)
  {
    var pa, pb := PulseRate(a), PulseRate(b);
    assert pa > pb;
    assert 1.0 / pa < 1.0 / pb by {
      assert 1.0 / pa * pb < 1.0 / pa * pa;
    }
  }

  /** `part` occurs in `whole` starting at position `i`. */
  predicate OccursAt(part: string, whole: string, i: int) {
    0 <= i <= |whole| - |part| && whole[i..i + |part|] == part
  }

  predicate Contains(whole: string, part: string) {
    exists i :: 0 <= i <= |whole| && OccursAt(part, whole, i)
  }

  /** `accessibilityLabel(for:)`: name, class and risk, in that order, and the
      text contains each of them. */
  function AccessibilityLabel(a: AssetSignal): (text: string)
    ensures OccursAt(a.name, text, 0)
    ensures OccursAt(", ", text, |a.name|)
    ensures OccursAt(AssetClasses.DisplayName(a.assetType), text, |a.name| + 2)
    ensures OccursAt(", risk ", text, |a.name| + 2 + |AssetClasses.DisplayName(a.assetType)|)
    ensures |text| == |a.name| + 2 + |AssetClasses.DisplayName(a.assetType)| + 7
                      + |RiskLevels.DisplayName(a.risk)|
    ensures OccursAt(RiskLevels.DisplayName(a.risk), text, |text| - |RiskLevels.DisplayName(a.risk)|)
    ensures Contains(text, a.name)
    ensures Contains(text, AssetClasses.DisplayName(a.assetType))
    ensures Contains(text, RiskLevels.DisplayName(a.risk))
  {
    var className := AssetClasses.DisplayName(a.assetType);
    var riskName := RiskLevels.DisplayName(a.risk);
    var text := a.name + ", " + className + ", risk " + riskName;
    assert OccursAt(a.name, text, 0);
    assert OccursAt(", ", text, |a.name|);
    assert OccursAt(", risk ", text, |a.name| + 2 + |className|);
    assert OccursAt(className, text, |a.name| + 2);
    assert OccursAt(riskName, text, |text| - |riskName|);
    text
  }

  /** Two signals with the same name and class get the same text exactly when
      their risk levels agree: the text always tells the risk apart. */
  lemma LabelDistinguishesRisk(a: AssetSignal, b: AssetSignal)
    requires a.name == b.name && a.assetType == b.assetType
    ensures AccessibilityLabel(a) == AccessibilityLabel(b) <==> a.risk == b.risk
  {
    var la, lb := AccessibilityLabel(a), AccessibilityLabel(b);
    var prefix := a.name + ", " + AssetClasses.DisplayName(a.assetType) + ", risk ";
    assert la == prefix + RiskLevels.DisplayName(a.risk);
    assert lb == prefix + RiskLevels.DisplayName(b.risk);
    if la == lb {
      assert la[|prefix|..] == RiskLevels.DisplayName(a.risk);
      assert lb[|prefix|..] == RiskLevels.DisplayName(b.risk);
      DisplayNameInjective(a.risk, b.risk);
    }
  }

  /** The text of a high-risk crypto signal named "Test Asset" mentions all three. */
  lemma LabelSample(a: AssetSignal)
    requires a.name == "Test Asset" && a.assetType == Crypto && a.risk == High
    ensures Contains(AccessibilityLabel(a), "Test Asset")
    ensures Contains(AccessibilityLabel(a), "Cryptocurrency")
    ensures Contains(AccessibilityLabel(a), "High")
  {
  }

  /** `accessibilityHint()`: the same instruction for every signal. */
  function AccessibilityHint(): (hint: string)
    ensures "Double-tap" <= hint
  {
    "Double-tap for details"
  }

  /** The hint is exactly the instruction the styling tests expect. */
  lemma HintSample()
    ensures AccessibilityHint() == "Double-tap for details"
  {
  }
}
