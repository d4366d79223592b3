/** The five asset classes a signal or flow belongs to. */
module AssetClasses {
  import opened Wrappers

  datatype AssetClass = Currency | Crypto | Bond | Commodity | Stablecoin

  /** Swift's `AssetClass.allCases`, in declaration order. */
  const AllCases: seq<AssetClass> := [Currency, Crypto, Bond, Commodity, Stablecoin]

  /** `allCases` lists every class exactly once. */
  lemma AllCasesComplete()
    ensures |AllCases| == 5
    ensures forall c: AssetClass :: c in AllCases
    ensures forall i, j :: 0 <= i < j < |AllCases| ==> AllCases[i] != AllCases[j]
    ensures |set c | c in AllCases| == 5
  {
    forall c: AssetClass
      ensures c in AllCases
    {
      match c
      case Currency => assert AllCases[0] == c;
      case Crypto => assert AllCases[1] == c;
      case Bond => assert AllCases[2] == c;
      case Commodity => assert AllCases[3] == c;
      case Stablecoin => assert AllCases[4] == c;
    }
    var s := set c | c in AllCases;
    assert s == {Currency, Crypto, Bond, Commodity, Stablecoin};
  }

  function RawValue(c: AssetClass): string {
    match c
    case Currency => "currency"
    case Crypto => "crypto"
    case Bond => "bond"
    case Commodity => "commodity"
    case Stablecoin => "stablecoin"
  }

  /** Decoding a raw value; anything but the five raw strings is rejected. */
  function FromRawValue(s: string): (r: Option<AssetClass>)
    ensures r.Some? ==> RawValue(r.value) == s
    ensures r.None? ==> forall c: AssetClass :: RawValue(c) != s
  {
    if s == "currency" then Some(Currency)
    else if s == "crypto" then Some(Crypto)
    else if s == "bond" then Some(Bond)
    else if s == "commodity" then Some(Commodity)
    else if s == "stablecoin" then Some(Stablecoin)
    else None
  }

  /** Raw values are pairwise distinct, so decoding a raw value returns its class. */
  lemma RawValueRoundTrip(c: AssetClass)
    ensures FromRawValue(RawValue(c)) == Some(c)
  {
  }

  function DisplayName(c: AssetClass): string {
    match c
    case Currency => "Currency"
    case Crypto => "Cryptocurrency"
    case Bond => "Bond"
    case Commodity => "Commodity"
    case Stablecoin => "Stablecoin"
  }

  /** Display names tell the classes apart; crypto reads as "Cryptocurrency". */
  lemma DisplayNameFacts(a: AssetClass, b: AssetClass)
    ensures DisplayName(Crypto) == "Cryptocurrency"
    ensures DisplayName(a) == DisplayName(b) <==> a == b
  {
  }

  /** SF Symbols name shown next to the class. */
  function Icon(c: AssetClass): string {
    match c
    case Currency => "dollarsign.circle"
    case Crypto => "bitcoinsign.circle"
    case Bond => "chart.line.uptrend.xyaxis"
    case Commodity => "leaf"
    case Stablecoin => "shield"
  }

  lemma IconInjective(a: AssetClass, b: AssetClass)
    ensures Icon(a) == Icon(b) <==> a == b
  {
  }
}
