/**
  `SymptomSeverity`: an Int-backed enum (mild = 1, moderate = 2, severe = 3) whose cases carry a
  display name, a recommended session length in seconds and a colour.
*/
module Severity {

  import opened Wrappers
  import opened Palette

  datatype SymptomSeverity = Mild | Moderate | Severe

  /** `rawValue` of the Int-backed enum. */
  function RawValue(s: SymptomSeverity): (n: int)
    ensures 1 <= n <= 3
  {
    match s
    case Mild => 1
    case Moderate => 2
    case Severe => 3
  }

  /** `id` (for `Identifiable`), which is the raw value: it identifies its case. */
  function Id(s: SymptomSeverity): (id: int)
    ensures FromRaw(id) == Some(s)
  {
    RawValue(s)
  }

  /** `SymptomSeverity(rawValue:)`, the failable initialiser Swift derives for an Int-backed enum. */
  function FromRaw(n: int): (r: Option<SymptomSeverity>)
    ensures r.Some? <==> 1 <= n <= 3
    ensures r.Some? ==> RawValue(r.value) == n
  {
    if n == 1 then Some(Mild)
    else if n == 2 then Some(Moderate)
    else if n == 3 then Some(Severe)
    else None
  }

  /** `allCases`, in declaration order. */
  function AllCases(): (cases: seq<SymptomSeverity>)
    ensures |cases| == 3
    ensures forall i :: 0 <= i < |cases| ==> RawValue(cases[i]) == i + 1
  {
    [Mild, Moderate, Severe]
  }

  function Description(s: SymptomSeverity): string
  {
    match s
    case Mild => "Mild"
    case Moderate => "Moderate"
    case Severe => "Severe"
  }

  /** `recommendedDuration` in seconds: 3, 5 or 7 whole minutes. */
  function RecommendedDuration(s: SymptomSeverity): (seconds: int)
    ensures seconds == 60 * (2 * RawValue(s) + 1)
  {
    match s
    case Mild => 180
    case Moderate => 300
    case Severe => 420
  }

  function Color(s: SymptomSeverity): Tint
  {
    match s
    case Mild => Blue
    case Moderate => Orange
    case Severe => Red
  }

  lemma RawValueRoundTrip(s: SymptomSeverity)
    ensures FromRaw(RawValue(s)) == Some(s)
    ensures Id(s) == RawValue(s)
  {
  }

  lemma RawValueIsInjective(s: SymptomSeverity, t: SymptomSeverity)
    requires RawValue(s) == RawValue(t)
    ensures s == t
  {
    RawValueRoundTrip(s);
    RawValueRoundTrip(t);
  }

  lemma EveryCaseListedOnce(s: SymptomSeverity)
    ensures s in AllCases()
    ensures forall i, j :: 0 <= i < j < |AllCases()| ==> AllCases()[i] != AllCases()[j]
  {
    assert AllCases()[RawValue(s) - 1] == s by {
      RawValueIsInjective(AllCases()[RawValue(s) - 1], s);
    }
  }

  lemma RecommendedDurationIncreasing(s: SymptomSeverity, t: SymptomSeverity)
    requires RawValue(s) < RawValue(t)
    ensures RecommendedDuration(s) < RecommendedDuration(t)
    ensures RecommendedDuration(s) % 60 == 0 && RecommendedDuration(t) % 60 == 0
  {
  }

  lemma NamesAndColorsDistinct(s: SymptomSeverity, t: SymptomSeverity)
    requires s != t
    ensures Description(s) != Description(t)
    ensures Color(s) != Color(t)
  {
  }
}
