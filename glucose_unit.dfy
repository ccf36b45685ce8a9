/**
 * The two units a blood-glucose level is expressed in, and the conversion
 * between them (GlucoseMocker/Utils/GlucoseUnit.swift).
 *
 * Levels are modelled as exact reals: the app's Double rounding is not part
 * of the model, which is what makes the round trip below exact.
 */
module GlucoseUnits {
  import opened Wrappers

  /** mg/dL per mmol/L, the single constant the app uses everywhere. */
  const ConversionFactor: real := 18.0182

  /** `enum GlucoseUnit: String, CaseIterable, Identifiable`. */
  datatype GlucoseUnit = MmolL | MgdL {

    /** The raw string of each case, also its display label. */
    function RawValue(): (s: string)
      ensures this == MmolL ==> s == "mmol/L"
      ensures this == MgdL ==> s == "mg/dL"
    {
      match this
      case MmolL => "mmol/L"
      case MgdL => "mg/dL"
    }

    /** `Identifiable.id`: the raw value, hence unique per case. */
    function Id(): (s: string)
      ensures forall u: GlucoseUnit :: u.RawValue() == s <==> u == this
    {
      RawValue()
    }

    /**
     * `convert(value:to:)`: the value itself when the unit does not change,
     * otherwise the same concentration expressed in `to`.
     */
    function Convert(value: real, to: GlucoseUnit): (r: real)
      ensures this == to ==> r == value
      ensures this == MmolL && to == MgdL ==> r == value * ConversionFactor
      ensures this == MgdL && to == MmolL ==> r * ConversionFactor == value
    {
      if this == to then value
      else if this == MmolL then value * ConversionFactor
      else value / ConversionFactor
    }
  }

  /** `GlucoseUnit.allCases`, in declaration order. */
  function AllCases(): (cases: seq<GlucoseUnit>)
    ensures |cases| == 2 && cases[0] != cases[1]
  {
    [MmolL, MgdL]
  }

  /** Every unit is listed by `AllCases`. */
  lemma AllCasesComplete(u: GlucoseUnit)
    ensures u in AllCases()
  {
    match u
    case MmolL => assert AllCases()[0] == u;
    case MgdL => assert AllCases()[1] == u;
  }

  /** The synthesized `init?(rawValue:)` of a String-backed enum. */
  function FromRawValue(s: string): (u: Option<GlucoseUnit>)
    ensures u.Some? ==> u.value.RawValue() == s
  {
    if s == "mmol/L" then Some(MmolL)
    else if s == "mg/dL" then Some(MgdL)
    else None
  }

  /** Raw values and `init?(rawValue:)` are inverse to each other, both ways. */
  lemma RawValueRoundTrip(s: string, u: GlucoseUnit)
    ensures FromRawValue(u.RawValue()) == Some(u)
    ensures FromRawValue(s) == Some(u) <==> u.RawValue() == s
  {
  }

  /** Converting to the unit a value is already in changes nothing. */
  lemma ConvertToSameUnit(u: GlucoseUnit, v: real)
    ensures u.Convert(v, u) == v
  {
  }

  /** Over exact reals, converting there and back returns the original value. */
  lemma ConvertRoundTrip(a: GlucoseUnit, b: GlucoseUnit, v: real)
    ensures b.Convert(a.Convert(v, b), a) == v
  {
  }

  /** Converting in two hops is the same as converting directly. */
  lemma ConvertCompose(a: GlucoseUnit, b: GlucoseUnit, c: GlucoseUnit, v: real)
    ensures b.Convert(a.Convert(v, b), c) == a.Convert(v, c)
  {
  }

  /** The factor is positive, so conversion preserves and reflects order. */
  lemma ConvertMonotone(a: GlucoseUnit, b: GlucoseUnit, x: real, y: real)
    ensures x <= y <==> a.Convert(x, b) <= a.Convert(y, b)
    ensures x < y <==> a.Convert(x, b) < a.Convert(y, b)
  {
  }

  /** A range [lo, hi] maps onto [convert(lo), convert(hi)], in both directions. */
  lemma ConvertRange(a: GlucoseUnit, b: GlucoseUnit, lo: real, v: real, hi: real)
    ensures lo <= v <= hi <==> a.Convert(lo, b) <= a.Convert(v, b) <= a.Convert(hi, b)
  {
    ConvertMonotone(a, b, lo, v);
    ConvertMonotone(a, b, v, hi);
  }
}
