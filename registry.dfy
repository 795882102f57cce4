/**
 * The operator registry: the ten OGC Filter Encoding operators the filter
 * syntax accepts (the comparison operators of clause 7.7 and BBOX of
 * clause 7.8 of OGC Filter Encoding 2.0), with the kinds each parameter
 * position accepts.
 */
module OgcOperators {

  import opened Wrappers
  import opened PyValues

  /** One registry key each; the name of each is given by `Name`. */
  datatype Operator =
    | PropertyIsLike
    | PropertyIsNull
    | PropertyIsBetween
    | PropertyIsGreaterThanOrEqualTo
    | PropertyIsLessThanOrEqualTo
    | PropertyIsGreaterThan
    | PropertyIsLessThan
    | PropertyIsNotEqualTo
    | PropertyIsEqualTo
    | BBox

  /** The registry key of an operator, also the name of the OWSLib class it builds. */
  function Name(op: Operator): string
  {
    match op
    case PropertyIsLike => "PropertyIsLike"
    case PropertyIsNull => "PropertyIsNull"
    case PropertyIsBetween => "PropertyIsBetween"
    case PropertyIsGreaterThanOrEqualTo => "PropertyIsGreaterThanOrEqualTo"
    case PropertyIsLessThanOrEqualTo => "PropertyIsLessThanOrEqualTo"
    case PropertyIsGreaterThan => "PropertyIsGreaterThan"
    case PropertyIsLessThan => "PropertyIsLessThan"
    case PropertyIsNotEqualTo => "PropertyIsNotEqualTo"
    case PropertyIsEqualTo => "PropertyIsEqualTo"
    case BBox => "BBox"
  }

  /** `name in ogc_filter_operators`: an exact, case-sensitive key lookup. */
  function Lookup(name: string): (r: Option<Operator>)
    ensures r.Some? ==> Name(r.value) == name
    ensures r.None? ==> forall op :: Name(op) != name
  {
    if name == "PropertyIsLike" then Some(PropertyIsLike)
    else if name == "PropertyIsNull" then Some(PropertyIsNull)
    else if name == "PropertyIsBetween" then Some(PropertyIsBetween)
    else if name == "PropertyIsGreaterThanOrEqualTo" then Some(PropertyIsGreaterThanOrEqualTo)
    else if name == "PropertyIsLessThanOrEqualTo" then Some(PropertyIsLessThanOrEqualTo)
    else if name == "PropertyIsGreaterThan" then Some(PropertyIsGreaterThan)
    else if name == "PropertyIsLessThan" then Some(PropertyIsLessThan)
    else if name == "PropertyIsNotEqualTo" then Some(PropertyIsNotEqualTo)
    else if name == "PropertyIsEqualTo" then Some(PropertyIsEqualTo)
    else if name == "BBox" then Some(BBox)
    else None
  }

  /** Every operator is found under its own name, and under no other. */
  lemma LookupName(op: Operator)
    ensures Lookup(Name(op)) == Some(op)
  {
  }

  /** Text, or a number of either kind: the value positions of the comparisons. */
  const Any: set<Kind> := {Text, Integer, Float}
  /** A number of either kind. */
  const Number: set<Kind> := {Integer, Float}

  /** `ogc_filter_operators[Name(op)]`: the accepted kinds, one set per parameter position. */
  function Params(op: Operator): (sig: seq<set<Kind>>)
    ensures op != BBox ==> 1 <= |sig| <= 3 && sig[0] == {Text}
    ensures op == PropertyIsLike ==> |sig| == 2
    ensures op == PropertyIsNull ==> |sig| == 1
    ensures op == PropertyIsLike ==> forall i :: 0 <= i < |sig| ==> sig[i] == {Text}
    ensures op !in {PropertyIsLike, PropertyIsNull, BBox} ==>
      |sig| >= 2 && forall i :: 1 <= i < |sig| ==> sig[i] == Any
    ensures op == BBox ==> |sig| == 4 && forall i :: 0 <= i < |sig| ==> sig[i] == Number
    ensures |sig| == 3 <==> op == PropertyIsBetween
  {
    match op
    case PropertyIsLike => [{Text}, {Text}]
    case PropertyIsNull => [{Text}]
    case PropertyIsBetween => [{Text}, Any, Any]
    case PropertyIsGreaterThanOrEqualTo => [{Text}, Any]
    case PropertyIsLessThanOrEqualTo => [{Text}, Any]
    case PropertyIsGreaterThan => [{Text}, Any]
    case PropertyIsLessThan => [{Text}, Any]
    case PropertyIsNotEqualTo => [{Text}, Any]
    case PropertyIsEqualTo => [{Text}, Any]
    case BBox => [Number, Number, Number, Number]
  }
}
