/**
 The few JavaScript value semantics the webhook handler relies on: optional
 fields, truthiness, the `a || b || fallback` chain, and the number values
 that amounts become after division by 100.
 */
module Js {

  /**
   A JSON field that may be absent, `undefined` or `null` (all `None`). The
   handler reads strings and objects only through truthiness and `?.`, which
   treat `null` and `undefined` alike; number fields, where they differ under
   division, are `NumberField`s instead.
   */
  datatype Option<+T> = None | Some(value: T)

  /** A numeric JSON field in minor units: absent (or `undefined`), `null`, or a number. */
  datatype NumberField = Absent | Null | Num(n: int)

  /** Truthiness of an optional string: absent, null and "" are falsy. */
  predicate Truthy(s: Option<string>)
  {
    s.Some? && s.value != ""
  }

  /** Truthiness of a numeric field: absent, null and 0 are falsy. */
  predicate TruthyNumber(x: NumberField)
  {
    x.Num? && x.n != 0
  }

  /**
   The value of `cands[0] || cands[1] || ... || fallback`: the first truthy
   candidate, or the fallback when none is truthy.
   */
  function FirstTruthy(cands: seq<Option<string>>, fallback: string): (r: string)
    ensures (forall i | 0 <= i < |cands| :: !Truthy(cands[i])) ==> r == fallback
    ensures forall i | 0 <= i < |cands| && Truthy(cands[i]) ::
              (forall j | 0 <= j < i :: !Truthy(cands[j])) ==> r == cands[i].value
    ensures fallback != "" ==> r != ""
    decreases |cands|
  {
    if |cands| == 0 then fallback
    else if Truthy(cands[0]) then cands[0].value
    else
      var r := FirstTruthy(cands[1..], fallback);
      assert forall i | 1 <= i < |cands| :: cands[1..][i - 1] == cands[i];
      r
  }

  /**
   A JavaScript number as the handler sees an amount: `undefined`, `NaN`
   (what `undefined / 100` gives), or the value `cents / 100`, kept here as
   the integer number of minor currency units so that no floating point is
   involved.
   */
  datatype Amount = Undefined | NaN | Major(cents: int)

  /**
   `x / 100` for a numeric field: `undefined / 100` is NaN, while `null`
   converts to 0, so `null / 100` is 0.
   */
  function Hundredths(x: NumberField): (r: Amount)
    ensures r != Undefined
    ensures r == NaN <==> x.Absent?
    ensures x.Null? ==> r == Major(0)
    ensures x.Num? ==> r == Major(x.n)
  {
    match x
    case Absent => NaN
    case Null => Major(0)
    case Num(c) => Major(c)
  }

  /**
   `amount || 0`, in minor units: undefined, NaN and zero are falsy and
   give 0; any other amount is kept.
   */
  function AmountOrZero(a: Amount): (c: int)
    ensures c != 0 <==> a.Major? && a.cents != 0
    ensures c != 0 ==> c == a.cents
  {
    if a.Major? && a.cents != 0 then a.cents else 0
  }
}
