/** JavaScript values as far as the heatmap needs them. */
module JsValues {

  /** A property or argument that may be `undefined`. */
  datatype Option<+T> = None | Some(value: T)

  /** What reading `arr[k]` of a numeric array yields: a number, or `undefined` out of range. */
  datatype Datum = Num(x: real) | Undefined

  /** `arr[k]` in JavaScript: an in-range read gives the element, any other gives `undefined`. */
  function Read(arr: seq<real>, k: int): Datum
  {
    if 0 <= k < |arr| then Num(arr[k]) else Undefined
  }

  /** `v || 0` for an optional number: a truthy value survives, `undefined` and `0` become `0`. */
  function OrZero(v: Option<real>): real
  {
    if v.Some? && v.value != 0.0 then v.value else 0.0
  }

  /** Applying `|| 0` to its own result changes nothing. */
  lemma OrZeroIdempotent(v: Option<real>)
    ensures OrZero(Some(OrZero(v))) == OrZero(v)
  {
  }
}
