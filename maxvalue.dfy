/** `getMaxValue`: the top of the gradient's number range. */
module MaxValue {

  /** The running maximum after scanning `arr` from the left, starting from 0. */
  function MaxOf(arr: seq<real>): real
    decreases |arr|
  {
    if arr == [] then 0.0
    else
      var m := MaxOf(arr[..|arr| - 1]);
      if m <= arr[|arr| - 1] then arr[|arr| - 1] else m
  }

  /** The scan's result is at least 0, bounds every element, and is 0 or one of the elements. */
  lemma {:induction false} MaxOfBounds(arr: seq<real>)
    ensures MaxOf(arr) >= 0.0
    ensures forall i :: 0 <= i < |arr| ==> arr[i] <= MaxOf(arr)
    ensures MaxOf(arr) == 0.0 || MaxOf(arr) in arr
    decreases |arr|
  {
    if arr != [] {
      var front := arr[..|arr| - 1];
      MaxOfBounds(front);
      assert forall i :: 0 <= i < |front| ==> arr[i] == front[i];
      assert MaxOf(front) in front ==> MaxOf(front) in arr;
    }
  }

  /** An empty dataset, or one with nothing above 0, gives the degenerate range top 0. */
  lemma MaxOfNonPositive(arr: seq<real>)
    requires forall i :: 0 <= i < |arr| ==> arr[i] <= 0.0
    ensures MaxOf(arr) == 0.0
  {
  }

  /** `getMaxValue`: a left-to-right scan that takes every element at least the running value. */
  method GetMaxValue(arr: seq<real>) returns (maxValue: real)
    ensures maxValue == MaxOf(arr)
    ensures maxValue >= 0.0
    ensures forall i :: 0 <= i < |arr| ==> arr[i] <= maxValue
    ensures maxValue == 0.0 || maxValue in arr
  {
    maxValue := 0.0;
    var i := 0;
    while i < |arr|
      invariant 0 <= i <= |arr|
      invariant maxValue == MaxOf(arr[..i])
    {
      assert arr[..i + 1][..i] == arr[..i];
      if maxValue <= arr[i] {
        maxValue := arr[i];
      }
      i := i + 1;
    }
    assert arr[..i] == arr;
    MaxOfBounds(arr);
  }
}
