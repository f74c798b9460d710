/** Shared value types: optional and failing results, bytes, GPS samples
    and the integer conversions Python's `int()` performs on floats. */
module Common {

  datatype Option<T> = None | Some(value: T)

  /** A Python call that either returns a value or raises; `Fail` carries the
      exception text. Failure-compatible, so `:-` propagates it. */
  datatype Result<T> = Ok(value: T) | Fail(error: string) {
    predicate IsFailure() { Fail? }

    function PropagateFailure<U>(): Result<U>
      requires Fail?
    {
      Fail(error)
    }

    function Extract(): T
      requires Ok?
    {
      value
    }
  }

  type byte = x: int | 0 <= x < 256

  /** One GPS fix of a telemetry track: seconds from the start of the video,
      degrees of latitude and longitude, metres of altitude. */
  datatype GpsSample = GpsSample(timestamp: real, lat: real, lon: real, alt: real)

  function Abs(x: real): real { if x < 0.0 then -x else x }

  function MaxReal(a: real, b: real): real { if a >= b then a else b }

  /** Python's `int(x)` on a float: truncation toward zero. */
  function Trunc(x: real): (k: int)
    ensures Abs(x - k as real) < 1.0
    ensures x >= 0.0 ==> 0 <= k && k as real <= x
    ensures x < 0.0 ==> k <= 0 && x <= k as real
  {
    if x >= 0.0 then x.Floor else -((-x).Floor)
  }

  /** A sequence of reals in non-decreasing order. */
  predicate Sorted(a: seq<real>)
  {
    forall i, j :: 0 <= i < j < |a| ==> a[i] <= a[j]
  }
}
