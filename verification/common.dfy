/** Failure-carrying datatypes and a sequence helper shared by the rest of the model. */
module Common {

  /** A value that may be absent: Python's `None` or a missing JSON key. */
  datatype Option<+T> = None | Some(value: T)

  /** A computation that either produced a value or stopped with an error. */
  datatype Result<+T, +E> = Success(value: T) | Failure(error: E)

  /** Python's `s[lo:hi]` for non-negative bounds: out-of-range bounds are clamped. */
  function Slice<T>(s: seq<T>, lo: nat, hi: nat): (r: seq<T>)
    ensures lo <= hi <= |s| ==> r == s[lo..hi]
    ensures |r| <= |s|
  {
    if hi <= |s| then (if lo <= hi then s[lo..hi] else [])
    else if lo <= |s| then s[lo..] else []
  }
}
