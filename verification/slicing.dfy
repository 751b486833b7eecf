/** Basic `start:stop` slicing with step 1, as Python and NumPy define it
    for one axis: a negative bound counts from the end, a bound outside the
    axis is clamped to it, and a slice whose start is not before its stop is
    empty. Slicing never fails, whatever the bounds. */
module Slicing {

  /** Where a slice bound lands on an axis of length `n`. */
  function ResolveBound(i: int, n: nat): (k: nat)
    ensures k <= n
    ensures 0 <= i <= n ==> k == i
    ensures i < 0 <= i + n ==> k == i + n
    ensures i + n < 0 ==> k == 0
    ensures i > n ==> k == n
  {
    if i < 0 then
      if i + n < 0 then 0 else i + n
    else if i > n then n
    else i
  }

  /** `s[start:stop]`. */
  function PySlice<T>(s: seq<T>, start: int, stop: int): (r: seq<T>)
    ensures
      var a, b := ResolveBound(start, |s|), ResolveBound(stop, |s|);
      && |r| == (if a < b then b - a else 0)
      && forall k :: 0 <= k < |r| ==> r[k] == s[a + k]
    // Inside the axis the bounds are taken literally: no wrap, no clamp.
    ensures 0 <= start <= stop <= |s| ==> r == s[start..stop]
    ensures 0 <= stop <= start ==> r == []
  {
    var a := ResolveBound(start, |s|);
    var b := ResolveBound(stop, |s|);
    if a < b then s[a..b] else []
  }
}
