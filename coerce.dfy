/**
 * JavaScript's `a || b` defaulting, as the prediction page uses it on strings and numbers.
 * `||` yields its left operand when that operand is truthy and its right operand otherwise;
 * the falsy strings are `undefined` and `""`, the falsy numbers `undefined`, NaN, 0 and -0.
 */
module Coerce {
  import opened Wrappers

  /** `s || fallback` for a string that may be undefined (None). */
  function OrText(s: Option<string>, fallback: string): (r: string)
    ensures s.Some? && s.value != "" ==> r == s.value
    ensures s == None || s == Some("") ==> r == fallback
    ensures fallback != "" ==> r != ""
  {
    if s.Some? && s.value != "" then s.value else fallback
  }

  /**
   * `n || 0` for a number that may be undefined or NaN (both None). Reals have no
   * negative zero, so -0 and 0 are the same value here.
   */
  function OrZero(n: Option<real>): (r: real)
    ensures n.Some? && n.value != 0.0 ==> r == n.value
    ensures n.None? ==> r == 0.0
    ensures r == 0.0 || n == Some(r)
  {
    if n.Some? && n.value != 0.0 then n.value else 0.0
  }

  /**
   * Because the only falsy real is 0, `n || 0` is the same as "the number if there is one,
   * otherwise 0": a parsed 0 and a failed parse cannot be told apart afterwards.
   */
  lemma OrZeroIsValueOrZero(n: Option<real>)
    ensures OrZero(n) == (match n case Some(x) => x case None => 0.0)
    ensures OrZero(n) == 0.0 <==> n.None? || n == Some(0.0)
  {
  }
}
