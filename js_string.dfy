/**
 * The two pieces of JavaScript's string semantics the core relies on:
 * `String.prototype.substring` with its index clamping and argument swap.
 */
module JsString {

  function Min(a: int, b: int): (m: int) { if a <= b then a else b }

  function Max(a: int, b: int): (m: int) { if a <= b then b else a }

  /** An index argument of `substring` clamped into `[0, n]`. */
  function Clamp(i: int, n: nat): (c: nat)
    ensures c <= n
    ensures 0 <= i <= n ==> c == i
    ensures i < 0 ==> c == 0
    ensures n < i ==> c == n
  {
    if i < 0 then 0 else if i > n then n else i
  }

  /**
   * `s.substring(start, end)`: both indices are clamped into `[0, |s|]`
   * and, when the first exceeds the second, the two are swapped.
   */
  function Substring(s: string, start: int, end: int): (r: string)
    ensures 0 <= start <= end <= |s| ==> r == s[start..end]
    ensures |r| <= |s|
    ensures 0 <= end <= start <= |s| ==> r == s[end..start]
    ensures start < 0 && 0 <= end <= |s| ==> r == s[..end]
    ensures 0 <= start <= |s| && |s| < end ==> r == s[start..]
  {
    var a, b := Clamp(start, |s|), Clamp(end, |s|);
    if a <= b then s[a..b] else s[b..a]
  }

  /** `s.substring(start)`: the end defaults to the length of the string. */
  function SubstringFrom(s: string, start: int): (r: string)
    ensures r == s[Clamp(start, |s|)..]
  {
    Substring(s, start, |s|)
  }

  /** Out-of-range indices behave exactly as their clamped values. */
  lemma SubstringClamped(s: string, start: int, end: int)
    ensures Substring(s, start, end) == Substring(s, Clamp(start, |s|), Clamp(end, |s|))
  {
  }

  /** The first `k` characters, or the whole string when it is shorter. */
  lemma SubstringHead(s: string, k: nat)
    ensures Substring(s, 0, k) == s[..Min(k, |s|)]
  {
  }

  /** The last `k` characters, or the whole string when it is shorter. */
  lemma SubstringTail(s: string, k: nat)
    ensures SubstringFrom(s, |s| - k) == s[|s| - Min(k, |s|)..]
  {
  }
}
