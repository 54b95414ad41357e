/** The few pieces of JavaScript's standard library that the scoring code
    leans on, stated exactly: `Math.round` applied to a quotient,
    `String.prototype.trim` (as "is the string blank?") and
    `String.prototype.includes`. */
module Js {

  /** `Math.round(n / d)` for a positive divisor, computed on the exact
      rational: the nearest integer, halves rounded towards +infinity
      (so `Math.round(-2.5) == -2` and `Math.round(2.5) == 3`). */
  function Round(n: int, d: int): (r: int)
    requires d > 0
    ensures 2 * d * r - d <= 2 * n < 2 * d * r + d
  {
    (2 * n + d) / (2 * d)
  }

  /** Rounding a quotient that lies in [lo, hi] gives a value in [lo, hi]. */
  lemma {:induction false} RoundWithin(n: int, d: int, lo: int, hi: int)
    requires d > 0
    requires lo * d <= n <= hi * d
    ensures lo <= Round(n, d) <= hi
  {
    var r := Round(n, d);
    if r < lo {
      assert r + 1 <= lo;
      assert 2 * d * (r + 1) <= 2 * d * lo by {
        MulLeMono(2 * d, r + 1, lo);
      }
      assert false;
    }
    if r > hi {
      assert hi + 1 <= r;
      assert 2 * d * (hi + 1) <= 2 * d * r by {
        MulLeMono(2 * d, hi + 1, r);
      }
      assert false;
    }
  }

  /** Rounding an exact integer quotient returns that integer. */
  lemma {:induction false} RoundExact(q: int, d: int)
    requires d > 0
    ensures Round(q * d, d) == q
  {
    var r := Round(q * d, d);
    if r < q {
      MulLeMono(2 * d, r + 1, q);
      assert false;
    }
    if r > q {
      MulLeMono(2 * d, q + 1, r);
      assert false;
    }
  }

  lemma {:induction false} MulLeMono(k: int, a: int, b: int)
    requires k >= 0 && a <= b
    ensures k * a <= k * b
  {
    assert k * b - k * a == k * (b - a);
  }

  /** The characters `String.prototype.trim` removes: the ECMAScript
      WhiteSpace (TAB, VT, FF, SP, NBSP, ZWNBSP and every space separator)
      and LineTerminator (LF, CR, LS, PS) code points. */
  predicate IsWhiteSpace(c: char)
  {
    c == '\U{9}' || c == '\U{B}' || c == '\U{C}' || c == '\U{20}' ||
    c == '\U{A0}' || c == '\U{FEFF}' || c == '\U{1680}' ||
    ('\U{2000}' <= c <= '\U{200A}') || c == '\U{202F}' || c == '\U{205F}' || c == '\U{3000}' ||
    c == '\U{A}' || c == '\U{D}' || c == '\U{2028}' || c == '\U{2029}'
  }

  /** `s.trim() === ''`: every character of `s` is trimmed away. */
  predicate IsBlank(s: string)
  {
    forall i :: 0 <= i < |s| ==> IsWhiteSpace(s[i])
  }

  /** Every character of `s` at an index in [lo, hi) is white space. */
  predicate BlankBetween(s: string, lo: int, hi: int)
  {
    forall i :: lo <= i < hi && 0 <= i < |s| ==> IsWhiteSpace(s[i])
  }

  /** The first index from `i` on that holds no white space, or `|s|`. */
  function SkipLeading(s: string, i: nat): (k: nat)
    requires i <= |s|
    decreases |s| - i
    ensures i <= k <= |s| && BlankBetween(s, i, k)
    ensures k == |s| || !IsWhiteSpace(s[k])
  {
    if i == |s| || !IsWhiteSpace(s[i]) then i else SkipLeading(s, i + 1)
  }

  /** The least index in [lo, j] from which on `s` holds only white space
      up to `j`. */
  function SkipTrailing(s: string, lo: nat, j: nat): (k: nat)
    requires lo <= j <= |s|
    decreases j - lo
    ensures lo <= k <= j && BlankBetween(s, k, j)
    ensures k == lo || !IsWhiteSpace(s[k - 1])
  {
    if j == lo || !IsWhiteSpace(s[j - 1]) then j else SkipTrailing(s, lo, j - 1)
  }

  /** `String.prototype.trim`: the part of `s` that starts at its first
      non-white character and ends at its last one. */
  function Trim(s: string): (t: string)
    ensures var a := SkipLeading(s, 0);
      a + |t| <= |s| && t == s[a..a + |t|] && BlankBetween(s, a + |t|, |s|) &&
      (t != "" ==> !IsWhiteSpace(t[|t| - 1]))
  {
    var a := SkipLeading(s, 0);
    var b := SkipTrailing(s, a, |s|);
    s[a..b]
  }

  /** `s.trim() === ''` holds exactly when every character of `s` is white
      space. */
  lemma {:induction false} BlankIffTrimEmpty(s: string)
    ensures IsBlank(s) <==> Trim(s) == ""
  {
    var a, t := SkipLeading(s, 0), Trim(s);
    if t == "" {
      assert a == |s|;
      assert BlankBetween(s, 0, a);
    } else {
      assert t[0] == s[a];
    }
  }

  /** `sub` occurs in `s` starting at index `i`. */
  predicate OccursAt(s: string, sub: string, i: int)
  {
    0 <= i && i + |sub| <= |s| && s[i..i + |sub|] == sub
  }

  /** `s.includes(sub)`. */
  predicate Contains(s: string, sub: string)
  {
    exists i :: 0 <= i <= |s| && OccursAt(s, sub, i)
  }

  /** The search of `String.prototype.indexOf`, from index `from` on. */
  function IndexFrom(s: string, sub: string, from: nat): (r: int)
    decreases |s| + 1 - from
    ensures r == -1 ==> forall j :: from <= j <= |s| ==> !OccursAt(s, sub, j)
    ensures r != -1 ==> from <= r && OccursAt(s, sub, r) && forall j :: from <= j < r ==> !OccursAt(s, sub, j)
  {
    if from > |s| then -1
    else if OccursAt(s, sub, from) then from
    else IndexFrom(s, sub, from + 1)
  }

  /** `s.indexOf(sub)`; ECMAScript defines `s.includes(sub)` as this being
      other than -1. */
  function IndexOf(s: string, sub: string): (r: int)
    ensures r == -1 <==> !Contains(s, sub)
    ensures r != -1 ==> OccursAt(s, sub, r) && forall j :: 0 <= j < r ==> !OccursAt(s, sub, j)
  {
    IndexFrom(s, sub, 0)
  }
}
