/**
 * The JavaScript string operations the web client relies on: the `\s`
 * character class, `String.prototype.trim`, and trimming a leading run of
 * a character class. Strings are sequences of code points; the UTF-16
 * code-unit view of `length` and `selectionStart` is not modelled.
 */
module JsStrings {

  /** The regular-expression class `\s`: WhiteSpace and LineTerminator code points. */
  predicate IsJsSpace(c: char) {
    c == ' ' || c == '\t' || c == '\n' || c == '\r' || c == '\U{000B}' || c == '\U{000C}'
    || c == '\U{00A0}' || c == '\U{1680}' || ('\U{2000}' <= c <= '\U{200A}')
    || c == '\U{2028}' || c == '\U{2029}' || c == '\U{202F}' || c == '\U{205F}'
    || c == '\U{3000}' || c == '\U{FEFF}'
  }

  /** The code points the regular-expression `.` does not match. */
  predicate IsLineTerminator(c: char) {
    c == '\n' || c == '\r' || c == '\U{2028}' || c == '\U{2029}'
  }

  /** Removes the leading run of characters satisfying `p`. */
  function TrimStartBy(s: string, p: char -> bool): (r: string)
    ensures |r| <= |s| && r == s[|s| - |r|..]
    ensures forall i :: 0 <= i < |s| - |r| ==> p(s[i])
    ensures r == "" || !p(r[0])
  {
    if |s| > 0 && p(s[0]) then TrimStartBy(s[1..], p) else s
  }

  /** Removes the trailing run of characters satisfying `p`. */
  function TrimEndBy(s: string, p: char -> bool): (r: string)
    ensures |r| <= |s| && r == s[..|r|]
    ensures forall i :: |r| <= i < |s| ==> p(s[i])
    ensures r == "" || !p(r[|r| - 1])
  {
    if |s| > 0 && p(s[|s| - 1]) then TrimEndBy(s[..|s| - 1], p) else s
  }

  /** String.prototype.trim */
  function Trim(s: string): (r: string)
    ensures r == "" || (!IsJsSpace(r[0]) && !IsJsSpace(r[|r| - 1]))
    ensures r == "" <==> forall i :: 0 <= i < |s| ==> IsJsSpace(s[i])
  {
    var l := TrimStartBy(s, IsJsSpace);
    var r := TrimEndBy(l, IsJsSpace);
    assert r != "" ==> r[0] == l[0];
    assert r != "" ==> !IsJsSpace(s[|s| - |l|]) by {
      if r != "" { assert s[|s| - |l|] == l[0]; }
    }
    r
  }

  /**
   * Trimming the front of a concatenation: once the first part has a
   * character that stops the run, the second part is kept verbatim;
   * otherwise the run continues into the second part.
   */
  lemma {:induction false} TrimStartAppend(a: string, b: string, p: char -> bool)
    ensures TrimStartBy(a, p) != "" ==> TrimStartBy(a + b, p) == TrimStartBy(a, p) + b
    ensures TrimStartBy(a, p) == "" ==> TrimStartBy(a + b, p) == TrimStartBy(b, p)
    decreases |a|
  {
    if |a| > 0 {
      assert (a + b)[0] == a[0];
      if p(a[0]) {
        assert (a + b)[1..] == a[1..] + b;
        TrimStartAppend(a[1..], b, p);
      }
    } else {
      assert a + b == b;
    }
  }

  /** The complement of `\s`, the class `[^\s]`. */
  predicate NotJsSpace(c: char) {
    !IsJsSpace(c)
  }

  /** The end of the run of characters satisfying `p` that starts at i. */
  function RunEnd(s: string, i: nat, p: char -> bool): (j: nat)
    requires i <= |s|
    ensures i <= j <= |s|
    ensures forall k :: i <= k < j ==> p(s[k])
    ensures j == |s| || !p(s[j])
    decreases |s| - i
  {
    if i < |s| && p(s[i]) then RunEnd(s, i + 1, p) else i
  }

  /** A run is determined by where it starts: any maximal run from i ends at RunEnd. */
  lemma {:induction false} RunEndUnique(s: string, i: nat, j: nat, p: char -> bool)
    requires i <= j <= |s|
    requires forall k :: i <= k < j ==> p(s[k])
    requires j == |s| || !p(s[j])
    ensures RunEnd(s, i, p) == j
    decreases j - i
  {
    if i < j {
      RunEndUnique(s, i + 1, j, p);
    }
  }

  /** The start of the run of characters satisfying `p` that ends at j. */
  function RunStart(s: string, j: nat, p: char -> bool): (i: nat)
    requires j <= |s|
    ensures i <= j
    ensures forall k :: i <= k < j ==> p(s[k])
    ensures i == 0 || !p(s[i - 1])
  {
    if j > 0 && p(s[j - 1]) then RunStart(s, j - 1, p) else j
  }

  /** A run is determined by where it ends: any maximal run ending at j starts at RunStart. */
  lemma {:induction false} RunStartUnique(s: string, i: nat, j: nat, p: char -> bool)
    requires i <= j <= |s|
    requires forall k :: i <= k < j ==> p(s[k])
    requires i == 0 || !p(s[i - 1])
    ensures RunStart(s, j, p) == i
    decreases j - i
  {
    if i < j {
      RunStartUnique(s, i, j - 1, p);
    }
  }

  /** The JavaScript `%` on integers: the remainder takes the sign of the dividend. */
  function JsRem(a: int, n: int): (r: int)
    requires n > 0
    ensures a >= 0 ==> 0 <= r < n
    ensures a < 0 ==> -n < r <= 0
  {
    if a >= 0 then a % n else -((-a) % n)
  }

  lemma ModSmall(a: int, n: int)
    requires 0 <= a < n
    ensures a % n == a
  {
  }

  lemma ModShift(a: int, n: int)
    requires n <= a < 2 * n
    ensures a % n == a - n
  {
  }

  /** Moving a selection in 0..n-1 down or up by one, wrapping around. */
  lemma WrapSteps(s: int, n: int)
    requires 0 <= s < n
    ensures JsRem(s + 1, n) == if s + 1 == n then 0 else s + 1
    ensures JsRem(s - 1 + n, n) == if s == 0 then n - 1 else s - 1
  {
    if s + 1 < n { ModSmall(s + 1, n); } else { ModShift(s + 1, n); }
    if s == 0 { ModSmall(n - 1, n); } else { ModShift(s - 1 + n, n); }
  }
}
