/**
 * Go standard-library string operations used throughout the model.
 * Go strings are modelled as sequences of Unicode characters; the
 * byte-level view of Go's `len` is not needed by the callers except where
 * a module says so explicitly.
 */
module GoStrings {

  datatype Option<T> = None | Some(value: T)

  /** unicode.IsSpace: the Latin-1 spaces plus the Unicode White_Space (Z) set. */
  predicate IsSpace(c: char) {
    c == ' ' || c == '\t' || c == '\n' || c == '\r' || c == '\U{000B}' || c == '\U{000C}'
    || c == '\U{0085}' || c == '\U{00A0}' || c == '\U{1680}'
    || ('\U{2000}' <= c <= '\U{200A}')
    || c == '\U{2028}' || c == '\U{2029}' || c == '\U{202F}' || c == '\U{205F}' || c == '\U{3000}'
  }

  function TrimLeftSpace(s: string): (r: string)
    ensures |r| <= |s|
  {
    if |s| > 0 && IsSpace(s[0]) then TrimLeftSpace(s[1..]) else s
  }

  /** TrimLeftSpace removes exactly the leading run of spaces. */
  lemma {:induction false} TrimLeftSpaceSpec(s: string)
    ensures TrimLeftSpace(s) == s[|s| - |TrimLeftSpace(s)|..]
    ensures |TrimLeftSpace(s)| > 0 ==> !IsSpace(TrimLeftSpace(s)[0])
    ensures forall i :: 0 <= i < |s| - |TrimLeftSpace(s)| ==> IsSpace(s[i])
    decreases |s|
  {
    if |s| > 0 && IsSpace(s[0]) {
      TrimLeftSpaceSpec(s[1..]);
    }
  }

  function TrimRightSpace(s: string): (r: string)
    ensures |r| <= |s|
  {
    if |s| > 0 && IsSpace(s[|s| - 1]) then TrimRightSpace(s[..|s| - 1]) else s
  }

  /** TrimRightSpace removes exactly the trailing run of spaces. */
  lemma {:induction false} TrimRightSpaceSpec(s: string)
    ensures TrimRightSpace(s) == s[..|TrimRightSpace(s)|]
    ensures |TrimRightSpace(s)| > 0 ==> !IsSpace(TrimRightSpace(s)[|TrimRightSpace(s)| - 1])
    ensures forall i :: |TrimRightSpace(s)| <= i < |s| ==> IsSpace(s[i])
    decreases |s|
  {
    if |s| > 0 && IsSpace(s[|s| - 1]) {
      TrimRightSpaceSpec(s[..|s| - 1]);
    }
  }

  /** strings.TrimSpace */
  function TrimSpace(s: string): string {
    TrimRightSpace(TrimLeftSpace(s))
  }

  lemma TrimSpaceEmptyIff(s: string)
    ensures TrimSpace(s) == "" <==> forall i :: 0 <= i < |s| ==> IsSpace(s[i])
  {
    var l := TrimLeftSpace(s);
    TrimLeftSpaceSpec(s);
    TrimRightSpaceSpec(l);
    if TrimSpace(s) == "" {
      assert |l| == 0;
    } else {
      var r := TrimSpace(s);
      assert !IsSpace(r[0]) by {
        if |l| > 0 { assert r[0] == l[0]; }
      }
      assert r[0] == s[|s| - |l|];
    }
  }

  /** No space at either end. */
  predicate Trimmed(s: string) {
    |s| == 0 || (!IsSpace(s[0]) && !IsSpace(s[|s| - 1]))
  }

  lemma TrimSpaceTrimmed(s: string)
    ensures Trimmed(TrimSpace(s))
  {
    var l := TrimLeftSpace(s);
    TrimLeftSpaceSpec(s);
    TrimRightSpaceSpec(l);
    var r := TrimSpace(s);
    if |r| > 0 {
      assert r[0] == l[0];
    }
  }

  /** Trimming a trimmed string changes nothing. */
  lemma TrimSpaceOfTrimmed(s: string)
    requires Trimmed(s)
    ensures TrimSpace(s) == s
  {
    assert TrimLeftSpace(s) == s;
  }

  /** strings.TrimRight(s, cutset) */
  function TrimRightSet(s: string, cutset: set<char>): (r: string)
    ensures |r| <= |s| && r == s[..|r|]
    ensures |r| > 0 ==> r[|r| - 1] !in cutset
    ensures forall i :: |r| <= i < |s| ==> s[i] in cutset
  {
    if |s| > 0 && s[|s| - 1] in cutset then TrimRightSet(s[..|s| - 1], cutset) else s
  }

  predicate HasPrefix(s: string, p: string) {
    |p| <= |s| && s[..|p|] == p
  }

  predicate HasSuffix(s: string, p: string) {
    |p| <= |s| && s[|s| - |p|..] == p
  }

  /** strings.TrimPrefix */
  function TrimPrefix(s: string, p: string): (r: string)
    ensures |r| <= |s|
  {
    if HasPrefix(s, p) then s[|p|..] else s
  }

  /** TrimPrefix removes p exactly when s starts with it. */
  lemma {:induction false} TrimPrefixSpec(s: string, p: string)
    ensures HasPrefix(s, p) ==> s == p + TrimPrefix(s, p)
    ensures !HasPrefix(s, p) ==> TrimPrefix(s, p) == s
  {
    if HasPrefix(s, p) {
      assert s == s[..|p|] + s[|p|..];
    }
  }

  /** strings.TrimSuffix */
  function TrimSuffix(s: string, p: string): (r: string)
    ensures HasSuffix(s, p) ==> s == r + p
    ensures !HasSuffix(s, p) ==> r == s
  {
    if HasSuffix(s, p) then s[..|s| - |p|] else s
  }

  /** sub occurs in s at position k. */
  predicate MatchesAt(s: string, sub: string, k: int) {
    0 <= k && k + |sub| <= |s| && s[k..k + |sub|] == sub
  }

  /** Index of the first occurrence of sub in s at or after `from`, or -1. */
  function IndexFrom(s: string, sub: string, from: nat): (r: int)
    requires from <= |s|
    ensures r == -1 || (from <= r && r + |sub| <= |s|)
    decreases |s| - from
  {
    if from + |sub| > |s| then -1
    else if s[from..from + |sub|] == sub then from
    else IndexFrom(s, sub, from + 1)
  }

  /** IndexFrom finds the first match at or after `from`, and -1 means there is none. */
  lemma {:induction false} IndexFromSpec(s: string, sub: string, from: nat)
    requires from <= |s|
    ensures IndexFrom(s, sub, from) >= 0 ==> MatchesAt(s, sub, IndexFrom(s, sub, from))
    ensures IndexFrom(s, sub, from) >= 0 ==> forall k :: from <= k < IndexFrom(s, sub, from) ==> !MatchesAt(s, sub, k)
    ensures IndexFrom(s, sub, from) < 0 ==> forall k :: from <= k ==> !MatchesAt(s, sub, k)
    decreases |s| - from
  {
    if from + |sub| <= |s| && s[from..from + |sub|] != sub {
      IndexFromSpec(s, sub, from + 1);
    }
  }

  /** strings.Index */
  function Index(s: string, sub: string): int {
    IndexFrom(s, sub, 0)
  }

  /** strings.Contains */
  predicate Contains(s: string, sub: string) {
    Index(s, sub) >= 0
  }

  lemma ContainsIff(s: string, sub: string)
    ensures Contains(s, sub) <==> exists k :: MatchesAt(s, sub, k)
  {
    var r := Index(s, sub);
    IndexFromSpec(s, sub, 0);
    if r >= 0 {
      assert MatchesAt(s, sub, r);
    }
  }

  /** Index of the first word in ws that s contains, or -1. */
  function FirstContained(s: string, ws: seq<string>): (r: int)
    ensures -1 <= r < |ws|
    ensures r >= 0 ==> Contains(s, ws[r]) && forall k :: 0 <= k < r ==> !Contains(s, ws[k])
    ensures r < 0 ==> forall k :: 0 <= k < |ws| ==> !Contains(s, ws[k])
    decreases |ws|
  {
    if |ws| == 0 then -1
    else if Contains(s, ws[0]) then 0
    else
      var t := FirstContained(s, ws[1..]);
      if t < 0 then -1 else t + 1
  }

  /** The first contained word is the one at p when p is and no earlier one is. */
  lemma FirstContainedAt(s: string, ws: seq<string>, p: nat)
    requires p < |ws| && Contains(s, ws[p])
    requires forall i :: 0 <= i < p ==> !Contains(s, ws[i])
    ensures FirstContained(s, ws) == p
  {
  }

  lemma ContainsAt(s: string, sub: string, k: nat)
    requires MatchesAt(s, sub, k)
    ensures Contains(s, sub)
  {
    ContainsIff(s, sub);
  }

  /** Index of the first occurrence of the character c, or -1. */
  function IndexChar(s: string, c: char): (r: int)
    ensures -1 <= r < |s|
  {
    if |s| == 0 then -1
    else if s[0] == c then 0
    else var t := IndexChar(s[1..], c); if t < 0 then -1 else t + 1
  }

  lemma {:induction false} IndexCharHit(s: string, c: char)
    ensures IndexChar(s, c) >= 0 ==> s[IndexChar(s, c)] == c
    decreases |s|
  {
    if |s| > 0 && s[0] != c {
      IndexCharHit(s[1..], c);
    }
  }

  /** IndexChar finds the first c, and -1 means there is none. */
  lemma {:induction false} IndexCharSpec(s: string, c: char)
    ensures IndexChar(s, c) >= 0 ==> s[IndexChar(s, c)] == c
    ensures forall k :: 0 <= k < IndexChar(s, c) ==> s[k] != c
    ensures IndexChar(s, c) < 0 <==> c !in s
    decreases |s|
  {
    if |s| > 0 && s[0] != c {
      IndexCharSpec(s[1..], c);
      assert forall k :: 1 <= k < |s| ==> s[k] == s[1..][k - 1];
    }
  }

  /** strings.LastIndex for a single character ('.' or '|'), -1 when absent. */
  function LastIndexChar(s: string, c: char): (r: int)
    ensures -1 <= r < |s|
  {
    if |s| == 0 then -1
    else if s[|s| - 1] == c then |s| - 1
    else LastIndexChar(s[..|s| - 1], c)
  }

  /** LastIndexChar finds the last c, and -1 means there is none. */
  lemma {:induction false} LastIndexCharSpec(s: string, c: char)
    ensures LastIndexChar(s, c) >= 0 ==> s[LastIndexChar(s, c)] == c
    ensures forall k :: LastIndexChar(s, c) < k < |s| ==> s[k] != c
    ensures LastIndexChar(s, c) < 0 <==> c !in s
    decreases |s|
  {
    if |s| > 0 && s[|s| - 1] != c {
      LastIndexCharSpec(s[..|s| - 1], c);
      assert forall k :: 0 <= k < |s| - 1 ==> s[k] == s[..|s| - 1][k];
    }
  }

  /** strings.Split with a one-character separator. */
  function Split(s: string, c: char): (r: seq<string>)
    ensures |r| >= 1
    decreases |s|
  {
    var i := IndexChar(s, c);
    if i < 0 then [s] else [s[..i]] + Split(s[i + 1..], c)
  }

  lemma {:induction false} SplitNoSeparator(s: string, c: char)
    ensures forall i :: 0 <= i < |Split(s, c)| ==> c !in Split(s, c)[i]
    decreases |s|
  {
    var i := IndexChar(s, c);
    IndexCharSpec(s, c);
    if i >= 0 {
      SplitNoSeparator(s[i + 1..], c);
      assert c !in s[..i];
    }
  }

  /** strings.Join with a one-character separator. */
  function Join(parts: seq<string>, c: char): string {
    if |parts| == 0 then ""
    else if |parts| == 1 then parts[0]
    else parts[0] + [c] + Join(parts[1..], c)
  }

  /** strings.Join with a separator of any length. */
  function JoinWith(parts: seq<string>, sep: string): string {
    if |parts| == 0 then ""
    else if |parts| == 1 then parts[0]
    else parts[0] + sep + JoinWith(parts[1..], sep)
  }

  lemma {:induction false} JoinSplit(s: string, c: char)
    ensures Join(Split(s, c), c) == s
    decreases |s|
  {
    var i := IndexChar(s, c);
    IndexCharHit(s, c);
    if i >= 0 {
      JoinSplit(s[i + 1..], c);
      assert s == s[..i] + [c] + s[i + 1..];
    }
  }

  /** A first part without the separator is cut off exactly. */
  lemma {:induction false} SplitAfter(p: string, c: char, rest: string)
    requires c !in p
    ensures Split(p + [c] + rest, c) == [p] + Split(rest, c)
  {
    var s := p + [c] + rest;
    IndexCharSpec(s, c);
    assert s[|p|] == c;
    assert forall k :: 0 <= k < |p| ==> s[k] == p[k];
    assert IndexChar(s, c) == |p|;
    assert s[..|p|] == p;
    assert s[|p| + 1..] == rest;
  }

  lemma {:induction false} SplitJoin(parts: seq<string>, c: char)
    requires |parts| >= 1
    requires forall i :: 0 <= i < |parts| ==> c !in parts[i]
    ensures Split(Join(parts, c), c) == parts
    decreases |parts|
  {
    if |parts| > 1 {
      SplitJoin(parts[1..], c);
      SplitAfter(parts[0], c, Join(parts[1..], c));
    } else {
      assert c !in parts[0];
      IndexCharSpec(parts[0], c);
    }
  }

  /** strings.SplitN(s, sep, 2) with a one-character separator. */
  function SplitTwo(s: string, c: char): (r: seq<string>)
    ensures 1 <= |r| <= 2
  {
    var i := IndexChar(s, c);
    if i < 0 then [s] else [s[..i], s[i + 1..]]
  }

  /** SplitTwo cuts at the first separator, or leaves a string without one whole. */
  lemma {:induction false} SplitTwoSpec(s: string, c: char)
    ensures |SplitTwo(s, c)| == 1 <==> c !in s
    ensures |SplitTwo(s, c)| == 1 ==> SplitTwo(s, c)[0] == s
    ensures |SplitTwo(s, c)| == 2 ==> s == SplitTwo(s, c)[0] + [c] + SplitTwo(s, c)[1] && c !in SplitTwo(s, c)[0]
  {
    var i := IndexChar(s, c);
    IndexCharSpec(s, c);
    if i >= 0 {
      assert s == s[..i] + [c] + s[i + 1..];
    }
  }

  /**
   * strings.SplitN(s, sep, n) for n >= 1 and a one-character separator:
   * at most n parts, the last one the unsplit remainder.
   */
  function SplitN(s: string, c: char, n: nat): (r: seq<string>)
    requires n >= 1
    ensures 1 <= |r| <= n
    decreases n
  {
    var i := IndexChar(s, c);
    if n == 1 || i < 0 then [s] else [s[..i]] + SplitN(s[i + 1..], c, n - 1)
  }

  /** SplitN loses nothing: joining its parts gives the string back. */
  lemma {:induction false} JoinSplitN(s: string, c: char, n: nat)
    requires n >= 1
    ensures Join(SplitN(s, c, n), c) == s
    decreases n
  {
    var i := IndexChar(s, c);
    IndexCharHit(s, c);
    if n > 1 && i >= 0 {
      JoinSplitN(s[i + 1..], c, n - 1);
      assert s == s[..i] + [c] + s[i + 1..];
    }
  }

  /** A first part without the separator is cut off exactly. */
  lemma {:induction false} SplitNAfter(p: string, c: char, rest: string, n: nat)
    requires c !in p && n >= 2
    ensures SplitN(p + [c] + rest, c, n) == [p] + SplitN(rest, c, n - 1)
  {
    var s := p + [c] + rest;
    IndexCharSpec(s, c);
    assert s[|p|] == c;
    assert forall k :: 0 <= k < |p| ==> s[k] == p[k];
    assert IndexChar(s, c) == |p|;
    assert s[..|p|] == p;
    assert s[|p| + 1..] == rest;
  }

  /** Fewer than n parts means the last part holds no separator. */
  lemma {:induction false} SplitNShort(s: string, c: char, n: nat)
    requires n >= 1 && |SplitN(s, c, n)| < n
    ensures c !in SplitN(s, c, n)[|SplitN(s, c, n)| - 1]
    decreases n
  {
    var i := IndexChar(s, c);
    IndexCharSpec(s, c);
    if i >= 0 {
      SplitNShort(s[i + 1..], c, n - 1);
    }
  }

  /** strings.Count for a non-empty needle. */
  function Count(s: string, sub: string): nat
    requires |sub| > 0
    decreases |s|
  {
    var i := Index(s, sub);
    if i < 0 then 0 else 1 + Count(s[i + |sub|..], sub)
  }

  /** strings.ReplaceAll for a non-empty needle (non-overlapping, left to right). */
  function ReplaceAll(s: string, needle: string, repl: string): string
    requires |needle| > 0
    decreases |s|
  {
    var i := Index(s, needle);
    if i < 0 then s else s[..i] + repl + ReplaceAll(s[i + |needle|..], needle, repl)
  }

  /** ASCII case folding as performed by strings.ToLower on ASCII letters. */
  function LowerChar(c: char): char {
    if 'A' <= c <= 'Z' then (c as int + 32) as char else c
  }

  function ToLower(s: string): (r: string)
    ensures |r| == |s|
    ensures forall i :: 0 <= i < |s| ==> r[i] == LowerChar(s[i])
  {
    if |s| == 0 then "" else [LowerChar(s[0])] + ToLower(s[1..])
  }

  predicate IsUpperAscii(c: char) {
    'A' <= c <= 'Z'
  }

  lemma ToLowerHasNoUpper(s: string)
    ensures forall i :: 0 <= i < |ToLower(s)| ==> !IsUpperAscii(ToLower(s)[i])
  {
  }

  lemma ToLowerIdempotent(s: string)
    ensures ToLower(ToLower(s)) == ToLower(s)
  {
  }

  /** ASCII case folding leaves spaces where they are. */
  lemma ToLowerTrimmed(s: string)
    requires Trimmed(s)
    ensures Trimmed(ToLower(s))
  {
  }

  /** A word with an upper-case letter never occurs in lower-cased text. */
  lemma UpperNeverContained(s: string, w: string, k: nat)
    requires k < |w| && IsUpperAscii(w[k])
    ensures !Contains(ToLower(s), w)
  {
    var t := ToLower(s);
    forall i | 0 <= i && i + |w| <= |t|
      ensures !MatchesAt(t, w, i)
    {
      assert t[i..i + |w|][k] == t[i + k];
    }
    ContainsIff(t, w);
  }

  lemma {:induction false} ToLowerAppend(a: string, b: string)
    ensures ToLower(a + b) == ToLower(a) + ToLower(b)
  {
    var l, r := ToLower(a + b), ToLower(a) + ToLower(b);
    forall i | 0 <= i < |a + b|
      ensures l[i] == r[i]
    {
      if i < |a| {
        assert (a + b)[i] == a[i];
      } else {
        assert (a + b)[i] == b[i - |a|];
      }
    }
    assert l == r;
  }

  // ---------------------------------------------------------------------
  // Decimal integers (strconv.Atoi / fmt "%d")

  predicate IsDigit(c: char) {
    '0' <= c <= '9'
  }

  function DigitValue(c: char): nat
    requires IsDigit(c)
  {
    c as int - '0' as int
  }

  function DigitChar(d: nat): (c: char)
    requires d < 10
    ensures IsDigit(c) && DigitValue(c) == d
  {
    ('0' as int + d) as char
  }

  predicate AllDigits(s: string) {
    forall i :: 0 <= i < |s| ==> IsDigit(s[i])
  }

  /** Value of a run of decimal digits, most significant first. */
  function DigitsValue(s: string): nat
    requires AllDigits(s)
  {
    if |s| == 0 then 0 else 10 * DigitsValue(s[..|s| - 1]) + DigitValue(s[|s| - 1])
  }

  /** Decimal rendering of a natural number without leading zeros. */
  function NatString(n: nat): (s: string)
    ensures |s| >= 1 && AllDigits(s)
  {
    if n < 10 then [DigitChar(n)] else NatString(n / 10) + [DigitChar(n % 10)]
  }

  lemma {:induction false} NatStringValue(n: nat)
    ensures DigitsValue(NatString(n)) == n
  {
    if n >= 10 {
      NatStringValue(n / 10);
      var s := NatString(n);
      assert s[..|s| - 1] == NatString(n / 10);
    }
  }

  /** fmt "%d" / strconv.Itoa */
  function Itoa(n: int): (s: string)
    ensures |s| >= 1
  {
    if n >= 0 then NatString(n) else "-" + NatString(-n)
  }

  const Int64Min: int := -0x8000_0000_0000_0000
  const Int64Max: int := 0x7FFF_FFFF_FFFF_FFFF

  /**
   * strconv.Atoi on a 64-bit platform: an optional sign followed by one or
   * more decimal digits, in the int64 range; anything else is an error.
   */
  function Atoi(s: string): (r: Option<int>)
    ensures r.Some? ==> Int64Min <= r.value <= Int64Max
    ensures r.Some? ==> |s| >= 1
  {
    var neg := |s| > 0 && s[0] == '-';
    var body := if |s| > 0 && (s[0] == '-' || s[0] == '+') then s[1..] else s;
    if |body| == 0 || !AllDigits(body) then None
    else
      var d: int := DigitsValue(body);
      var v := if neg then -d else d;
      if Int64Min <= v <= Int64Max then Some(v) else None
  }

  lemma AtoiItoa(n: int)
    requires Int64Min <= n <= Int64Max
    ensures Atoi(Itoa(n)) == Some(n)
  {
    if n >= 0 {
      NatStringValue(n);
      assert NatString(n)[0] != '-' && NatString(n)[0] != '+';
    } else {
      NatStringValue(-n);
      assert Itoa(n)[1..] == NatString(-n);
    }
  }

  lemma ItoaNoChar(n: int, c: char)
    requires !IsDigit(c) && c != '-'
    ensures c !in Itoa(n)
  {
  }
}
