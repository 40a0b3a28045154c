/**
 * Line diff of the mdiff package (mdiff/diff.go).
 *
 * An edit script is a sequence of Equal / Insert / Delete operations.
 * Reading the Equal and Delete texts in order gives the old file, reading
 * the Equal and Insert texts gives the new one. `Diff` trims the common
 * prefix and suffix and computes a shortest edit script for the middle.
 */
module MdiffDiff {

  datatype OpKind = Equal | Insert | Delete

  /** One edit; oldPos / newPos are 0-based line indices. */
  datatype Edit<T> = Edit(kind: OpKind, oldPos: int, newPos: int, text: T)

  // ---------------------------------------------------------------------
  // Specification of edit scripts

  function OldOf<T(==)>(e: Edit<T>): seq<T> {
    if e.kind == Insert then [] else [e.text]
  }

  function NewOf<T(==)>(e: Edit<T>): seq<T> {
    if e.kind == Delete then [] else [e.text]
  }

  /** The old file an edit script reads. */
  function OldSide<T(==)>(es: seq<Edit<T>>): seq<T> {
    if |es| == 0 then [] else OldSide(es[..|es| - 1]) + OldOf(es[|es| - 1])
  }

  /** The new file an edit script writes. */
  function NewSide<T(==)>(es: seq<Edit<T>>): seq<T> {
    if |es| == 0 then [] else NewSide(es[..|es| - 1]) + NewOf(es[|es| - 1])
  }

  function EqualCount<T(==)>(es: seq<Edit<T>>): nat {
    if |es| == 0 then 0 else EqualCount(es[..|es| - 1]) + (if es[|es| - 1].kind == Equal then 1 else 0)
  }

  /** Number of Insert and Delete edits: the length of the edit script. */
  function Changes<T(==)>(es: seq<Edit<T>>): nat {
    if |es| == 0 then 0 else Changes(es[..|es| - 1]) + (if es[|es| - 1].kind != Equal then 1 else 0)
  }

  predicate Transforms<T(==)>(es: seq<Edit<T>>, a: seq<T>, b: seq<T>) {
    OldSide(es) == a && NewSide(es) == b
  }

  /** The edit sits at old line i and new line j (for the sides it has). */
  predicate At<T(==)>(e: Edit<T>, i: int, j: int) {
    (e.kind != Insert ==> e.oldPos == i) && (e.kind != Delete ==> e.newPos == j)
  }

  /**
   * Every Equal/Delete edit carries the index of its old line and every
   * Equal/Insert edit the index of its new line, counting from (i0, j0).
   */
  predicate Positioned<T(==)>(es: seq<Edit<T>>, i0: int, j0: int) {
    |es| == 0 ||
    (var init := es[..|es| - 1];
     Positioned(init, i0, j0) && At(es[|es| - 1], i0 + |OldSide(init)|, j0 + |NewSide(init)|))
  }

  /**
   * es is an edit script from a to b whose positions count from (i0, j0)
   * and which keeps eq lines unchanged.
   */
  ghost predicate Script<T>(es: seq<Edit<T>>, a: seq<T>, b: seq<T>, i0: int, j0: int, eq: int) {
    Transforms(es, a, b) && Positioned(es, i0, j0) && EqualCount(es) == eq
  }

  lemma {:induction false} SidesConcat<T>(a: seq<Edit<T>>, b: seq<Edit<T>>)
    ensures OldSide(a + b) == OldSide(a) + OldSide(b)
    ensures NewSide(a + b) == NewSide(a) + NewSide(b)
    ensures EqualCount(a + b) == EqualCount(a) + EqualCount(b)
    ensures Changes(a + b) == Changes(a) + Changes(b)
    decreases |b|
  {
    if |b| > 0 {
      var b' := b[..|b| - 1];
      assert (a + b)[..|a + b| - 1] == a + b';
      SidesConcat(a, b');
    } else {
      assert a + b == a;
    }
  }

  lemma {:induction false} SidesOne<T>(e: Edit<T>)
    ensures OldSide([e]) == OldOf(e) && NewSide([e]) == NewOf(e)
    ensures EqualCount([e]) == (if e.kind == Equal then 1 else 0)
    ensures Changes([e]) == (if e.kind == Equal then 0 else 1)
  {
    assert [e][..0] == [];
  }

  /** The last element and the rest of a + b, for a non-empty b. */
  lemma {:induction false} SnocAppend<T>(a: seq<T>, b: seq<T>)
    requires |b| > 0
    ensures (a + b)[..|a + b| - 1] == a + b[..|b| - 1] && (a + b)[|a + b| - 1] == b[|b| - 1]
  {
  }

  /** Concatenation of positioned scripts, the second starting where the first ends at (i1, j1). */
  lemma {:induction false} PositionedConcat<T>(a: seq<Edit<T>>, b: seq<Edit<T>>, i0: int, j0: int, i1: int, j1: int)
    requires i1 == i0 + |OldSide(a)| && j1 == j0 + |NewSide(a)|
    requires Positioned(a, i0, j0)
    requires Positioned(b, i1, j1)
    ensures Positioned(a + b, i0, j0)
    decreases |b|
  {
    if |b| == 0 {
      assert a + b == a;
    } else {
      var b' := b[..|b| - 1];
      PositionedConcat(a, b', i0, j0, i1, j1);
      SidesConcat(a, b');
      SnocAppend(a, b);
    }
  }

  /** Positioned of a non-empty script from its init and the place of its last edit. */
  lemma {:induction false} PositionedIntro<T>(es: seq<Edit<T>>, i0: int, j0: int)
    requires |es| > 0 && Positioned(es[..|es| - 1], i0, j0)
    requires At(es[|es| - 1], i0 + |OldSide(es[..|es| - 1])|, j0 + |NewSide(es[..|es| - 1])|)
    ensures Positioned(es, i0, j0)
  {
  }

  lemma {:induction false} PositionedOne<T>(e: Edit<T>, i0: int, j0: int)
    requires At(e, i0, j0)
    ensures Positioned([e], i0, j0)
  {
    assert [e][..0] == [];
  }

  /** Appending one edit at the next position extends both sides by its texts. */
  lemma {:induction false} AppendStep<T>(es: seq<Edit<T>>, e: Edit<T>, a: seq<T>, b: seq<T>, i0: int, j0: int)
    requires Transforms(es, a, b) && Positioned(es, i0, j0)
    requires At(e, i0 + |a|, j0 + |b|)
    ensures Transforms(es + [e], a + OldOf(e), b + NewOf(e)) && Positioned(es + [e], i0, j0)
    ensures EqualCount(es + [e]) == EqualCount(es) + (if e.kind == Equal then 1 else 0)
  {
    SnocAppend(es, [e]);
    assert [e][..0] == [];
  }

  /** Positioned scripts locate every edit: edit k sits after the sides of es[..k]. */
  lemma {:induction false} PositionedAt<T>(es: seq<Edit<T>>, i0: int, j0: int, k: nat)
    requires Positioned(es, i0, j0) && k < |es|
    ensures At(es[k], i0 + |OldSide(es[..k])|, j0 + |NewSide(es[..k])|)
    ensures Positioned(es[..k], i0, j0)
    decreases |es|
  {
    if k < |es| - 1 {
      var init := es[..|es| - 1];
      PositionedAt(init, i0, j0, k);
      PrefixOfInit(es, k);
    }
  }

  lemma {:induction false} PrefixOfInit<T>(s: seq<T>, k: nat)
    requires k < |s| - 1
    ensures s[..|s| - 1][..k] == s[..k] && s[..|s| - 1][k] == s[k]
  {
  }

  /** |old| + |new| == |script| + number of Equal edits. */
  lemma {:induction false} SidesLength<T>(es: seq<Edit<T>>)
    ensures |es| == EqualCount(es) + Changes(es)
    ensures |OldSide(es)| + |NewSide(es)| == 2 * EqualCount(es) + Changes(es)
  {
    if |es| > 0 {
      SidesLength(es[..|es| - 1]);
    }
  }

  // ---------------------------------------------------------------------
  // Longest common subsequence, the measure of a shortest edit script

  function Init<T(==)>(s: seq<T>): seq<T>
    requires |s| > 0
  {
    s[..|s| - 1]
  }

  function Lcs<T(==)>(a: seq<T>, b: seq<T>): nat
    decreases |a| + |b|
  {
    if |a| == 0 || |b| == 0 then 0
    else if a[|a| - 1] == b[|b| - 1] then 1 + Lcs(Init(a), Init(b))
    else
      var l1 := Lcs(Init(a), b);
      var l2 := Lcs(a, Init(b));
      if l1 >= l2 then l1 else l2
  }

  /** Dropping the last element of one side lowers the LCS by at most one. */
  lemma {:induction false} LcsDropOne<T>(a: seq<T>, b: seq<T>)
    ensures |a| > 0 ==> Lcs(Init(a), b) <= Lcs(a, b) <= Lcs(Init(a), b) + 1
    ensures |b| > 0 ==> Lcs(a, Init(b)) <= Lcs(a, b) <= Lcs(a, Init(b)) + 1
    decreases |a| + |b|
  {
    if |a| > 0 && |b| > 0 {
      LcsDropOne(Init(a), b);
      LcsDropOne(a, Init(b));
    }
  }

  lemma {:induction false} LcsConsCons<T>(x: T, a: seq<T>, b: seq<T>)
    ensures Lcs([x] + a, [x] + b) == 1 + Lcs(a, b)
    decreases |a| + |b|
  {
    var xa, xb := [x] + a, [x] + b;
    if |a| > 0 {
      assert Init(xa) == [x] + Init(a);
    }
    if |b| > 0 {
      assert Init(xb) == [x] + Init(b);
    }
    if |a| == 0 && |b| == 0 {
      assert Init(xa) == [] && Init(xb) == [];
    } else if |a| == 0 {
      if xa[0] != xb[|xb| - 1] {
        LcsConsCons(x, a, Init(b));
      }
    } else if |b| == 0 {
      if xa[|xa| - 1] != xb[0] {
        LcsConsCons(x, Init(a), b);
      }
    } else if a[|a| - 1] == b[|b| - 1] {
      LcsConsCons(x, Init(a), Init(b));
    } else {
      LcsConsCons(x, Init(a), b);
      LcsConsCons(x, a, Init(b));
    }
  }

  lemma {:induction false} LcsCommonPrefix<T>(p: seq<T>, c: seq<T>, d: seq<T>)
    ensures Lcs(p + c, p + d) == |p| + Lcs(c, d)
    decreases |p|
  {
    if |p| > 0 {
      LcsCommonPrefix(p[1..], c, d);
      assert p + c == [p[0]] + (p[1..] + c);
      assert p + d == [p[0]] + (p[1..] + d);
      LcsConsCons(p[0], p[1..] + c, p[1..] + d);
    } else {
      assert p + c == c && p + d == d;
    }
  }

  lemma {:induction false} LcsCommonSuffix<T>(c: seq<T>, d: seq<T>, s: seq<T>)
    ensures Lcs(c + s, d + s) == |s| + Lcs(c, d)
    decreases |s|
  {
    if |s| > 0 {
      var s' := s[..|s| - 1];
      LcsCommonSuffix(c, d, s');
      assert Init(c + s) == c + s' && Init(d + s) == d + s';
    } else {
      assert c + s == c && d + s == d;
    }
  }

  /** No edit script turning a into b keeps more lines than the LCS. */
  lemma {:induction false} ScriptEqualsBound<T>(es: seq<Edit<T>>, a: seq<T>, b: seq<T>)
    requires Transforms(es, a, b)
    ensures EqualCount(es) <= Lcs(a, b)
    decreases |es|
  {
    if |es| > 0 {
      var init, e := es[..|es| - 1], es[|es| - 1];
      match e.kind
      case Equal =>
        assert a == OldSide(init) + [e.text] && b == NewSide(init) + [e.text];
        assert Init(a) == OldSide(init) && Init(b) == NewSide(init);
        ScriptEqualsBound(init, Init(a), Init(b));
      case Delete =>
        assert a == OldSide(init) + [e.text] && Init(a) == OldSide(init);
        ScriptEqualsBound(init, Init(a), b);
        LcsDropOne(a, b);
      case Insert =>
        assert b == NewSide(init) + [e.text] && Init(b) == NewSide(init);
        ScriptEqualsBound(init, a, Init(b));
        LcsDropOne(a, b);
    }
  }

  /**
   * A script that keeps as many lines as the LCS is a shortest edit script:
   * no other script between the same files has fewer insertions and deletions.
   */
  lemma {:induction false} ShortestScript<T>(r: seq<Edit<T>>, s: seq<Edit<T>>, a: seq<T>, b: seq<T>)
    requires Transforms(r, a, b) && EqualCount(r) == Lcs(a, b)
    requires Transforms(s, a, b)
    ensures Changes(r) <= Changes(s)
  {
    ScriptEqualsBound(s, a, b);
    SidesLength(r);
    SidesLength(s);
  }

  // ---------------------------------------------------------------------
  // Reversal (reverseEdits)

  function Reverse<T>(s: seq<T>): (r: seq<T>)
    ensures |r| == |s|
  {
    if |s| == 0 then [] else Reverse(s[1..]) + [s[0]]
  }

  lemma {:induction false} ReverseAt<T>(s: seq<T>, k: nat)
    requires k < |s|
    ensures Reverse(s)[k] == s[|s| - 1 - k]
  {
    if k < |s| - 1 {
      ReverseAt(s[1..], k);
    }
  }

  lemma {:induction false} ReverseSnoc<T>(s: seq<T>, e: T)
    ensures Reverse(s + [e]) == [e] + Reverse(s)
    decreases |s|
  {
    if |s| == 0 {
      assert s + [e] == [e];
      assert [e][1..] == [];
    } else {
      assert (s + [e])[1..] == s[1..] + [e];
      ReverseSnoc(s[1..], e);
    }
  }

  lemma {:induction false} ReverseReverse<T>(s: seq<T>)
    ensures Reverse(Reverse(s)) == s
  {
    forall k | 0 <= k < |s| ensures Reverse(Reverse(s))[k] == s[k] {
      ReverseAt(Reverse(s), k);
      ReverseAt(s, |s| - 1 - k);
    }
  }

  /** reverseEdits: swaps from both ends towards the middle, in place. */
  method ReverseEdits<T>(a: array<Edit<T>>)
    modifies a
    ensures a[..] == Reverse(old(a[..]))
  {
    var n := a.Length;
    var i, j := 0, n - 1;
    while i < j
      invariant 0 <= i <= n && j == n - 1 - i
      invariant i <= j + 2
      invariant forall k :: 0 <= k < i ==> a[k] == old(a[n - 1 - k]) && a[n - 1 - k] == old(a[k])
      invariant forall k :: i <= k < n - i ==> a[k] == old(a[k])
    {
      a[i], a[j] := a[j], a[i];
      i, j := i + 1, j - 1;
    }
    forall k | 0 <= k < n ensures a[..][k] == Reverse(old(a[..]))[k] {
      ReverseAt(old(a[..]), k);
    }
  }

  // ---------------------------------------------------------------------
  // ---------------------------------------------------------------------
  // Myers search of the middle section (myersDiff, backtrack)
  //
  // The search runs over the edit graph of a (old, x axis) and b (new, y
  // axis); diagonal k holds the points with x - y == k. Round d computes,
  // for every diagonal k in -d, -d+2, ..., d, the furthest x that d
  // insertions and deletions reach on k, in the array v (indexed k + off).
  // trace[d] is the copy of v taken before round d.

  function Min(p: int, q: int): int {
    if p < q then p else q
  }

  /** No common subsequence is longer than either side. */
  lemma {:induction false} LcsBound<T>(a: seq<T>, b: seq<T>)
    ensures Lcs(a, b) <= |a| && Lcs(a, b) <= |b|
    decreases |a| + |b|
  {
    if |a| > 0 && |b| > 0 {
      LcsBound(Init(a), Init(b));
      LcsBound(Init(a), b);
      LcsBound(a, Init(b));
    }
  }

  /**
   * The fewest insertions and deletions that lead from (0, 0) to (x, y).
   * Points past the end of a file are allowed: lines there match nothing.
   */
  ghost function Dist<T>(a: seq<T>, b: seq<T>, x: int, y: int): int
    requires 0 <= x && 0 <= y
  {
    x + y - 2 * Lcs(a[..Min(x, |a|)], b[..Min(y, |b|)])
  }

  /** Reaching (n, m) costs the length of a shortest edit script. */
  lemma {:induction false} DistFinal<T>(a: seq<T>, b: seq<T>)
    ensures Dist(a, b, |a|, |b|) == |a| + |b| - 2 * Lcs(a, b)
    ensures -Dist(a, b, |a|, |b|) <= |a| - |b| <= Dist(a, b, |a|, |b|)
    ensures Par(|a| - |b|, Dist(a, b, |a|, |b|))
  {
    assert a[..|a|] == a && b[..|b|] == b;
    LcsBound(a, b);
  }

  lemma {:induction false} DistLower<T>(a: seq<T>, b: seq<T>, x: int, y: int)
    requires 0 <= x && 0 <= y
    ensures -Dist(a, b, x, y) <= x - y <= Dist(a, b, x, y)
  {
    LcsBound(a[..Min(x, |a|)], b[..Min(y, |b|)]);
  }

  /** One deletion, to (x + 1, y), or one insertion, to (x, y + 1), costs at most one more. */
  lemma {:induction false} DistMove<T>(a: seq<T>, b: seq<T>, x: int, y: int, x': int, y': int)
    requires 0 <= x && 0 <= y
    requires (x' == x + 1 && y' == y) || (x' == x && y' == y + 1)
    ensures Dist(a, b, x', y') <= Dist(a, b, x, y) + 1
  {
    if x' == x + 1 && x < |a| {
      assert Init(a[..x']) == a[..x];
      LcsDropOne(a[..x'], b[..Min(y, |b|)]);
    } else if y' == y + 1 && y < |b| {
      assert Init(b[..y']) == b[..y];
      LcsDropOne(a[..Min(x, |a|)], b[..y']);
    }
  }

  /** A matching line is free. */
  lemma {:induction false} DistDiag<T>(a: seq<T>, b: seq<T>, x: int, y: int)
    requires 0 <= x < |a| && 0 <= y < |b| && a[x] == b[y]
    ensures Dist(a, b, x + 1, y + 1) == Dist(a, b, x, y)
  {
    LcsPrefixStep(a, b, x + 1, y + 1);
  }

  /** (x, y) is the end of a matching line that costs nothing extra. */
  ghost predicate DiagPred<T>(a: seq<T>, b: seq<T>, x: int, y: int)
    requires 0 <= x && 0 <= y
  {
    0 < x <= |a| && 0 < y <= |b| && a[x - 1] == b[y - 1] && Dist(a, b, x - 1, y - 1) == Dist(a, b, x, y)
  }

  /**
   * Every point but the origin is reached through a matching line, or
   * through a deletion or an insertion that is one step cheaper.
   */
  lemma {:induction false} DistPred<T>(a: seq<T>, b: seq<T>, x: int, y: int)
    requires 0 <= x && 0 <= y && (x > 0 || y > 0)
    ensures DiagPred(a, b, x, y)
         || (x > 0 && Dist(a, b, x - 1, y) + 1 == Dist(a, b, x, y))
         || (y > 0 && Dist(a, b, x, y - 1) + 1 == Dist(a, b, x, y))
  {
    var n, m := |a|, |b|;
    if x > n {
      assert Min(x - 1, n) == Min(x, n);
    } else if y > m {
      assert Min(y - 1, m) == Min(y, m);
    } else if x == 0 {
      LcsEmptyPrefix(a, b, 0, y);
      LcsEmptyPrefix(a, b, 0, y - 1);
    } else if y == 0 {
      LcsEmptyPrefix(a, b, x, 0);
      LcsEmptyPrefix(a, b, x - 1, 0);
    } else {
      LcsPrefixStep(a, b, x, y);
    }
  }

  /** The snake: follow matching lines along diagonal k from x. */
  function SnakeEnd<T(==)>(a: seq<T>, b: seq<T>, x: int, k: int): (r: int)
    ensures x <= r
    decreases |a| - x
  {
    if 0 <= x && 0 <= x - k && x < |a| && x - k < |b| && a[x] == b[x - k] then SnakeEnd(a, b, x + 1, k) else x
  }

  lemma {:induction false} SnakeMatches<T>(a: seq<T>, b: seq<T>, x: int, k: int, i: int)
    requires x <= i < SnakeEnd(a, b, x, k)
    ensures 0 <= i && 0 <= i - k && i < |a| && i - k < |b| && a[i] == b[i - k]
    decreases |a| - x
  {
    if i > x {
      SnakeMatches(a, b, x + 1, k, i);
    }
  }

  lemma {:induction false} SnakeStops<T>(a: seq<T>, b: seq<T>, x: int, k: int)
    ensures var r := SnakeEnd(a, b, x, k);
      !(0 <= r && 0 <= r - k && r < |a| && r - k < |b| && a[r] == b[r - k])
    decreases |a| - x
  {
    if 0 <= x && 0 <= x - k && x < |a| && x - k < |b| && a[x] == b[x - k] {
      SnakeStops(a, b, x + 1, k);
    }
  }

  lemma {:induction false} SnakeDist<T>(a: seq<T>, b: seq<T>, x: int, k: int)
    requires 0 <= x && 0 <= x - k
    ensures Dist(a, b, SnakeEnd(a, b, x, k), SnakeEnd(a, b, x, k) - k) == Dist(a, b, x, x - k)
    decreases |a| - x
  {
    if x < |a| && x - k < |b| && a[x] == b[x - k] {
      DistDiag(a, b, x, x - k);
      SnakeDist(a, b, x + 1, k);
    }
  }

  /** Diagonal k has the parity of round d. */
  predicate Par(k: int, d: int) {
    (k + d) % 2 == 0
  }

  /** Neighbouring diagonals have the other parity; two steps keep it. */
  lemma {:induction false} ParStep(k: int, d: int)
    requires Par(k, d)
    ensures Par(k + 2, d) && !Par(k + 1, d) && !Par(k - 1, d)
  {
  }

  /** Of two distinct diagonals of the same parity, the lower is at least two below. */
  lemma {:induction false} ParGap(k: int, t: int, d: int)
    requires Par(k, d) && Par(t, d) && k < t
    ensures k + 2 <= t
  {
  }

  function VAt(w: seq<int>, off: int, k: int): int
    requires 0 <= k + off < |w|
  {
    w[k + off]
  }

  ghost predicate Round(w: seq<int>, d: int, k: int, off: int) {
    1 <= off && 0 <= d <= off && |w| == 2 * off + 1 && -d <= k <= d
  }

  /** Round d reaches diagonal k by an insertion from k + 1, else by a deletion from k - 1. */
  predicate Down(w: seq<int>, d: int, k: int, off: int)
    requires Round(w, d, k, off)
  {
    k == -d || (k != d && w[k - 1 + off] < w[k + 1 + off])
  }

  /** Where round d lands on diagonal k before following the snake. */
  function Mid(w: seq<int>, d: int, k: int, off: int): int
    requires Round(w, d, k, off)
  {
    if Down(w, d, k, off) then w[k + 1 + off] else w[k - 1 + off] + 1
  }

  /** The furthest x round d reaches on diagonal k, from the array w of round d - 1. */
  function Reach<T(==)>(a: seq<T>, b: seq<T>, w: seq<int>, d: int, k: int, off: int): int
    requires Round(w, d, k, off)
  {
    SnakeEnd(a, b, Mid(w, d, k, off), k)
  }

  /** The points of round d lie in the quadrant x, y >= 0. */
  ghost predicate Points(w: seq<int>, d: int, off: int) {
    0 <= d <= off && |w| == 2 * off + 1 &&
    forall k | -d <= k <= d && Par(k, d) :: 0 <= VAt(w, off, k) && 0 <= VAt(w, off, k) - k
  }

  /**
   * w holds round d: every point stored costs at most d, and no point
   * that costs at most d lies further along its diagonal.
   */
  ghost predicate Layer<T>(a: seq<T>, b: seq<T>, w: seq<int>, d: int, off: int) {
    Points(w, d, off) &&
    (forall k | -d <= k <= d && Par(k, d) :: Dist(a, b, VAt(w, off, k), VAt(w, off, k) - k) <= d) &&
    (forall x, y | Costs(a, b, x, y, d) && -d <= x - y <= d && Par(x - y, d) :: x <= VAt(w, off, x - y))
  }

  /** (x, y) lies in the quadrant and costs at most d. */
  ghost predicate Costs<T>(a: seq<T>, b: seq<T>, x: int, y: int, d: int) {
    0 <= x && 0 <= y && Dist(a, b, x, y) <= d
  }

  /** w' is w after round d on the diagonals of that round. */
  ghost predicate Follows<T>(a: seq<T>, b: seq<T>, w: seq<int>, w': seq<int>, d: int, off: int)
    requires 1 <= off && 0 <= d <= off && |w| == 2 * off + 1 && |w'| == 2 * off + 1
  {
    forall k | -d <= k <= d && Par(k, d) :: VAt(w', off, k) == Reach(a, b, w, d, k, off)
  }

  /** The landing point of round d lies in the quadrant and costs at most d. */
  lemma {:induction false} MidPoint<T>(a: seq<T>, b: seq<T>, w: seq<int>, d: int, k: int, off: int)
    requires Round(w, d, k, off) && Par(k, d)
    requires d == 0 ==> w[off + 1] == 0
    requires d > 0 ==> Layer(a, b, w, d - 1, off)
    ensures 0 <= Mid(w, d, k, off) && 0 <= Mid(w, d, k, off) - k
    ensures Dist(a, b, Mid(w, d, k, off), Mid(w, d, k, off) - k) <= d
  {
    if d == 0 {
      assert k == 0 && Mid(w, d, k, off) == 0;
    } else if Down(w, d, k, off) {
      assert -(d - 1) <= k + 1 <= d - 1 && Par(k + 1, d - 1);
      DistMove(a, b, VAt(w, off, k + 1), VAt(w, off, k + 1) - (k + 1), Mid(w, d, k, off), Mid(w, d, k, off) - k);
    } else {
      assert -(d - 1) <= k - 1 <= d - 1 && Par(k - 1, d - 1);
      DistMove(a, b, VAt(w, off, k - 1), VAt(w, off, k - 1) - (k - 1), Mid(w, d, k, off), Mid(w, d, k, off) - k);
    }
  }

  /** Round d goes at least as far as any point that costs at most d (Myers' lemma). */
  lemma {:induction false} FurthestAt<T>(a: seq<T>, b: seq<T>, w: seq<int>, d: int, off: int, x: int, y: int, k: int)
    requires 1 <= off && 0 <= d <= off && |w| == 2 * off + 1
    requires d == 0 ==> w[off + 1] == 0
    requires d > 0 ==> Layer(a, b, w, d - 1, off)
    requires 0 <= x && 0 <= y && k == x - y && -d <= k <= d && Par(k, d) && Dist(a, b, x, y) <= d
    ensures x <= Reach(a, b, w, d, k, off)
    decreases x
  {
    MidPoint(a, b, w, d, k, off);
    if x > 0 || y > 0 {
      DistPred(a, b, x, y);
      if DiagPred(a, b, x, y) {
        FurthestAt(a, b, w, d, off, x - 1, y - 1, k);
        SnakeStops(a, b, Mid(w, d, k, off), k);
      } else if x > 0 && Dist(a, b, x - 1, y) + 1 == Dist(a, b, x, y) {
        FurthestRight(a, b, w, d, off, x, y, k);
      } else {
        FurthestDown(a, b, w, d, off, x, y, k);
      }
    }
  }

  /** A point reached by a deletion from a cheaper point: round d lands no nearer. */
  lemma {:induction false} FurthestRight<T>(a: seq<T>, b: seq<T>, w: seq<int>, d: int, off: int, x: int, y: int, k: int)
    requires 1 <= off && 0 <= d <= off && |w| == 2 * off + 1
    requires d > 0 ==> Layer(a, b, w, d - 1, off)
    requires 0 < x && 0 <= y && k == x - y && -d <= k <= d && Par(k, d)
    requires Dist(a, b, x - 1, y) + 1 <= d
    ensures x <= Mid(w, d, k, off)
  {
    DistLower(a, b, x - 1, y);
    assert Costs(a, b, x - 1, y, d - 1);
    assert (x - 1) - y == k - 1;
    assert -(d - 1) <= k - 1 <= d - 1 && Par(k - 1, d - 1);
    assert x - 1 <= VAt(w, off, k - 1);
  }

  /** A point reached by an insertion from a cheaper point: round d lands no nearer. */
  lemma {:induction false} FurthestDown<T>(a: seq<T>, b: seq<T>, w: seq<int>, d: int, off: int, x: int, y: int, k: int)
    requires 1 <= off && 0 <= d <= off && |w| == 2 * off + 1
    requires d > 0 ==> Layer(a, b, w, d - 1, off)
    requires 0 <= x && 0 < y && k == x - y && -d <= k <= d && Par(k, d)
    requires Dist(a, b, x, y - 1) + 1 <= d
    ensures x <= Mid(w, d, k, off)
  {
    DistLower(a, b, x, y - 1);
    assert Costs(a, b, x, y - 1, d - 1);
    assert x - (y - 1) == k + 1;
    assert -(d - 1) <= k + 1 <= d - 1 && Par(k + 1, d - 1);
    assert x <= VAt(w, off, k + 1);
  }

  /** Round d, computed from round d - 1, is a layer again. */
  lemma {:induction false} NextLayer<T>(a: seq<T>, b: seq<T>, w: seq<int>, w': seq<int>, d: int, off: int)
    requires 1 <= off && 0 <= d <= off && |w| == 2 * off + 1 && |w'| == 2 * off + 1
    requires d == 0 ==> w[off + 1] == 0
    requires d > 0 ==> Layer(a, b, w, d - 1, off)
    requires Follows(a, b, w, w', d, off)
    ensures Layer(a, b, w', d, off)
  {
    forall k | -d <= k <= d && Par(k, d)
      ensures 0 <= VAt(w', off, k) && 0 <= VAt(w', off, k) - k
      ensures Dist(a, b, VAt(w', off, k), VAt(w', off, k) - k) <= d
    {
      MidPoint(a, b, w, d, k, off);
      SnakeDist(a, b, Mid(w, d, k, off), k);
    }
    forall x, y | Costs(a, b, x, y, d) && -d <= x - y <= d && Par(x - y, d)
      ensures x <= VAt(w', off, x - y)
    {
      FurthestAt(a, b, w, d, off, x, y, x - y);
    }
  }

  /** A point at or past (n, m) that costs no more than (n, m) is (n, m). */
  lemma {:induction false} TerminalPoint<T>(a: seq<T>, b: seq<T>, x: int, y: int, d: int)
    requires |a| <= x && |b| <= y && Dist(a, b, x, y) <= d <= Dist(a, b, |a|, |b|)
    ensures x == |a| && y == |b|
  {
  }

  lemma {:induction false} StepSides<T>(a: seq<T>, b: seq<T>, tail: seq<Edit<T>>, x: nat, y: nat, e: Edit<T>)
    requires x <= |a| && y <= |b| && Transforms(tail, a[x..], b[y..])
    requires e.kind != Insert ==> e.oldPos + 1 == x && 0 <= e.oldPos && a[e.oldPos] == e.text
    requires e.kind != Delete ==> e.newPos + 1 == y && 0 <= e.newPos && b[e.newPos] == e.text
    ensures Transforms([e] + tail, a[x - |OldOf(e)|..], b[y - |NewOf(e)|..])
  {
    SidesConcat([e], tail);
    SidesOne(e);
    StepOld(a, x, e);
    StepNew(b, y, e);
  }

  lemma {:induction false} StepOld<T>(a: seq<T>, x: nat, e: Edit<T>)
    requires x <= |a|
    requires e.kind != Insert ==> e.oldPos + 1 == x && 0 <= e.oldPos && a[e.oldPos] == e.text
    ensures a[x - |OldOf(e)|..] == OldOf(e) + a[x..]
  {
    if e.kind != Insert { DropCons(a, x); }
  }

  lemma {:induction false} StepNew<T>(b: seq<T>, y: nat, e: Edit<T>)
    requires y <= |b|
    requires e.kind != Delete ==> e.newPos + 1 == y && 0 <= e.newPos && b[e.newPos] == e.text
    ensures b[y - |NewOf(e)|..] == NewOf(e) + b[y..]
  {
    if e.kind != Delete { DropCons(b, y); }
  }

  lemma {:induction false} DropCons<T>(a: seq<T>, x: nat)
    requires 0 < x <= |a|
    ensures a[x - 1..] == [a[x - 1]] + a[x..]
  {
  }

  lemma {:induction false} StepPositioned<T>(tail: seq<Edit<T>>, x: nat, y: nat, e: Edit<T>)
    requires Positioned(tail, x, y)
    requires e.kind != Insert ==> e.oldPos + 1 == x
    requires e.kind != Delete ==> e.newPos + 1 == y
    ensures Positioned([e] + tail, x - |OldOf(e)|, y - |NewOf(e)|)
  {
    var x', y' := x - |OldOf(e)|, y - |NewOf(e)|;
    SidesOne(e);
    PositionedOne(e, x', y');
    PositionedConcat([e], tail, x', y', x, y);
  }

  /** One step of the Lcs recurrence on the prefixes a[..x], b[..y]. */
  lemma {:induction false} LcsPrefixStep<T>(a: seq<T>, b: seq<T>, x: nat, y: nat)
    requires 0 < x <= |a| && 0 < y <= |b|
    ensures a[x - 1] == b[y - 1] ==> Lcs(a[..x], b[..y]) == 1 + Lcs(a[..x - 1], b[..y - 1])
    ensures a[x - 1] != b[y - 1] ==>
      Lcs(a[..x], b[..y]) ==
        (if Lcs(a[..x - 1], b[..y]) >= Lcs(a[..x], b[..y - 1]) then Lcs(a[..x - 1], b[..y]) else Lcs(a[..x], b[..y - 1]))
  {
    assert Init(a[..x]) == a[..x - 1] && Init(b[..y]) == b[..y - 1];
  }

  lemma {:induction false} LcsEmptyPrefix<T>(a: seq<T>, b: seq<T>, x: nat, y: nat)
    requires x <= |a| && y <= |b| && (x == 0 || y == 0)
    ensures Lcs(a[..x], b[..y]) == 0
  {
  }


  /**
   * trace[d] is v before round d: all zero before round 0 (only v[off + 1]
   * is read there), round d - 1 for later rounds.
   */
  ghost predicate Traced<T>(a: seq<T>, b: seq<T>, trace: seq<seq<int>>, off: int) {
    1 <= off && |trace| <= off + 1 &&
    (forall j | 0 <= j < |trace| :: |trace[j]| == 2 * off + 1) &&
    (|trace| > 0 ==> trace[0][off + 1] == 0) &&
    (forall j | 1 <= j < |trace| :: Recorded(a, b, trace, j, off))
  }

  /** trace[j] holds round j - 1, computed from trace[j - 1]. */
  ghost predicate Recorded<T>(a: seq<T>, b: seq<T>, trace: seq<seq<int>>, j: int, off: int)
    requires 1 <= off && 1 <= j < |trace| && j <= off + 1
    requires |trace[j - 1]| == 2 * off + 1 && |trace[j]| == 2 * off + 1
  {
    Points(trace[j], j - 1, off) && Follows(a, b, trace[j - 1], trace[j], j - 1, off)
  }

  lemma {:induction false} TracedSnoc<T>(a: seq<T>, b: seq<T>, trace: seq<seq<int>>, w: seq<int>, off: int)
    requires Traced(a, b, trace, off) && |trace| <= off && |w| == 2 * off + 1
    requires |trace| == 0 ==> w[off + 1] == 0
    requires |trace| > 0 ==> Layer(a, b, w, |trace| - 1, off) && Follows(a, b, trace[|trace| - 1], w, |trace| - 1, off)
    ensures Traced(a, b, trace + [w], off)
  {
    var t := trace + [w];
    forall j | 1 <= j < |t| ensures Recorded(a, b, t, j, off) {
      if j < |trace| {
        assert Recorded(a, b, trace, j, off);
        assert t[j - 1] == trace[j - 1] && t[j] == trace[j];
      } else {
        assert t[j - 1] == trace[j - 1] && t[j] == w;
      }
    }
  }

  /**
   * One round of the search (the k loop of myersDiff), updating v in place.
   * hit: the round reached (n, m), which happens exactly in the round
   * numbered by the length of a shortest edit script.
   */
  method Sweep<T(==)>(a: seq<T>, b: seq<T>, v: array<int>, d: int, off: int, ghost snap: seq<int>) returns (hit: bool)
    requires 1 <= off && 0 <= d <= off && v.Length == 2 * off + 1 && snap == v[..]
    requires d == 0 ==> snap[off + 1] == 0
    requires d > 0 ==> Layer(a, b, snap, d - 1, off)
    requires d <= Dist(a, b, |a|, |b|)
    modifies v
    ensures hit ==> d == Dist(a, b, |a|, |b|) && -d <= |a| - |b| <= d && Par(|a| - |b|, d)
    ensures hit ==> |a| == Reach(a, b, snap, d, |a| - |b|, off)
    ensures !hit ==> d < Dist(a, b, |a|, |b|) && Follows(a, b, snap, v[..], d, off)
  {
    var n, m := |a|, |b|;
    ghost var e := Dist(a, b, n, m);
    DistFinal(a, b);
    var k := -d;
    while k <= d
      invariant -d <= k <= d + 2 && Par(k, d)
      invariant Swept(a, b, snap, v[..], d, k, off)
      invariant d == e ==> k <= n - m
    {
      var x := Visit(a, b, v, d, k, off, snap);
      var y := x - k;
      if x >= n && y >= m {
        ReachesEnd(a, b, snap, d, k, off);
        return true;
      }
      if d == e {
        if k == n - m {
          FurthestAt(a, b, snap, d, off, n, m, k);
        }
        ParGap(k, n - m, d);
      }
      ParStep(k, d);
      k := k + 2;
    }
    SweptAll(a, b, snap, v[..], d, k, off);
    return false;
  }

  /**
   * w is v part way through round d: the diagonals of the round below k
   * hold their new furthest points, every other entry is as before.
   */
  ghost predicate Swept<T>(a: seq<T>, b: seq<T>, snap: seq<int>, w: seq<int>, d: int, k: int, off: int) {
    1 <= off && 0 <= d <= off && |snap| == 2 * off + 1 && |w| == |snap| &&
    forall j {:trigger w[j]} | 0 <= j < |w| ::
      w[j] == (if -d <= j - off <= d && j - off < k && Par(j - off, d) then Reach(a, b, snap, d, j - off, off) else snap[j])
  }

  /** One turn of the k loop: the furthest point of round d on diagonal k, stored in v. */
  method Visit<T(==)>(a: seq<T>, b: seq<T>, v: array<int>, d: int, k: int, off: int, ghost snap: seq<int>)
    returns (x: int)
    requires Swept(a, b, snap, v[..], d, k, off) && -d <= k <= d && Par(k, d)
    requires d == 0 ==> snap[off + 1] == 0
    requires d > 0 ==> Layer(a, b, snap, d - 1, off)
    modifies v
    ensures Swept(a, b, snap, v[..], d, k + 2, off)
    ensures x == Reach(a, b, snap, d, k, off)
  {
    assert !Par(k - 1, d) && !Par(k + 1, d);
    assert 0 <= k - 1 + off ==> v[k - 1 + off] == snap[k - 1 + off];
    assert k + 1 + off < v.Length ==> v[k + 1 + off] == snap[k + 1 + off];
    MidPoint(a, b, snap, d, k, off);
    x := Advance(a, b, v, d, k, off, snap);
    Store(a, b, v, d, k, off, snap, x);
  }

  /** The store v[k + off] := x that ends one turn of the k loop. */
  method Store<T>(a: seq<T>, b: seq<T>, v: array<int>, d: int, k: int, off: int, ghost snap: seq<int>, x: int)
    requires Swept(a, b, snap, v[..], d, k, off) && -d <= k <= d && Par(k, d)
    requires x == Reach(a, b, snap, d, k, off)
    modifies v
    ensures Swept(a, b, snap, v[..], d, k + 2, off)
  {
    assert !Par(k + 1, d);
    v[k + off] := x;
  }

  lemma {:induction false} SweptAll<T>(a: seq<T>, b: seq<T>, snap: seq<int>, w: seq<int>, d: int, k: int, off: int)
    requires Swept(a, b, snap, w, d, k, off) && d < k
    ensures Follows(a, b, snap, w, d, off)
  {
    forall i | -d <= i <= d && Par(i, d) ensures VAt(w, off, i) == Reach(a, b, snap, d, i, off) {
      assert w[i + off] == Reach(a, b, snap, d, (i + off) - off, off);
    }
  }

  /**
   * The body of the k loop up to the store: land on diagonal k from the
   * neighbour diagonal of round d - 1, then follow the snake.
   */
  method Advance<T(==)>(a: seq<T>, b: seq<T>, v: array<int>, d: int, k: int, off: int, ghost snap: seq<int>)
    returns (x: int)
    requires Round(snap, d, k, off) && v.Length == |snap|
    requires 0 <= k - 1 + off ==> v[k - 1 + off] == snap[k - 1 + off]
    requires k + 1 + off < v.Length ==> v[k + 1 + off] == snap[k + 1 + off]
    requires 0 <= Mid(snap, d, k, off) && 0 <= Mid(snap, d, k, off) - k
    ensures x == Reach(a, b, snap, d, k, off)
  {
    var n, m := |a|, |b|;
    if k == -d || (k != d && v[k - 1 + off] < v[k + 1 + off]) {
      x := v[k + 1 + off];
    } else {
      x := v[k - 1 + off] + 1;
    }
    ghost var mid := Mid(snap, d, k, off);
    assert x == mid;
    var y := x - k;
    while x < n && y < m && a[x] == b[y]
      invariant 0 <= x && 0 <= y == x - k
      invariant SnakeEnd(a, b, x, k) == SnakeEnd(a, b, mid, k)
      decreases n - x
    {
      x := x + 1;
      y := y + 1;
    }
  }

  /** A round that reaches (n, m) on diagonal k is the round of a shortest script. */
  lemma {:induction false} ReachesEnd<T>(a: seq<T>, b: seq<T>, snap: seq<int>, d: int, k: int, off: int)
    requires Round(snap, d, k, off) && Par(k, d)
    requires d == 0 ==> snap[off + 1] == 0
    requires d > 0 ==> Layer(a, b, snap, d - 1, off)
    requires d <= Dist(a, b, |a|, |b|)
    requires Reach(a, b, snap, d, k, off) >= |a| && Reach(a, b, snap, d, k, off) - k >= |b|
    ensures d == Dist(a, b, |a|, |b|) && k == |a| - |b| && |a| == Reach(a, b, snap, d, |a| - |b|, off)
  {
    var x := Reach(a, b, snap, d, k, off);
    MidPoint(a, b, snap, d, k, off);
    SnakeDist(a, b, Mid(snap, d, k, off), k);
    TerminalPoint(a, b, x, x - k, d);
  }

  /** tail, the edits emitted so far in script order, covers a[x..] and b[y..]. */
  ghost predicate Tail<T>(a: seq<T>, b: seq<T>, tail: seq<Edit<T>>, x: int, y: int) {
    0 <= x <= |a| && 0 <= y <= |b| && Transforms(tail, a[x..], b[y..]) && Positioned(tail, x, y)
  }

  /** backtrack emits e, which ends at (x, y); in script order it goes in front of tail. */
  lemma {:induction false} Emit<T>(a: seq<T>, b: seq<T>, tail: seq<Edit<T>>, x: int, y: int, e: Edit<T>,
                                   tail': seq<Edit<T>>, x': int, y': int)
    requires Tail(a, b, tail, x, y) && tail' == [e] + tail
    requires e.kind != Insert ==> e.oldPos + 1 == x && 0 <= e.oldPos && a[e.oldPos] == e.text
    requires e.kind != Delete ==> e.newPos + 1 == y && 0 <= e.newPos && b[e.newPos] == e.text
    requires x' == x - |OldOf(e)| && y' == y - |NewOf(e)|
    ensures Tail(a, b, tail', x', y')
    ensures Changes(tail') == Changes(tail) + (if e.kind == Equal then 0 else 1)
  {
    StepSides(a, b, tail, x, y, e);
    StepPositioned(tail, x, y, e);
    SidesOne(e);
    SidesConcat([e], tail);
  }

  /**
   * backtrack's state after x, y have been unwound from (|a|, |b|):
   * edits, in the order backtrack appends them, reverse to tail, the
   * script from (x, y) to the end, which holds c changes.
   */
  ghost predicate Unwound<T>(a: seq<T>, b: seq<T>, edits: seq<Edit<T>>, tail: seq<Edit<T>>, x: int, y: int, c: int) {
    tail == Reverse(edits) && Tail(a, b, tail, x, y) && Changes(tail) == c
  }

  /** Appends e to backtrack's edit list, keeping tail its reverse. */
  method Push<T>(a: seq<T>, b: seq<T>, edits: seq<Edit<T>>, ghost tail: seq<Edit<T>>, x: int, y: int,
                 ghost c: int, e: Edit<T>, x': int, y': int)
    returns (edits': seq<Edit<T>>, ghost tail': seq<Edit<T>>)
    requires Unwound(a, b, edits, tail, x, y, c)
    requires e.kind != Insert ==> e.oldPos + 1 == x && 0 <= e.oldPos && a[e.oldPos] == e.text
    requires e.kind != Delete ==> e.newPos + 1 == y && 0 <= e.newPos && b[e.newPos] == e.text
    requires x' == x - |OldOf(e)| && y' == y - |NewOf(e)|
    ensures edits' == edits + [e] && Unwound(a, b, edits', tail', x', y', c + (if e.kind == Equal then 0 else 1))
  {
    ReverseSnoc(edits, e);
    edits', tail' := edits + [e], [e] + tail;
    Emit(a, b, tail, x, y, e, tail', x', y');
  }

  lemma {:induction false} TailStart<T>(a: seq<T>, b: seq<T>)
    ensures Tail(a, b, [], |a|, |b|) && Changes<T>([]) == 0
  {
    assert a[|a|..] == [] && b[|b|..] == [];
  }

  lemma {:induction false} TailDone<T>(a: seq<T>, b: seq<T>, tail: seq<Edit<T>>)
    requires Tail(a, b, tail, 0, 0)
    ensures Transforms(tail, a, b) && Positioned(tail, 0, 0)
  {
    assert a[0..] == a && b[0..] == b;
  }

  /**
   * The move backtrack undoes in round d on diagonal k: it came from
   * diagonal prevK of round d - 1, whose point is stored in trace[d].
   */
  lemma {:induction false} BackLanding<T>(a: seq<T>, b: seq<T>, trace: seq<seq<int>>, d: int, dp: int, k: int, off: int, prevK: int)
    requires Traced(a, b, trace, off) && 1 <= d < |trace| && dp == d - 1 && -d <= k <= d && Par(k, d)
    requires prevK == if Down(trace[d], d, k, off) then k + 1 else k - 1
    ensures -dp <= prevK <= dp && Par(prevK, dp)
    ensures 0 <= VAt(trace[d], off, prevK) && 0 <= VAt(trace[d], off, prevK) - prevK
    ensures VAt(trace[d], off, prevK) == Reach(a, b, trace[dp], dp, prevK, off)
    ensures Mid(trace[d], d, k, off) == VAt(trace[d], off, prevK) + (if prevK == k + 1 then 0 else 1)
  {
    assert Recorded(a, b, trace, d, off);
  }

  /**
   * backtrack: from (n, m) back through the rounds recorded in trace,
   * emitting edits last to first, then reverseEdits. Each round undoes its
   * snake (Equal edits) and then one Insert or Delete; the snake of round 0
   * is emitted last. Like the source, an Insert carries oldPos 0 and a
   * Delete newPos 0.
   */
  method Backtrack<T(==)>(a: seq<T>, b: seq<T>, trace: seq<seq<int>>, d0: int, off: int) returns (es: seq<Edit<T>>)
    requires Traced(a, b, trace, off) && |trace| == d0 + 1 && 0 <= d0
    requires -d0 <= |a| - |b| <= d0 && Par(|a| - |b|, d0)
    requires |a| == Reach(a, b, trace[d0], d0, |a| - |b|, off)
    ensures Transforms(es, a, b) && Positioned(es, 0, 0) && Changes(es) == d0
  {
    var x, y, edits, tail := UnwindRounds(a, b, trace, d0, off);
    edits, tail := UnwindFirstSnake(a, b, edits, tail, x, y, d0);
    TailDone(a, b, tail);
    es := ReversedCopy(edits);
  }

  /** reverseEdits applied to backtrack's slice. */
  method ReversedCopy<T>(edits: seq<Edit<T>>) returns (es: seq<Edit<T>>)
    ensures es == Reverse(edits)
  {
    var arr := new Edit<T>[|edits|](i requires 0 <= i < |edits| => edits[i]);
    assert arr[..] == edits;
    ReverseEdits(arr);
    es := arr[..];
  }

  /** backtrack's loop over d, down to round 0. */
  method UnwindRounds<T(==)>(a: seq<T>, b: seq<T>, trace: seq<seq<int>>, d0: int, off: int)
    returns (x: int, y: int, edits: seq<Edit<T>>, ghost tail: seq<Edit<T>>)
    requires Traced(a, b, trace, off) && |trace| == d0 + 1 && 0 <= d0
    requires -d0 <= |a| - |b| <= d0 && Par(|a| - |b|, d0)
    requires |a| == Reach(a, b, trace[d0], d0, |a| - |b|, off)
    ensures x == y && x == SnakeEnd(a, b, 0, 0)
    ensures Unwound(a, b, edits, tail, x, y, d0)
  {
    var n, m := |a|, |b|;
    edits := [];
    tail := [];
    x, y := n, m;
    ghost var k := n - m;
    var d := d0;
    ghost var c := 0;
    TailStart(a, b);
    while d > 0
      invariant 0 <= d <= d0 && c == d0 - d
      invariant k == x - y && -d <= k <= d && Par(k, d)
      invariant x == Reach(a, b, trace[d], d, k, off)
      invariant Unwound(a, b, edits, tail, x, y, c)
    {
      x, y, k, edits, tail, d, c := BackRound(a, b, trace, d, off, x, y, k, edits, tail, c);
    }
    RoundZero(a, b, trace, off);
  }

  /** Round 0 starts at the origin: its point is the end of the first snake. */
  lemma {:induction false} RoundZero<T>(a: seq<T>, b: seq<T>, trace: seq<seq<int>>, off: int)
    requires Traced(a, b, trace, off) && 0 < |trace|
    ensures Round(trace[0], 0, 0, off) && Reach(a, b, trace[0], 0, 0, off) == SnakeEnd(a, b, 0, 0)
  {
  }

  /** backtrack's last loop: the Equal edits of the snake of round 0. */
  method UnwindFirstSnake<T(==)>(a: seq<T>, b: seq<T>, edits: seq<Edit<T>>, ghost tail: seq<Edit<T>>,
                                 x: int, y: int, ghost c: int)
    returns (edits': seq<Edit<T>>, ghost tail': seq<Edit<T>>)
    requires x == y && x == SnakeEnd(a, b, 0, 0)
    requires Unwound(a, b, edits, tail, x, y, c)
    ensures Unwound(a, b, edits', tail', 0, 0, c)
  {
    var i, j := x, y;
    edits', tail' := edits, tail;
    while i > 0 && j > 0
      invariant 0 <= i <= x && i == j
      invariant Unwound(a, b, edits', tail', i, j, c)
    {
      i, j, edits', tail' := SnakeStep(a, b, edits', tail', i, j, c, 0, 0);
    }
  }

  /**
   * One turn of backtrack's loop over d: find the diagonal round d came
   * from, undo the snake, then the Insert (x == prevX) or the Delete.
   * edits grows at the end; tail is the same edits in script order.
   */
  method BackRound<T(==)>(a: seq<T>, b: seq<T>, trace: seq<seq<int>>, d: int, off: int, x: int, y: int, ghost k: int,
                          edits: seq<Edit<T>>, ghost tail: seq<Edit<T>>, ghost c: int)
    returns (x': int, y': int, ghost k': int, edits': seq<Edit<T>>, ghost tail': seq<Edit<T>>, d': int, ghost c': int)
    requires Traced(a, b, trace, off) && 1 <= d < |trace|
    requires k == x - y && -d <= k <= d && Par(k, d)
    requires x == Reach(a, b, trace[d], d, k, off)
    requires Unwound(a, b, edits, tail, x, y, c)
    ensures d' == d - 1 && c' == c + 1
    ensures k' == x' - y' && -d' <= k' <= d' && Par(k', d')
    ensures x' == Reach(a, b, trace[d'], d', k', off)
    ensures Unwound(a, b, edits', tail', x', y', c')
  {
    d', c' := d - 1, c + 1;
    var prevK, prevX, prevY, mid := PrevPoint(a, b, trace, d, d', off, x, y, k);
    x', y', edits', tail' := Unwind(a, b, edits, tail, x, y, c, k, prevX, prevY, mid);
    k' := prevK;
  }

  /**
   * The point on diagonal prevK where round d - 1 ended and from which
   * round d reached (x, y); mid is where round d's snake began.
   */
  method PrevPoint<T(==)>(a: seq<T>, b: seq<T>, trace: seq<seq<int>>, d: int, dp: int, off: int, x: int, y: int, ghost k0: int)
    returns (prevK: int, prevX: int, prevY: int, ghost mid: int)
    requires Traced(a, b, trace, off) && 1 <= d < |trace| && dp == d - 1
    requires k0 == x - y && -d <= k0 <= d && Par(k0, d)
    requires x == Reach(a, b, trace[d], d, k0, off)
    ensures -dp <= prevK <= dp && Par(prevK, dp) && prevY == prevX - prevK
    ensures prevX == Reach(a, b, trace[dp], dp, prevK, off)
    ensures 0 <= prevX && 0 <= prevY && mid <= x <= SnakeEnd(a, b, mid, k0)
    ensures (prevX == mid && prevY == mid - k0 - 1) || (prevX == mid - 1 && prevY == mid - k0)
  {
    var v := trace[d];
    var k := x - y;
    assert k == k0;
    if k == -d || (k != d && v[k - 1 + off] < v[k + 1 + off]) {
      prevK := k + 1;
    } else {
      prevK := k - 1;
    }
    prevX := v[prevK + off];
    prevY := prevX - prevK;
    BackLanding(a, b, trace, d, dp, k, off, prevK);
    mid := Mid(v, d, k, off);
  }

  /**
   * Undoes one round: the snake from (x, y) back to mid, then the Insert
   * (x == prevX) or the Delete that led onto it.
   */
  method Unwind<T(==)>(a: seq<T>, b: seq<T>, edits: seq<Edit<T>>, ghost tail: seq<Edit<T>>,
                       x: int, y: int, ghost c: int, ghost k: int, prevX: int, prevY: int, ghost mid: int)
    returns (x': int, y': int, edits': seq<Edit<T>>, ghost tail': seq<Edit<T>>)
    requires y == x - k && mid <= x <= SnakeEnd(a, b, mid, k) && 0 <= prevX && 0 <= prevY
    requires (prevX == mid && prevY == mid - k - 1) || (prevX == mid - 1 && prevY == mid - k)
    requires Unwound(a, b, edits, tail, x, y, c)
    ensures x' == prevX && y' == prevY
    ensures Unwound(a, b, edits', tail', x', y', c + 1)
  {
    x', y', edits', tail' := WalkBack(a, b, edits, tail, x, y, c, k, prevX, prevY, mid);
    if x' == prevX {
      y', edits', tail' := UndoInsert(a, b, edits', tail', x', y', c);
    } else {
      x', edits', tail' := UndoDelete(a, b, edits', tail', x', y', c);
    }
  }

  /** The Insert that ends at (x, y): it writes new line y - 1. */
  method UndoInsert<T(==)>(a: seq<T>, b: seq<T>, edits: seq<Edit<T>>, ghost tail: seq<Edit<T>>, x: int, y: int, ghost c: int)
    returns (y': int, edits': seq<Edit<T>>, ghost tail': seq<Edit<T>>)
    requires Unwound(a, b, edits, tail, x, y, c) && 0 < y
    ensures y' == y - 1 && Unwound(a, b, edits', tail', x, y', c + 1)
  {
    edits', tail' := Push(a, b, edits, tail, x, y, c, Edit(Insert, 0, y - 1, b[y - 1]), x, y - 1);
    y' := y - 1;
  }

  /** The Delete that ends at (x, y): it drops old line x - 1. */
  method UndoDelete<T(==)>(a: seq<T>, b: seq<T>, edits: seq<Edit<T>>, ghost tail: seq<Edit<T>>, x: int, y: int, ghost c: int)
    returns (x': int, edits': seq<Edit<T>>, ghost tail': seq<Edit<T>>)
    requires Unwound(a, b, edits, tail, x, y, c) && 0 < x
    ensures x' == x - 1 && Unwound(a, b, edits', tail', x', y, c + 1)
  {
    edits', tail' := Push(a, b, edits, tail, x, y, c, Edit(Delete, x - 1, 0, a[x - 1]), x - 1, y);
    x' := x - 1;
  }

  /** The Equal edits of one snake, from its end x back to its start mid. */
  method WalkBack<T(==)>(a: seq<T>, b: seq<T>, edits: seq<Edit<T>>, ghost tail: seq<Edit<T>>,
                         x: int, y: int, ghost c: int, ghost k: int, prevX: int, prevY: int, ghost mid: int)
    returns (x': int, y': int, edits': seq<Edit<T>>, ghost tail': seq<Edit<T>>)
    requires y == x - k && mid <= x <= SnakeEnd(a, b, mid, k)
    requires (prevX == mid && prevY == mid - k - 1) || (prevX == mid - 1 && prevY == mid - k)
    requires Unwound(a, b, edits, tail, x, y, c)
    ensures x' == mid && y' == mid - k
    ensures Unwound(a, b, edits', tail', x', y', c)
  {
    x', y', edits', tail' := x, y, edits, tail;
    while x' > prevX && y' > prevY
      invariant mid <= x' <= SnakeEnd(a, b, mid, k) && y' == x' - k
      invariant Unwound(a, b, edits', tail', x', y', c)
    {
      x', y', edits', tail' := SnakeStep(a, b, edits', tail', x', y', c, k, mid);
    }
  }

  /** One turn of the walk back along a snake: the Equal edit that ends at (x, y). */
  method SnakeStep<T(==)>(a: seq<T>, b: seq<T>, edits: seq<Edit<T>>, ghost tail: seq<Edit<T>>,
                          x: int, y: int, ghost c: int, ghost k: int, ghost mid: int)
    returns (x': int, y': int, edits': seq<Edit<T>>, ghost tail': seq<Edit<T>>)
    requires y == x - k && mid < x <= SnakeEnd(a, b, mid, k)
    requires Unwound(a, b, edits, tail, x, y, c)
    ensures x' == x - 1 && y' == y - 1
    ensures Unwound(a, b, edits', tail', x', y', c)
  {
    SnakeMatches(a, b, mid, k, x - 1);
    var e := Edit(Equal, x - 1, y - 1, a[x - 1]);
    edits', tail' := Push(a, b, edits, tail, x, y, c, e, x - 1, y - 1);
    x', y' := x - 1, y - 1;
  }

  /**
   * myersDiff: rounds d = 0, 1, ... of the furthest-reaching search, each
   * preceded by a copy of v into trace, until a round reaches (n, m); then
   * backtrack. The script found has exactly as many insertions and
   * deletions as a shortest one, so it keeps Lcs(a, b) lines. The source
   * indexes v[1] in round 0, out of range when both sides are empty.
   */
  method MyersDiff<T(==)>(a: seq<T>, b: seq<T>) returns (es: seq<Edit<T>>)
    requires |a| + |b| > 0
    ensures Script(es, a, b, 0, 0, Lcs(a, b))
  {
    var n, m := |a|, |b|;
    var max := n + m;
    var vSize := 2 * max + 1;
    var v := new int[vSize](_ => 0);
    var trace: seq<seq<int>> := [];
    var off := max;
    DistFinal(a, b);
    ghost var e := Dist(a, b, n, m);
    var d := 0;
    while d <= max
      invariant 0 <= d <= e && v.Length == vSize && |trace| == d
      invariant Traced(a, b, trace, off)
      invariant d == 0 ==> v[off + 1] == 0
      invariant d > 0 ==> Layer(a, b, v[..], d - 1, off) && Follows(a, b, trace[d - 1], v[..], d - 1, off)
    {
      TracedSnoc(a, b, trace, v[..], off);
      trace := trace + [v[..]];
      var hit := Sweep(a, b, v, d, off, trace[d]);
      if hit {
        es := Backtrack(a, b, trace, d, off);
        SidesLength(es);
        return;
      }
      NextLayer(a, b, trace[d], v[..], d, off);
      d := d + 1;
    }
    assert false;
    es := [];
  }

  // ---------------------------------------------------------------------
  // Diff

  /** Edits shifted by d lines on both sides (the offset fix-up for the middle). */
  function ShiftEdit<T(==)>(e: Edit<T>, d: int): Edit<T> {
    e.(oldPos := e.oldPos + d, newPos := e.newPos + d)
  }

  function Shifted<T(==)>(es: seq<Edit<T>>, d: int): (r: seq<Edit<T>>)
    ensures |r| == |es|
  {
    if |es| == 0 then [] else Shifted(es[..|es| - 1], d) + [ShiftEdit(es[|es| - 1], d)]
  }

  lemma {:induction false} ShiftSides<T>(es: seq<Edit<T>>, d: int)
    ensures OldSide(Shifted(es, d)) == OldSide(es) && NewSide(Shifted(es, d)) == NewSide(es)
    ensures EqualCount(Shifted(es, d)) == EqualCount(es)
    decreases |es|
  {
    if |es| > 0 {
      var es', e := es[..|es| - 1], es[|es| - 1];
      ShiftSides(es', d);
      SidesConcat(Shifted(es', d), [ShiftEdit(e, d)]);
      SidesOne(ShiftEdit(e, d));
    }
  }

  lemma {:induction false} ShiftPositioned<T>(es: seq<Edit<T>>, d: int, i0: int, j0: int)
    requires Positioned(es, i0, j0)
    ensures Positioned(Shifted(es, d), i0 + d, j0 + d)
    decreases |es|
  {
    if |es| > 0 {
      var es', e := es[..|es| - 1], es[|es| - 1];
      ShiftPositioned(es', d, i0, j0);
      ShiftSides(es', d);
      ShiftLast(es', Shifted(es', d), e, d, i0, j0);
    }
  }

  /** The step of ShiftPositioned: the shifted last edit sits after the shifted init. */
  lemma {:induction false} ShiftLast<T>(p: seq<Edit<T>>, q: seq<Edit<T>>, e: Edit<T>, d: int, i0: int, j0: int)
    requires Positioned(q, i0 + d, j0 + d)
    requires |OldSide(q)| == |OldSide(p)| && |NewSide(q)| == |NewSide(p)|
    requires At(e, i0 + |OldSide(p)|, j0 + |NewSide(p)|)
    ensures Positioned(q + [ShiftEdit(e, d)], i0 + d, j0 + d)
  {
    SnocAppend(q, [ShiftEdit(e, d)]);
    PositionedIntro(q + [ShiftEdit(e, d)], i0 + d, j0 + d);
  }

  /** Shifting edit i of the partly shifted script extends the shifted prefix by one. */
  lemma {:induction false} ShiftStep<T>(es: seq<Edit<T>>, d: int, i: nat)
    requires i < |es|
    ensures (Shifted(es[..i], d) + es[i..])[i] == es[i]
    ensures (Shifted(es[..i], d) + es[i..])[i := ShiftEdit(es[i], d)] == Shifted(es[..i + 1], d) + es[i + 1..]
  {
    assert es[..i + 1][..i] == es[..i];
  }

  /** The offset loop over the middle's edits, updating each in place. */
  method ShiftAll<T(==)>(es: seq<Edit<T>>, d: int) returns (r: seq<Edit<T>>)
    ensures r == Shifted(es, d)
  {
    r := es;
    var i := 0;
    assert es[..0] == [] && es[0..] == es;
    while i < |r|
      invariant 0 <= i <= |es| && r == Shifted(es[..i], d) + es[i..]
    {
      ShiftStep(es, d, i);
      r := r[i := ShiftEdit(r[i], d)];
      i := i + 1;
    }
    assert es[..|es|] == es && es[|es|..] == [];
  }


  /** One Insert per line, new positions from `nj`; the old position stays 0. */
  method InsertAll<T(==)>(lines: seq<T>, ghost oi: int, nj: int) returns (es: seq<Edit<T>>)
    ensures Script(es, [], lines, oi, nj, 0)
  {
    es := [];
    var i := 0;
    while i < |lines|
      invariant 0 <= i <= |lines|
      invariant Script(es, [], lines[..i], oi, nj, 0)
    {
      var e := Edit(Insert, 0, nj + i, lines[i]);
      InsertStep(es, lines, i, oi, nj);
      es := es + [e];
      i := i + 1;
    }
    assert lines[..|lines|] == lines;
  }

  lemma {:induction false} InsertStep<T>(es: seq<Edit<T>>, lines: seq<T>, i: nat, oi: int, nj: int)
    requires i < |lines|
    requires Script(es, [], lines[..i], oi, nj, 0)
    ensures Script(es + [Edit(Insert, 0, nj + i, lines[i])], [], lines[..i + 1], oi, nj, 0)
  {
    AppendStep(es, Edit(Insert, 0, nj + i, lines[i]), [], lines[..i], oi, nj);
    assert lines[..i + 1] == lines[..i] + [lines[i]];
  }

  /** One Delete per line, old positions from `oi`; the new position stays 0. */
  method DeleteAll<T(==)>(lines: seq<T>, oi: int, ghost nj: int) returns (es: seq<Edit<T>>)
    ensures Script(es, lines, [], oi, nj, 0)
  {
    es := [];
    var i := 0;
    while i < |lines|
      invariant 0 <= i <= |lines|
      invariant Script(es, lines[..i], [], oi, nj, 0)
    {
      var e := Edit(Delete, oi + i, 0, lines[i]);
      DeleteStep(es, lines, i, oi, nj);
      es := es + [e];
      i := i + 1;
    }
    assert lines[..|lines|] == lines;
  }

  lemma {:induction false} DeleteStep<T>(es: seq<Edit<T>>, lines: seq<T>, i: nat, oi: int, nj: int)
    requires i < |lines|
    requires Script(es, lines[..i], [], oi, nj, 0)
    ensures Script(es + [Edit(Delete, oi + i, 0, lines[i])], lines[..i + 1], [], oi, nj, 0)
  {
    AppendStep(es, Edit(Delete, oi + i, 0, lines[i]), lines[..i], [], oi, nj);
    assert lines[..i + 1] == lines[..i] + [lines[i]];
  }

  /** One Equal per line of a common run starting at (oi, nj). */
  method EqualRun<T(==)>(lines: seq<T>, oi: int, nj: int) returns (es: seq<Edit<T>>)
    ensures Script(es, lines, lines, oi, nj, |lines|)
  {
    es := [];
    var i := 0;
    while i < |lines|
      invariant 0 <= i <= |lines|
      invariant Script(es, lines[..i], lines[..i], oi, nj, i)
    {
      var e := Edit(Equal, oi + i, nj + i, lines[i]);
      EqualStep(es, lines, i, oi, nj);
      es := es + [e];
      i := i + 1;
    }
    assert lines[..|lines|] == lines;
  }

  lemma {:induction false} EqualStep<T>(es: seq<Edit<T>>, lines: seq<T>, i: nat, oi: int, nj: int)
    requires i < |lines|
    requires Script(es, lines[..i], lines[..i], oi, nj, i)
    ensures Script(es + [Edit(Equal, oi + i, nj + i, lines[i])], lines[..i + 1], lines[..i + 1], oi, nj, i + 1)
  {
    AppendStep(es, Edit(Equal, oi + i, nj + i, lines[i]), lines[..i], lines[..i], oi, nj);
    assert lines[..i + 1] == lines[..i] + [lines[i]];
  }

  /** a and b agree on their first p elements. */
  predicate IsCommonPrefix<T(==)>(a: seq<T>, b: seq<T>, p: nat) {
    p <= |a| && p <= |b| && a[..p] == b[..p]
  }

  /** a and b agree on their last s elements. */
  predicate IsCommonSuffix<T(==)>(a: seq<T>, b: seq<T>, s: nat) {
    s <= |a| && s <= |b| && a[|a| - s..] == b[|b| - s..]
  }

  /** Length of the longest common prefix. */
  method CommonPrefix<T(==)>(a: seq<T>, b: seq<T>) returns (p: nat)
    ensures IsCommonPrefix(a, b, p)
    ensures p < |a| && p < |b| ==> a[p] != b[p]
  {
    p := 0;
    var minLen := if |b| < |a| then |b| else |a|;
    while p < minLen && a[p] == b[p]
      invariant 0 <= p <= minLen
      invariant a[..p] == b[..p]
    {
      assert a[..p + 1] == a[..p] + [a[p]] && b[..p + 1] == b[..p] + [b[p]];
      p := p + 1;
    }
  }

  /** Length of the longest common suffix that does not overlap a prefix of length p. */
  method CommonSuffix<T(==)>(a: seq<T>, b: seq<T>, p: nat) returns (s: nat)
    requires p <= |a| && p <= |b|
    ensures p + s <= |a| && p + s <= |b| && IsCommonSuffix(a, b, s)
    ensures p + s < |a| && p + s < |b| ==> a[|a| - 1 - s] != b[|b| - 1 - s]
  {
    var n, m := |a|, |b|;
    var minLen := if m < n then m else n;
    s := 0;
    while s < minLen - p && a[n - 1 - s] == b[m - 1 - s]
      invariant 0 <= s <= minLen - p
      invariant a[n - s..] == b[m - s..]
    {
      assert a[n - (s + 1)..] == [a[n - 1 - s]] + a[n - s..];
      assert b[m - (s + 1)..] == [b[m - 1 - s]] + b[m - s..];
      s := s + 1;
    }
  }

  lemma {:induction false} LcsTrimmed<T>(a: seq<T>, b: seq<T>, p: nat, s: nat)
    requires p + s <= |a| && p + s <= |b|
    requires IsCommonPrefix(a, b, p) && IsCommonSuffix(a, b, s)
    ensures Lcs(a, b) == p + s + Lcs(a[p..|a| - s], b[p..|b| - s])
  {
    var pre, suf := a[..p], a[|a| - s..];
    var x, y := a[p..|a| - s], b[p..|b| - s];
    assert a == pre + (x + suf);
    assert b == pre + (y + suf);
    LcsCommonPrefix(pre, x + suf, y + suf);
    LcsCommonSuffix(x, y, suf);
  }

  /**
   * Diff: a shortest edit script from oldLines to newLines. Both empty give
   * no edits; one empty side gives only insertions or only deletions; the
   * common prefix and suffix become Equal edits around the middle's script.
   */
  method Diff<T(==)>(oldLines: seq<T>, newLines: seq<T>) returns (edits: seq<Edit<T>>)
    ensures Script(edits, oldLines, newLines, 0, 0, Lcs(oldLines, newLines))
  {
    var n, m := |oldLines|, |newLines|;
    if n == 0 && m == 0 {
      return [];
    }
    if n == 0 {
      edits := InsertAll(newLines, 0, 0);
      return;
    }
    if m == 0 {
      edits := DeleteAll(oldLines, 0, 0);
      return;
    }
    var prefixLen := CommonPrefix(oldLines, newLines);
    var suffixLen := CommonSuffix(oldLines, newLines, prefixLen);
    var prefix, suffix := oldLines[..prefixLen], oldLines[n - suffixLen..];
    var oldMid := oldLines[prefixLen..n - suffixLen];
    var newMid := newLines[prefixLen..m - suffixLen];
    edits := Trimmed(prefix, oldMid, newMid, suffix);
    ghost var eq := |prefix| + Lcs(oldMid, newMid) + |suffix|;
    Rejoin(edits, oldLines, newLines, prefixLen, suffixLen, prefix, oldMid, newMid, suffix, eq);
  }

  /**
   * Equal edits for a common prefix and suffix around the script of the
   * middle parts.
   */
  method Trimmed<T(==)>(prefix: seq<T>, oldMid: seq<T>, newMid: seq<T>, suffix: seq<T>)
    returns (edits: seq<Edit<T>>)
    ensures Script(edits, prefix + oldMid + suffix, prefix + newMid + suffix, 0, 0,
                   |prefix| + Lcs(oldMid, newMid) + |suffix|)
  {
    var p := |prefix|;
    var op, np := p + |oldMid|, p + |newMid|;
    var midEdits := Middle(oldMid, newMid, p);
    var head := EqualRun(prefix, 0, 0);
    var tailEdits := EqualRun(suffix, op, np);
    Concat3(head, midEdits, tailEdits, prefix, oldMid, suffix, prefix, newMid, suffix,
            p, Lcs(oldMid, newMid), |suffix|, p, p, op, np);
    edits := head + midEdits + tailEdits;
  }

  /** A script over the three parts of the trimmed files is a script over the files. */
  lemma {:induction false} Rejoin<T>(es: seq<Edit<T>>, a: seq<T>, b: seq<T>, p: nat, s: nat,
                                     prefix: seq<T>, oldMid: seq<T>, newMid: seq<T>, suffix: seq<T>, eq: int)
    requires p + s <= |a| && p + s <= |b|
    requires IsCommonPrefix(a, b, p) && IsCommonSuffix(a, b, s)
    requires prefix == a[..p] && suffix == a[|a| - s..]
    requires oldMid == a[p..|a| - s] && newMid == b[p..|b| - s]
    requires eq == |prefix| + Lcs(oldMid, newMid) + |suffix|
    requires Script(es, prefix + oldMid + suffix, prefix + newMid + suffix, 0, 0, eq)
    ensures Script(es, a, b, 0, 0, Lcs(a, b))
  {
    SplitThree(a, p, s);
    SplitThree(b, p, s);
    LcsTrimmed(a, b, p, s);
  }

  lemma {:induction false} SplitThree<T>(a: seq<T>, p: nat, s: nat)
    requires p + s <= |a|
    ensures a == a[..p] + a[p..|a| - s] + a[|a| - s..]
  {
  }

  /** The middle of Diff: the three cases after trimming prefix and suffix. */
  method Middle<T(==)>(oldMid: seq<T>, newMid: seq<T>, p: nat) returns (mid: seq<Edit<T>>)
    ensures Script(mid, oldMid, newMid, p, p, Lcs(oldMid, newMid))
  {
    if |oldMid| == 0 && |newMid| == 0 {
      mid := [];
    } else if |oldMid| == 0 {
      mid := InsertAll(newMid, p, p);
    } else if |newMid| == 0 {
      mid := DeleteAll(oldMid, p, p);
    } else {
      var raw := MyersDiff(oldMid, newMid);
      mid := ShiftAll(raw, p);
      ShiftScript(raw, oldMid, newMid, p, Lcs(oldMid, newMid));
    }
  }

  lemma {:induction false} ShiftScript<T>(es: seq<Edit<T>>, a: seq<T>, b: seq<T>, d: int, eq: int)
    requires Script(es, a, b, 0, 0, eq)
    ensures Script(Shifted(es, d), a, b, d, d, eq)
  {
    ShiftSides(es, d);
    ShiftPositioned(es, d, 0, 0);
  }

  lemma {:induction false} ScriptConcat<T>(x: seq<Edit<T>>, y: seq<Edit<T>>, a1: seq<T>, b1: seq<T>, a2: seq<T>, b2: seq<T>,
                        i0: int, j0: int, e1: int, e2: int, i1: int, j1: int)
    requires i1 == i0 + |a1| && j1 == j0 + |b1|
    requires Script(x, a1, b1, i0, j0, e1) && Script(y, a2, b2, i1, j1, e2)
    ensures Script(x + y, a1 + a2, b1 + b2, i0, j0, e1 + e2)
  {
    SidesConcat(x, y);
    PositionedConcat(x, y, i0, j0, i1, j1);
  }

  lemma {:induction false} Concat3<T>(h: seq<Edit<T>>, m: seq<Edit<T>>, t: seq<Edit<T>>,
                   a1: seq<T>, a2: seq<T>, a3: seq<T>, b1: seq<T>, b2: seq<T>, b3: seq<T>,
                   e1: int, e2: int, e3: int, i1: int, j1: int, i2: int, j2: int)
    requires i1 == |a1| && j1 == |b1| && i2 == |a1| + |a2| && j2 == |b1| + |b2|
    requires Script(h, a1, b1, 0, 0, e1)
    requires Script(m, a2, b2, i1, j1, e2)
    requires Script(t, a3, b3, i2, j2, e3)
    ensures Script(h + m + t, a1 + a2 + a3, b1 + b2 + b3, 0, 0, e1 + e2 + e3)
  {
    ScriptConcat(h, m, a1, b1, a2, b2, 0, 0, e1, e2, i1, j1);
    ScriptConcat(h + m, t, a1 + a2, b1 + b2, a3, b3, 0, 0, e1 + e2, e3, i2, j2);
  }
}
