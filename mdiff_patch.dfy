/**
 * Applying hunks to the lines of a file (mdiff/patch.go).
 *
 * ApplyHunks sorts the hunks by old start line and tries three strategies
 * in turn: an exact forward merge, a forward merge that ignores trailing
 * blanks, and a fuzzy one-hunk-at-a-time application from the last hunk to
 * the first that searches up to MaxFuzz lines around each hunk's line number
 * and skips hunks it cannot place.
 */
module MdiffPatch {
  import opened GoStrings
  import opened MdiffDiff
  import opened MdiffHunks
  import opened Seqs

  /** maxFuzz: how far from its line number the fuzzy strategy looks for a hunk. */
  const MaxFuzz: nat := 100

  // ---------------------------------------------------------------------
  // Matching lines

  /** The three matchers: matchAt, matchAtLoose and matchAtNormalized. */
  datatype MatchMode = Exact | Loose | Normalized

  /** strings.TrimRight(s, " \t") */
  function TrimBlanks(s: string): string {
    TrimRightSet(s, {' ', '\t'})
  }

  predicate LinesMatch(mode: MatchMode, x: string, y: string) {
    match mode
    case Exact => x == y
    case Loose => TrimBlanks(x) == TrimBlanks(y)
    case Normalized => TrimSpace(x) == TrimSpace(y)
  }

  /** The pattern lies at position pos of lines, line by line as the mode compares them. */
  predicate MatchAt(mode: MatchMode, lines: seq<string>, pattern: seq<string>, pos: int) {
    0 <= pos && pos + |pattern| <= |lines|
    && forall i :: 0 <= i < |pattern| ==> LinesMatch(mode, lines[pos + i], pattern[i])
  }

  /** matchAt, matchAtLoose and matchAtNormalized, by mode. */
  method MatchAtLines(mode: MatchMode, lines: seq<string>, pattern: seq<string>, pos: int) returns (b: bool)
    ensures b == MatchAt(mode, lines, pattern, pos)
  {
    if pos < 0 || pos + |pattern| > |lines| {
      return false;
    }
    var i := 0;
    while i < |pattern|
      invariant 0 <= i <= |pattern|
      invariant forall k :: 0 <= k < i ==> LinesMatch(mode, lines[pos + k], pattern[k])
    {
      var same;
      match mode {
        case Exact => same := lines[pos + i] == pattern[i];
        case Loose => same := TrimBlanks(lines[pos + i]) == TrimBlanks(pattern[i]);
        case Normalized => same := TrimSpace(lines[pos + i]) == TrimSpace(pattern[i]);
      }
      if !same {
        return false;
      }
      i := i + 1;
    }
    return true;
  }

  /** Removing one trailing space does not change what TrimLeftSpace leaves, bar that space. */
  lemma {:induction false} TrimLeftSpaceInit(s: string)
    requires |s| > 0 && IsSpace(s[|s| - 1])
    ensures |TrimLeftSpace(s)| == 0 ==> TrimLeftSpace(s[..|s| - 1]) == ""
    ensures |TrimLeftSpace(s)| > 0 ==> TrimLeftSpace(s[..|s| - 1]) == TrimLeftSpace(s)[..|TrimLeftSpace(s)| - 1]
    decreases |s|
  {
    if IsSpace(s[0]) {
      if |s| > 1 {
        assert s[..|s| - 1][1..] == s[1..][..|s[1..]| - 1];
        TrimLeftSpaceInit(s[1..]);
      }
    }
  }

  /** A trailing space makes no difference to strings.TrimSpace. */
  lemma {:induction false} TrimSpaceDropSpace(s: string)
    requires |s| > 0 && IsSpace(s[|s| - 1])
    ensures TrimSpace(s) == TrimSpace(s[..|s| - 1])
  {
    var l := TrimLeftSpace(s);
    TrimLeftSpaceInit(s);
    TrimLeftSpaceSpec(s);
    if |l| > 0 {
      assert l[|l| - 1] == s[|s| - 1];
    }
  }

  /** strings.TrimSpace sees through a trimmed run of trailing blanks. */
  lemma {:induction false} TrimSpaceBlanks(s: string)
    ensures TrimSpace(TrimBlanks(s)) == TrimSpace(s)
    decreases |s|
  {
    if |s| > 0 && s[|s| - 1] in {' ', '\t'} {
      TrimSpaceBlanks(s[..|s| - 1]);
      TrimSpaceDropSpace(s);
    }
  }

  /** The matchers get weaker in the order ApplyHunks tries them: exact, loose, normalized. */
  lemma {:induction false} MatchModesWeaken(lines: seq<string>, pattern: seq<string>, pos: int)
    ensures MatchAt(Exact, lines, pattern, pos) ==> MatchAt(Loose, lines, pattern, pos)
    ensures MatchAt(Loose, lines, pattern, pos) ==> MatchAt(Normalized, lines, pattern, pos)
  {
    if MatchAt(Loose, lines, pattern, pos) {
      forall i | 0 <= i < |pattern|
        ensures LinesMatch(Normalized, lines[pos + i], pattern[i])
      {
        assert LinesMatch(Loose, lines[pos + i], pattern[i]);
        TrimSpaceBlanks(lines[pos + i]);
        TrimSpaceBlanks(pattern[i]);
      }
    }
  }

  // ---------------------------------------------------------------------
  // Searching near a line number

  function Dist(p: int, s: int): nat {
    if p >= s then p - s else s - p
  }

  /**
   * The order searchMatch tries positions in: the hint, then hint-1,
   * hint+1, hint-2, hint+2, and so on.
   */
  predicate TriedBefore(p: int, r: int, start: int) {
    Dist(p, start) < Dist(r, start) || (Dist(p, start) == Dist(r, start) && p < r)
  }

  /** One round of searchMatch's loop: hint - offset, then hint + offset, or -1. */
  function SearchStep(mode: MatchMode, lines: seq<string>, pattern: seq<string>, start: int, offset: nat): int {
    if start - offset >= 0 && MatchAt(mode, lines, pattern, start - offset) then start - offset
    else if start + offset <= |lines| - |pattern| && MatchAt(mode, lines, pattern, start + offset) then start + offset
    else -1
  }

  /** The rest of searchMatch's loop, from the given offset on. */
  function SearchFrom(mode: MatchMode, lines: seq<string>, pattern: seq<string>, start: int, offset: nat): int
    requires offset <= MaxFuzz + 1
    decreases MaxFuzz + 1 - offset
  {
    if offset > MaxFuzz then -1
    else if SearchStep(mode, lines, pattern, start, offset) >= 0 then SearchStep(mode, lines, pattern, start, offset)
    else SearchFrom(mode, lines, pattern, start, offset + 1)
  }

  /** searchMatch: the first matching position tried, or -1. */
  function Search(mode: MatchMode, lines: seq<string>, pattern: seq<string>, start: int): int {
    if MatchAt(mode, lines, pattern, start) then start else SearchFrom(mode, lines, pattern, start, 1)
  }

  lemma {:induction false} SearchFromSpec(mode: MatchMode, lines: seq<string>, pattern: seq<string>, start: int, offset: nat)
    requires 1 <= offset <= MaxFuzz + 1
    ensures var r := SearchFrom(mode, lines, pattern, start, offset);
      && (r >= 0 ==> MatchAt(mode, lines, pattern, r) && offset <= Dist(r, start) <= MaxFuzz)
      && (r >= 0 ==> forall p :: offset <= Dist(p, start) && TriedBefore(p, r, start) ==> !MatchAt(mode, lines, pattern, p))
      && (r < 0 ==> r == -1 && forall p :: offset <= Dist(p, start) <= MaxFuzz ==> !MatchAt(mode, lines, pattern, p))
    decreases MaxFuzz + 1 - offset
  {
    var a, b := start - offset, start + offset;
    var r := SearchFrom(mode, lines, pattern, start, offset);
    if offset > MaxFuzz {
    } else if a >= 0 && MatchAt(mode, lines, pattern, a) {
      assert SearchStep(mode, lines, pattern, start, offset) == a;
      assert r == a;
      forall p | offset <= Dist(p, start) && TriedBefore(p, r, start)
        ensures false
      {
        OnlyTwoAt(start, offset, p);
      }
    } else if b <= |lines| - |pattern| && MatchAt(mode, lines, pattern, b) {
      assert SearchStep(mode, lines, pattern, start, offset) == b;
      assert r == b;
      forall p | offset <= Dist(p, start) && TriedBefore(p, r, start)
        ensures p == a
      {
        OnlyTwoAt(start, offset, p);
      }
    } else {
      assert SearchStep(mode, lines, pattern, start, offset) == -1;
      assert r == SearchFrom(mode, lines, pattern, start, offset + 1);
      SearchFromSpec(mode, lines, pattern, start, offset + 1);
      assert !MatchAt(mode, lines, pattern, a) && !MatchAt(mode, lines, pattern, b);
      forall p | offset == Dist(p, start)
        ensures p == a || p == b
      {
        OnlyTwoAt(start, offset, p);
      }
    }
  }

  lemma OnlyTwoAt(start: int, offset: nat, p: int)
    requires Dist(p, start) == offset
    ensures p == start - offset || p == start + offset
  {
  }

  /**
   * searchMatch finds the first position, in the order it tries them, where
   * the pattern matches within MaxFuzz lines of the hint, and -1 means there
   * is none.
   */
  lemma {:induction false} SearchSpec(mode: MatchMode, lines: seq<string>, pattern: seq<string>, start: int)
    ensures var r := Search(mode, lines, pattern, start);
      && (r >= 0 ==> MatchAt(mode, lines, pattern, r) && Dist(r, start) <= MaxFuzz)
      && (r >= 0 ==> forall p :: TriedBefore(p, r, start) ==> !MatchAt(mode, lines, pattern, p))
      && (r < 0 ==> r == -1 && forall p :: Dist(p, start) <= MaxFuzz ==> !MatchAt(mode, lines, pattern, p))
  {
    var r := Search(mode, lines, pattern, start);
    if MatchAt(mode, lines, pattern, start) {
      assert r == start;
    } else {
      assert r == SearchFrom(mode, lines, pattern, start, 1);
      SearchFromSpec(mode, lines, pattern, start, 1);
      if r >= 0 {
        forall p | TriedBefore(p, r, start)
          ensures !MatchAt(mode, lines, pattern, p)
        {
          if Dist(p, start) == 0 {
            assert p == start;
          }
        }
      } else {
        forall p | Dist(p, start) <= MaxFuzz
          ensures !MatchAt(mode, lines, pattern, p)
        {
          if Dist(p, start) == 0 {
            assert p == start;
          }
        }
      }
    }
  }

  /** One round of searchMatch's loop: hint - offset, then hint + offset. */
  method TryOffset(mode: MatchMode, lines: seq<string>, pattern: seq<string>, start: int, offset: nat) returns (pos: int)
    requires 1 <= offset <= MaxFuzz
    ensures pos == SearchStep(mode, lines, pattern, start, offset)
  {
    pos := start - offset;
    if pos >= 0 {
      var m := MatchAtLines(mode, lines, pattern, pos);
      if m {
        return pos;
      }
    }
    pos := start + offset;
    if pos <= |lines| - |pattern| {
      var m := MatchAtLines(mode, lines, pattern, pos);
      if m {
        return pos;
      }
    }
    return -1;
  }

  /** searchMatch */
  method SearchMatch(mode: MatchMode, lines: seq<string>, pattern: seq<string>, start: int) returns (r: int)
    ensures r == Search(mode, lines, pattern, start)
  {
    var here := MatchAtLines(mode, lines, pattern, start);
    if here {
      return start;
    }
    var offset := 1;
    while offset <= MaxFuzz
      invariant 1 <= offset <= MaxFuzz + 1
      invariant SearchFrom(mode, lines, pattern, start, offset) == Search(mode, lines, pattern, start)
      decreases MaxFuzz + 1 - offset
    {
      var pos := TryOffset(mode, lines, pattern, start, offset);
      if pos >= 0 {
        return pos;
      }
      offset := offset + 1;
    }
    return -1;
  }

  // ---------------------------------------------------------------------
  // Splitting text into lines

  /** splitLines: a final newline ends the last line rather than starting an empty one. */
  function SplitLines(text: string): seq<string> {
    if text == "" then []
    else
      var t := TrimSuffix(text, "\n");
      if t == "" then [] else Split(t, '\n')
  }

  /** Joining the lines and restoring a final newline gives the text back, and no line holds a newline. */
  lemma {:induction false} SplitLinesJoin(text: string)
    ensures Join(SplitLines(text), '\n') + (if HasSuffix(text, "\n") then "\n" else "") == text
    ensures forall i :: 0 <= i < |SplitLines(text)| ==> '\n' !in SplitLines(text)[i]
  {
    var t := TrimSuffix(text, "\n");
    if text != "" && t != "" {
      JoinSplit(t, '\n');
      SplitNoSeparator(t, '\n');
    }
  }

  /** Lines without newlines, written out with a newline after each, split back into themselves. */
  lemma {:induction false} SplitLinesOfJoin(ls: seq<string>)
    requires ls != [""]
    requires forall i :: 0 <= i < |ls| ==> '\n' !in ls[i]
    ensures SplitLines(Join(ls, '\n') + "\n") == ls
  {
    var j := Join(ls, '\n');
    var text := j + "\n";
    assert HasSuffix(text, "\n");
    assert TrimSuffix(text, "\n") == j;
    if |ls| > 0 {
      if |ls| == 1 {
        assert j == ls[0];
      } else {
        assert |j| > 0;
      }
      SplitJoin(ls, '\n');
    }
  }

  // ---------------------------------------------------------------------
  // The forward strategy

  /** The 0-based line a hunk claims to start at, clamped at the top of the file. */
  function StartIndex(h: Hunk): nat {
    if h.oldStart - 1 < 0 then 0 else h.oldStart - 1
  }

  function ModeOf(loose: bool): MatchMode {
    if loose then Loose else Exact
  }

  /** Why applyHunksForward gave up; hunk is the 0-based index of the hunk at fault, lines are 1-based. */
  datatype ForwardError =
    | Overlap(hunk: nat, start: int, prevEnd: nat)
    | OutOfRange(hunk: nat, oldStart: int, oldCount: nat, fileLines: nat)
    | ContextMismatch(hunk: nat, line: nat, loose: bool)

  datatype ForwardResult = Merged(lines: seq<string>) | Rejected(err: ForwardError)

  /** The first index, from k on, where the pattern placed at p disagrees with lines; |pattern| if none does. */
  function FirstMismatch(mode: MatchMode, lines: seq<string>, pattern: seq<string>, p: nat, k: nat): nat
    requires p + |pattern| <= |lines| && k <= |pattern|
    decreases |pattern| - k
  {
    if k == |pattern| then k
    else if !LinesMatch(mode, lines[p + k], pattern[k]) then k
    else FirstMismatch(mode, lines, pattern, p, k + 1)
  }

  lemma {:induction false} FirstMismatchSpec(mode: MatchMode, lines: seq<string>, pattern: seq<string>, p: nat, k: nat)
    requires p + |pattern| <= |lines| && k <= |pattern|
    ensures k <= FirstMismatch(mode, lines, pattern, p, k) <= |pattern|
    ensures forall j :: k <= j < FirstMismatch(mode, lines, pattern, p, k) ==> LinesMatch(mode, lines[p + j], pattern[j])
    ensures FirstMismatch(mode, lines, pattern, p, k) < |pattern| ==>
      !LinesMatch(mode, lines[p + FirstMismatch(mode, lines, pattern, p, k)], pattern[FirstMismatch(mode, lines, pattern, p, k)])
    decreases |pattern| - k
  {
    if k < |pattern| && LinesMatch(mode, lines[p + k], pattern[k]) {
      var r := FirstMismatch(mode, lines, pattern, p, k + 1);
      assert FirstMismatch(mode, lines, pattern, p, k) == r;
      FirstMismatchSpec(mode, lines, pattern, p, k + 1);
      forall j | k <= j < r
        ensures LinesMatch(mode, lines[p + j], pattern[j])
      {
        if j > k {
          assert k + 1 <= j < r;
        }
      }
    }
  }

  /** A mismatch at n after n agreeing lines is the first one. */
  lemma {:induction false} FirstMismatchIs(mode: MatchMode, lines: seq<string>, pattern: seq<string>, p: nat, k: nat, n: nat)
    requires p + |pattern| <= |lines| && k <= n <= |pattern|
    requires forall j :: 0 <= j < n ==> LinesMatch(mode, lines[p + j], pattern[j])
    requires n < |pattern| ==> !LinesMatch(mode, lines[p + n], pattern[n])
    ensures FirstMismatch(mode, lines, pattern, p, k) == n
    decreases n - k
  {
    if k < n {
      FirstMismatchIs(mode, lines, pattern, p, k + 1, n);
    }
  }

  /**
   * The lines a hunk contributes in the forward strategy when its orig lines
   * start at p: context lines are taken from the file, so their whitespace
   * is the file's, inserted lines from the hunk, deleted lines are dropped.
   */
  function Replay(orig: seq<string>, p: nat, ls: seq<DiffLine>): seq<string>
    requires p + |OldTexts(ls)| <= |orig|
  {
    if |ls| == 0 then []
    else
      var init := ls[..|ls| - 1];
      var d := ls[|ls| - 1];
      Replay(orig, p, init) + ReplayLine(orig, p + |OldTexts(init)|, d)
  }

  /** What one diff line contributes when the file's next unconsumed line is q. */
  function ReplayLine(orig: seq<string>, q: nat, d: DiffLine): seq<string>
    requires d.kind == Equal ==> q < |orig|
  {
    match d.kind
    case Equal => [orig[q]]
    case Delete => []
    case Insert => [d.text]
  }

  /** The old text of one diff line. */
  function LineOld(d: DiffLine): seq<string> {
    if d.kind == Insert then [] else [d.text]
  }

  lemma {:induction false} OldTextsSnoc(init: seq<DiffLine>, d: DiffLine)
    ensures OldTexts(init + [d]) == OldTexts(init) + LineOld(d)
    ensures NewTexts(init + [d]) == NewTexts(init) + (if d.kind == Delete then [] else [d.text])
  {
    assert (init + [d])[..|init|] == init;
  }

  lemma {:induction false} ReplaySnoc(orig: seq<string>, p: nat, init: seq<DiffLine>, d: DiffLine)
    requires p + |OldTexts(init)| + |LineOld(d)| <= |orig|
    ensures OldTexts(init + [d]) == OldTexts(init) + LineOld(d)
    ensures Replay(orig, p, init + [d]) == Replay(orig, p, init) + ReplayLine(orig, p + |OldTexts(init)|, d)
  {
    OldTextsSnoc(init, d);
    var ls := init + [d];
    assert ls[..|ls| - 1] == init;
    assert ls[|ls| - 1] == d;
  }

  /** One more diff line of a hunk: its old text extends the old texts of the lines before it. */
  lemma {:induction false} OldStep(ls: seq<DiffLine>, j: nat)
    requires j < |ls|
    ensures OldTexts(ls[..j + 1]) == OldTexts(ls[..j]) + LineOld(ls[j])
    ensures |OldTexts(ls[..j + 1])| <= |OldTexts(ls)|
  {
    OldTextsPrefix(ls, j + 1);
    TakeSnoc(ls, j);
    OldTextsSnoc(ls[..j], ls[j]);
  }

  /** One more diff line of a hunk: its replay extends the replay of the lines before it. */
  lemma {:induction false} ReplayStep(orig: seq<string>, s: nat, ls: seq<DiffLine>, j: nat)
    requires j < |ls| && s + |OldTexts(ls)| <= |orig|
    ensures |OldTexts(ls[..j])| + |LineOld(ls[j])| == |OldTexts(ls[..j + 1])| <= |OldTexts(ls)|
    ensures Replay(orig, s, ls[..j + 1]) == Replay(orig, s, ls[..j]) + ReplayLine(orig, s + |OldTexts(ls[..j])|, ls[j])
  {
    OldStep(ls, j);
    TakeSnoc(ls, j);
    ReplaySnoc(orig, s, ls[..j], ls[j]);
  }

  /** The old texts of a prefix of the lines are a prefix of the old texts. */
  lemma {:induction false} OldTextsPrefix(ls: seq<DiffLine>, j: nat)
    requires j <= |ls|
    ensures OldTexts(ls) == OldTexts(ls[..j]) + OldTexts(ls[j..])
    ensures NewTexts(ls) == NewTexts(ls[..j]) + NewTexts(ls[j..])
  {
    TextsConcat(ls[..j], ls[j..]);
    assert ls[..j] + ls[j..] == ls;
  }

  /** The rest of applyHunksForward's loop: hunk i on, the orig lines consumed up to last, acc built so far. */
  function ForwardFrom(orig: seq<string>, hs: seq<Hunk>, loose: bool, i: nat, last: nat, acc: seq<string>): ForwardResult
    requires i <= |hs| && last <= |orig|
    decreases |hs| - i
  {
    if i == |hs| then Merged(acc + orig[last..])
    else
      var h := hs[i];
      var s := StartIndex(h);
      var pattern := OldTexts(h.lines);
      if s < last then Rejected(Overlap(i, s + 1, last))
      else if s + |pattern| > |orig| then Rejected(OutOfRange(i, h.oldStart, |pattern|, |orig|))
      else if !MatchAt(ModeOf(loose), orig, pattern, s) then
        Rejected(ContextMismatch(i, s + FirstMismatch(ModeOf(loose), orig, pattern, s, 0) + 1, loose))
      else ForwardFrom(orig, hs, loose, i + 1, s + |pattern|, acc + orig[last..s] + Replay(orig, s, h.lines))
  }

  /** applyHunksForward */
  function Forward(orig: seq<string>, hs: seq<Hunk>, loose: bool): ForwardResult {
    ForwardFrom(orig, hs, loose, 0, 0, [])
  }

  /** The old lines of a hunk: the count applyHunksForward takes. */
  method CountOld(ls: seq<DiffLine>) returns (count: nat)
    ensures count == |OldTexts(ls)|
  {
    count := 0;
    var j := 0;
    while j < |ls|
      invariant j <= |ls|
      invariant count == |OldTexts(ls[..j])|
    {
      TakeSnoc(ls, j);
      OldTextsSnoc(ls[..j], ls[j]);
      if ls[j].kind == Equal || ls[j].kind == Delete {
        count := count + 1;
      }
      j := j + 1;
    }
    assert ls[..j] == ls;
  }

  /** Extending a pattern by one line extends a match by one line. */
  lemma {:induction false} MatchAtSnoc(mode: MatchMode, lines: seq<string>, a: seq<string>, x: string, p: nat)
    requires p + |a| < |lines|
    ensures MatchAt(mode, lines, a + [x], p) <==> MatchAt(mode, lines, a, p) && LinesMatch(mode, lines[p + |a|], x)
  {
    var b := a + [x];
    assert b[|a|] == x;
    assert forall k :: 0 <= k < |a| ==> b[k] == a[k];
  }

  /** A mismatch right after a matching prefix of the old lines is the first mismatch. */
  lemma {:induction false} MismatchAfter(mode: MatchMode, orig: seq<string>, s: nat, ls: seq<DiffLine>, j: nat)
    requires j < |ls| && ls[j].kind != Insert && s + |OldTexts(ls)| <= |orig|
    requires MatchAt(mode, orig, OldTexts(ls[..j]), s)
    requires s + |OldTexts(ls[..j])| < |orig| && !LinesMatch(mode, orig[s + |OldTexts(ls[..j])|], ls[j].text)
    ensures |OldTexts(ls[..j])| < |OldTexts(ls)|
    ensures FirstMismatch(mode, orig, OldTexts(ls), s, 0) == |OldTexts(ls[..j])|
    ensures !MatchAt(mode, orig, OldTexts(ls), s)
  {
    var pattern, a := OldTexts(ls), OldTexts(ls[..j]);
    OldTextsPrefix(ls, j + 1);
    TakeSnoc(ls, j);
    OldTextsSnoc(ls[..j], ls[j]);
    assert pattern[|a|] == ls[j].text;
    forall k | 0 <= k < |a|
      ensures LinesMatch(mode, orig[s + k], pattern[k])
    {
      assert pattern[k] == a[k];
    }
    FirstMismatchIs(mode, orig, pattern, s, 0, |a|);
  }

  /** One diff line of the context check: the file line idx is compared when the diff line is old. */
  method CheckLine(mode: MatchMode, orig: seq<string>, s: nat, ls: seq<DiffLine>, j: nat, idx: nat)
    returns (mismatch: bool, idx': nat)
    requires j < |ls| && s + |OldTexts(ls)| <= |orig|
    requires idx == s + |OldTexts(ls[..j])| && MatchAt(mode, orig, OldTexts(ls[..j]), s)
    ensures mismatch ==> !MatchAt(mode, orig, OldTexts(ls), s)
    ensures mismatch ==> idx' == idx == s + FirstMismatch(mode, orig, OldTexts(ls), s, 0)
    ensures !mismatch ==> idx' == s + |OldTexts(ls[..j + 1])| && MatchAt(mode, orig, OldTexts(ls[..j + 1]), s)
  {
    OldStep(ls, j);
    var d := ls[j];
    idx' := idx;
    mismatch := false;
    if d.kind == Equal || d.kind == Delete {
      if !LinesMatch(mode, orig[idx], d.text) {
        MismatchAfter(mode, orig, s, ls, j);
        return true, idx';
      }
      MatchAtSnoc(mode, orig, OldTexts(ls[..j]), d.text, s);
      idx' := idx + 1;
    }
  }

  /**
   * The context check of applyHunksForward: -1 when the hunk's old lines
   * match the file from s on, else the 0-based file line of the first mismatch.
   */
  method CheckContext(mode: MatchMode, orig: seq<string>, s: nat, ls: seq<DiffLine>) returns (bad: int)
    requires s + |OldTexts(ls)| <= |orig|
    ensures bad < 0 <==> MatchAt(mode, orig, OldTexts(ls), s)
    ensures bad >= 0 ==> bad == s + FirstMismatch(mode, orig, OldTexts(ls), s, 0)
  {
    var idx := s;
    var j := 0;
    while j < |ls|
      invariant j <= |ls|
      invariant idx == s + |OldTexts(ls[..j])|
      invariant MatchAt(mode, orig, OldTexts(ls[..j]), s)
    {
      var mismatch;
      mismatch, idx := CheckLine(mode, orig, s, ls, j, idx);
      if mismatch {
        return idx;
      }
      j := j + 1;
    }
    assert ls[..j] == ls;
    return -1;
  }

  /** The replay loop of applyHunksForward, appending to acc. */
  method ReplayHunk(orig: seq<string>, s: nat, ls: seq<DiffLine>, acc: seq<string>) returns (r: seq<string>)
    requires s + |OldTexts(ls)| <= |orig|
    ensures r == acc + Replay(orig, s, ls)
  {
    r := acc;
    var idx := s;
    var j := 0;
    while j < |ls|
      invariant j <= |ls|
      invariant idx == s + |OldTexts(ls[..j])| <= s + |OldTexts(ls)|
      invariant r == acc + Replay(orig, s, ls[..j])
    {
      ReplayStep(orig, s, ls, j);
      var d := ls[j];
      match d.kind {
        case Equal =>
          r := r + [orig[idx]];
          idx := idx + 1;
        case Delete =>
          idx := idx + 1;
        case Insert =>
          r := r + [d.text];
      }
      j := j + 1;
    }
    assert ls[..j] == ls;
  }

  /** One round of applyHunksForward's loop: hunk i is rejected, or merged onto result. */
  method ForwardStep(orig: seq<string>, hs: seq<Hunk>, loose: bool, i: nat, last: nat, result: seq<string>)
    returns (err: Option<ForwardError>, last': nat, result': seq<string>)
    requires i < |hs| && last <= |orig|
    ensures err.Some? ==> ForwardFrom(orig, hs, loose, i, last, result) == Rejected(err.value)
    ensures err.None? ==> last' <= |orig|
    ensures err.None? ==> ForwardFrom(orig, hs, loose, i, last, result) == ForwardFrom(orig, hs, loose, i + 1, last', result')
  {
    last', result' := last, result;
    var h := hs[i];
    var s: nat := if h.oldStart - 1 < 0 then 0 else h.oldStart - 1;
    if s < last {
      return Some(Overlap(i, s + 1, last)), last', result';
    }
    var count := CountOld(h.lines);
    if s + count > |orig| {
      return Some(OutOfRange(i, h.oldStart, count, |orig|)), last', result';
    }
    var bad := CheckContext(ModeOf(loose), orig, s, h.lines);
    if bad >= 0 {
      return Some(ContextMismatch(i, bad + 1, loose)), last', result';
    }
    result' := result + orig[last..s];
    result' := ReplayHunk(orig, s, h.lines, result');
    last' := s + count;
    err := None;
  }

  /** applyHunksForward */
  method ApplyHunksForward(orig: seq<string>, hs: seq<Hunk>, loose: bool) returns (res: ForwardResult)
    ensures res == Forward(orig, hs, loose)
  {
    var result: seq<string> := [];
    var last: nat := 0;
    var i := 0;
    while i < |hs|
      invariant i <= |hs| && last <= |orig|
      invariant ForwardFrom(orig, hs, loose, i, last, result) == Forward(orig, hs, loose)
    {
      var err;
      err, last, result := ForwardStep(orig, hs, loose, i, last, result);
      if err.Some? {
        return Rejected(err.value);
      }
      i := i + 1;
    }
    if last < |orig| {
      result := result + orig[last..];
    } else {
      assert orig[last..] == [];
    }
    return Merged(result);
  }

  // ---------------------------------------------------------------------
  // What the forward strategy computes

  /** The file line just past a hunk's old lines, counted from its claimed start. */
  function EndIndex(h: Hunk): nat {
    StartIndex(h) + |OldTexts(h.lines)|
  }

  /**
   * From hunk i on, every hunk's old lines match the file at its claimed
   * start, the first of them no earlier than last, and each ends no later
   * than the next one starts.
   */
  predicate PlacedFrom(orig: seq<string>, hs: seq<Hunk>, mode: MatchMode, i: nat, last: nat) {
    && (forall j :: i <= j < |hs| ==> MatchAt(mode, orig, OldTexts(hs[j].lines), StartIndex(hs[j])))
    && (i < |hs| ==> last <= StartIndex(hs[i]))
    && (forall j :: i <= j && j + 1 < |hs| ==> EndIndex(hs[j]) <= StartIndex(hs[j + 1]))
  }

  predicate Placed(orig: seq<string>, hs: seq<Hunk>, loose: bool) {
    PlacedFrom(orig, hs, ModeOf(loose), 0, 0)
  }

  /** Placing hunks from i on is placing hunk i, then the rest after it. */
  lemma {:induction false} PlacedStep(orig: seq<string>, hs: seq<Hunk>, mode: MatchMode, i: nat, last: nat)
    requires i < |hs|
    ensures PlacedFrom(orig, hs, mode, i, last) <==>
      && last <= StartIndex(hs[i])
      && MatchAt(mode, orig, OldTexts(hs[i].lines), StartIndex(hs[i]))
      && PlacedFrom(orig, hs, mode, i + 1, EndIndex(hs[i]))
  {
  }

  lemma {:induction false} PlacedHead(orig: seq<string>, hs: seq<Hunk>, mode: MatchMode, i: nat, last: nat)
    requires i < |hs| && PlacedFrom(orig, hs, mode, i, last)
    ensures last <= StartIndex(hs[i]) && MatchAt(mode, orig, OldTexts(hs[i].lines), StartIndex(hs[i]))
    ensures PlacedFrom(orig, hs, mode, i + 1, EndIndex(hs[i]))
  {
  }

  /** A hunk that sits where it claims is merged and the loop moves on past it. */
  lemma {:induction false} ForwardFromUnfold(orig: seq<string>, hs: seq<Hunk>, loose: bool, i: nat, last: nat, acc: seq<string>)
    requires i < |hs| && last <= |orig|
    requires last <= StartIndex(hs[i]) && MatchAt(ModeOf(loose), orig, OldTexts(hs[i].lines), StartIndex(hs[i]))
    ensures ForwardFrom(orig, hs, loose, i, last, acc)
      == ForwardFrom(orig, hs, loose, i + 1, EndIndex(hs[i]), acc + orig[last..StartIndex(hs[i])] + Replay(orig, StartIndex(hs[i]), hs[i].lines))
  {
  }

  lemma {:induction false} ForwardFromIff(orig: seq<string>, hs: seq<Hunk>, loose: bool, i: nat, last: nat, acc: seq<string>)
    requires i <= |hs| && last <= |orig|
    ensures ForwardFrom(orig, hs, loose, i, last, acc).Merged? <==> PlacedFrom(orig, hs, ModeOf(loose), i, last)
    decreases |hs| - i
  {
    if i < |hs| {
      var h := hs[i];
      var s := StartIndex(h);
      var pattern := OldTexts(h.lines);
      PlacedStep(orig, hs, ModeOf(loose), i, last);
      if s >= last && s + |pattern| <= |orig| && MatchAt(ModeOf(loose), orig, pattern, s) {
        var acc' := acc + orig[last..s] + Replay(orig, s, h.lines);
        ForwardFromUnfold(orig, hs, loose, i, last, acc);
        ForwardFromIff(orig, hs, loose, i + 1, EndIndex(h), acc');
      } else {
        assert ForwardFrom(orig, hs, loose, i, last, acc).Rejected?;
      }
    }
  }

  /**
   * The forward strategy succeeds exactly when the hunks sit, in order and
   * without overlapping, at the lines they claim, their old lines matching
   * the file (exactly, or up to trailing blanks when loose).
   */
  lemma ForwardIff(orig: seq<string>, hs: seq<Hunk>, loose: bool)
    ensures Forward(orig, hs, loose).Merged? <==> Placed(orig, hs, loose)
  {
    ForwardFromIff(orig, hs, loose, 0, 0, []);
  }

  /** A replayed hunk has as many lines as its new side. */
  lemma {:induction false} ReplayLength(orig: seq<string>, p: nat, ls: seq<DiffLine>)
    requires p + |OldTexts(ls)| <= |orig|
    ensures |Replay(orig, p, ls)| == |NewTexts(ls)|
  {
    if |ls| > 0 {
      ReplayLength(orig, p, ls[..|ls| - 1]);
    }
  }

  /** The net number of lines the hunks from i on add. */
  function Growth(hs: seq<Hunk>, i: nat): int
    decreases |hs| - i
  {
    if i >= |hs| then 0
    else |NewTexts(hs[i].lines)| - |OldTexts(hs[i].lines)| + Growth(hs, i + 1)
  }

  lemma {:induction false} ForwardFromLength(orig: seq<string>, hs: seq<Hunk>, loose: bool, i: nat, last: nat, acc: seq<string>)
    requires i <= |hs| && last <= |orig|
    requires ForwardFrom(orig, hs, loose, i, last, acc).Merged?
    ensures |ForwardFrom(orig, hs, loose, i, last, acc).lines| == |acc| + |orig| - last + Growth(hs, i)
    decreases |hs| - i
  {
    if i < |hs| {
      var h := hs[i];
      var s := StartIndex(h);
      ReplayLength(orig, s, h.lines);
      ForwardFromLength(orig, hs, loose, i + 1, s + |OldTexts(h.lines)|, acc + orig[last..s] + Replay(orig, s, h.lines));
    }
  }

  /**
   * A forward merge has the length applyHunksForward reserves for it: the
   * file's lines plus, for each hunk, its new lines less its old ones.
   */
  lemma ForwardLength(orig: seq<string>, hs: seq<Hunk>, loose: bool)
    requires Forward(orig, hs, loose).Merged?
    ensures |Forward(orig, hs, loose).lines| == |orig| + Growth(hs, 0)
  {
    ForwardFromLength(orig, hs, loose, 0, 0, []);
  }

  lemma {:induction false} Assoc4<T>(a: seq<T>, b: seq<T>, c: seq<T>, d: seq<T>)
    ensures a + b + c + d == a + (b + c + d)
  {
  }

  /** Two sequences of lines that agree line for line under a matcher. */
  predicate Agree(mode: MatchMode, xs: seq<string>, ys: seq<string>) {
    |xs| == |ys| && forall k :: 0 <= k < |xs| ==> LinesMatch(mode, xs[k], ys[k])
  }

  lemma {:induction false} AgreeAppend(mode: MatchMode, a: seq<string>, b: seq<string>, c: seq<string>, d: seq<string>)
    requires Agree(mode, a, b) && Agree(mode, c, d)
    ensures Agree(mode, a + c, b + d)
  {
    forall k | 0 <= k < |a + c|
      ensures LinesMatch(mode, (a + c)[k], (b + d)[k])
    {
      if k < |a| {
        assert (a + c)[k] == a[k] && (b + d)[k] == b[k];
      } else {
        assert (a + c)[k] == c[k - |a|] && (b + d)[k] == d[k - |a|];
      }
    }
  }

  /** A match of a + b is a match of a followed by a match of b. */
  lemma {:induction false} MatchAtPrefix(mode: MatchMode, lines: seq<string>, a: seq<string>, b: seq<string>, p: nat)
    requires MatchAt(mode, lines, a + b, p)
    ensures MatchAt(mode, lines, a, p) && MatchAt(mode, lines, b, p + |a|)
  {
    forall k | 0 <= k < |a|
      ensures LinesMatch(mode, lines[p + k], a[k])
    {
      assert (a + b)[k] == a[k];
    }
    forall k | 0 <= k < |b|
      ensures LinesMatch(mode, lines[p + |a| + k], b[k])
    {
      assert (a + b)[|a| + k] == b[k];
    }
  }

  /** Where the hunk's old lines match the file line for line, the replay agrees with its new lines likewise. */
  lemma {:induction false} ReplayMatches(mode: MatchMode, orig: seq<string>, p: nat, ls: seq<DiffLine>)
    requires MatchAt(mode, orig, OldTexts(ls), p)
    ensures Agree(mode, Replay(orig, p, ls), NewTexts(ls))
  {
    if |ls| > 0 {
      var init, d := ls[..|ls| - 1], ls[|ls| - 1];
      InitLast(ls);
      OldTextsSnoc(init, d);
      var a := OldTexts(init);
      MatchAtPrefix(mode, orig, a, LineOld(d), p);
      ReplayMatches(mode, orig, p, init);
      var nl := if d.kind == Delete then [] else [d.text];
      var q := p + |a|;
      assert Agree(mode, ReplayLine(orig, q, d), nl) by {
        if d.kind == Equal {
          assert LinesMatch(mode, orig[q + 0], LineOld(d)[0]);
        }
      }
      AgreeAppend(mode, Replay(orig, p, init), NewTexts(init), ReplayLine(orig, q, d), nl);
      ReplaySnoc(orig, p, init, d);
    }
  }

  /**
   * The old file with each hunk's old lines replaced by its new lines, for
   * hunks placed in order: what an exact forward merge should produce.
   */
  function Spliced(orig: seq<string>, hs: seq<Hunk>, i: nat, last: nat): seq<string>
    requires i <= |hs| && last <= |orig| && PlacedFrom(orig, hs, Exact, i, last)
    decreases |hs| - i
  {
    if i == |hs| then orig[last..]
    else orig[last..StartIndex(hs[i])] + NewTexts(hs[i].lines) + Spliced(orig, hs, i + 1, EndIndex(hs[i]))
  }

  lemma {:induction false} ReplayExact(orig: seq<string>, p: nat, ls: seq<DiffLine>)
    requires MatchAt(Exact, orig, OldTexts(ls), p)
    ensures Replay(orig, p, ls) == NewTexts(ls)
  {
    ReplayMatches(Exact, orig, p, ls);
    assert forall k :: 0 <= k < |NewTexts(ls)| ==> Replay(orig, p, ls)[k] == NewTexts(ls)[k];
  }

  lemma {:induction false} ForwardFromExact(orig: seq<string>, hs: seq<Hunk>, i: nat, last: nat, acc: seq<string>)
    requires i <= |hs| && last <= |orig| && PlacedFrom(orig, hs, Exact, i, last)
    ensures ForwardFrom(orig, hs, false, i, last, acc) == Merged(acc + Spliced(orig, hs, i, last))
    decreases |hs| - i
  {
    if i < |hs| {
      var h := hs[i];
      var s := StartIndex(h);
      PlacedHead(orig, hs, Exact, i, last);
      var acc' := acc + orig[last..s] + Replay(orig, s, h.lines);
      ForwardFromUnfold(orig, hs, false, i, last, acc);
      ReplayExact(orig, s, h.lines);
      ForwardFromExact(orig, hs, i + 1, EndIndex(h), acc');
      Assoc4(acc, orig[last..s], NewTexts(h.lines), Spliced(orig, hs, i + 1, EndIndex(h)));
    }
  }

  /** An exact forward merge replaces each hunk's old lines by its new lines and keeps every other line. */
  lemma ForwardExact(orig: seq<string>, hs: seq<Hunk>)
    requires Forward(orig, hs, false).Merged?
    ensures Placed(orig, hs, false)
    ensures Forward(orig, hs, false).lines == Spliced(orig, hs, 0, 0)
  {
    ForwardIff(orig, hs, false);
    ForwardFromExact(orig, hs, 0, 0, []);
  }

  // ---------------------------------------------------------------------
  // The fuzzy strategy

  /** ApplyError: the hunk (0-based) that could not be placed; file is filled in by ApplyFileDiff. */
  datatype ApplyError = ApplyError(file: string, hunkIdx: int, oldStart: int, fileLines: nat)

  datatype OneResult = HunkApplied(lines: seq<string>) | HunkFailed(err: ApplyError)

  /** The position applyOneHunk settles on: exact, then loose, then normalized, each searched near the hint. */
  function MatchPos(lines: seq<string>, pattern: seq<string>, start: int): int {
    var m := Search(Exact, lines, pattern, start);
    if m >= 0 || |pattern| == 0 then m
    else
      var m2 := Search(Loose, lines, pattern, start);
      if m2 >= 0 then m2 else Search(Normalized, lines, pattern, start)
  }

  lemma {:induction false} MatchPosSpec(lines: seq<string>, pattern: seq<string>, start: int)
    ensures MatchPos(lines, pattern, start) >= 0 ==>
      && MatchAt(Normalized, lines, pattern, MatchPos(lines, pattern, start))
      && Dist(MatchPos(lines, pattern, start), start) <= MaxFuzz
    ensures MatchPos(lines, pattern, start) < 0 <==>
      forall p :: Dist(p, start) <= MaxFuzz ==> !MatchAt(Normalized, lines, pattern, p)
    ensures MatchAt(Exact, lines, pattern, start) ==> MatchPos(lines, pattern, start) == start
  {
    SearchSpec(Exact, lines, pattern, start);
    SearchSpec(Loose, lines, pattern, start);
    SearchSpec(Normalized, lines, pattern, start);
    var m := MatchPos(lines, pattern, start);
    if m >= 0 {
      MatchModesWeaken(lines, pattern, m);
    }
    if |pattern| == 0 && m < 0 {
      forall p | Dist(p, start) <= MaxFuzz
        ensures !MatchAt(Normalized, lines, pattern, p)
      {
        assert !MatchAt(Exact, lines, pattern, p);
      }
    }
  }

  /** applyOneHunk: the hunk's old lines found near its line number are replaced by its new lines. */
  function ApplyOne(lines: seq<string>, h: Hunk, idx: int): OneResult {
    var pattern := OldTexts(h.lines);
    var m := MatchPos(lines, pattern, StartIndex(h));
    if m < 0 then HunkFailed(ApplyError("", idx, h.oldStart, |lines|))
    else
      MatchPosSpec(lines, pattern, StartIndex(h));
      HunkApplied(lines[..m] + NewTexts(h.lines) + lines[m + |pattern|..])
  }

  /**
   * applyOneHunk fails exactly when no position within MaxFuzz lines of the
   * hunk's line number matches its old lines even up to surrounding blanks;
   * it splices the new lines in where it places the hunk, and places it at
   * its own line number whenever the old lines are there verbatim.
   */
  lemma ApplyOneSpec(lines: seq<string>, h: Hunk, idx: int)
    ensures ApplyOne(lines, h, idx).HunkFailed? <==>
      forall p :: Dist(p, StartIndex(h)) <= MaxFuzz ==> !MatchAt(Normalized, lines, OldTexts(h.lines), p)
    ensures ApplyOne(lines, h, idx).HunkFailed? ==> ApplyOne(lines, h, idx).err == ApplyError("", idx, h.oldStart, |lines|)
    ensures ApplyOne(lines, h, idx).HunkApplied? ==>
      var m := MatchPos(lines, OldTexts(h.lines), StartIndex(h));
      && MatchAt(Normalized, lines, OldTexts(h.lines), m)
      && Dist(m, StartIndex(h)) <= MaxFuzz
      && ApplyOne(lines, h, idx).lines == lines[..m] + NewTexts(h.lines) + lines[m + |OldTexts(h.lines)|..]
    ensures MatchAt(Exact, lines, OldTexts(h.lines), StartIndex(h)) ==>
      ApplyOne(lines, h, idx) == HunkApplied(lines[..StartIndex(h)] + NewTexts(h.lines) + lines[EndIndex(h)..])
  {
    MatchPosSpec(lines, OldTexts(h.lines), StartIndex(h));
  }

  /** extractOldLines */
  method ExtractOldLines(h: Hunk) returns (r: seq<string>)
    ensures r == OldTexts(h.lines)
  {
    var ls := h.lines;
    r := [];
    var j := 0;
    while j < |ls|
      invariant j <= |ls|
      invariant r == OldTexts(ls[..j])
    {
      TakeSnoc(ls, j);
      OldTextsSnoc(ls[..j], ls[j]);
      var d := ls[j];
      if d.kind == Equal || d.kind == Delete {
        r := r + [d.text];
      }
      j := j + 1;
    }
    assert ls[..j] == ls;
  }

  /** The loop of applyOneHunk that collects the Equal and Insert texts. */
  method ExtractNewLines(h: Hunk) returns (r: seq<string>)
    ensures r == NewTexts(h.lines)
  {
    var ls := h.lines;
    r := [];
    var j := 0;
    while j < |ls|
      invariant j <= |ls|
      invariant r == NewTexts(ls[..j])
    {
      TakeSnoc(ls, j);
      OldTextsSnoc(ls[..j], ls[j]);
      var d := ls[j];
      if d.kind == Equal || d.kind == Insert {
        r := r + [d.text];
      }
      j := j + 1;
    }
    assert ls[..j] == ls;
  }

  /** applyOneHunk */
  /** The three searches of applyOneHunk: exact, then loose, then normalized. */
  method LocateHunk(lines: seq<string>, pattern: seq<string>, start: int) returns (m: int)
    ensures m == MatchPos(lines, pattern, start)
  {
    m := SearchMatch(Exact, lines, pattern, start);
    if m < 0 && |pattern| > 0 {
      m := SearchMatch(Loose, lines, pattern, start);
    }
    if m < 0 && |pattern| > 0 {
      m := SearchMatch(Normalized, lines, pattern, start);
    }
  }

  method ApplyOneHunk(lines: seq<string>, h: Hunk, idx: int) returns (res: OneResult)
    ensures res == ApplyOne(lines, h, idx)
  {
    var pattern := ExtractOldLines(h);
    var start: nat := if h.oldStart - 1 < 0 then 0 else h.oldStart - 1;
    assert start == StartIndex(h);
    var m := LocateHunk(lines, pattern, start);
    if m < 0 {
      return HunkFailed(ApplyError("", idx, h.oldStart, |lines|));
    }
    MatchPosSpec(lines, pattern, start);
    var added := ExtractNewLines(h);
    return HunkApplied(lines[..m] + added + lines[m + |pattern|..]);
  }

  /** The state of applyHunksFuzzy's loop: the lines so far and the failures so far. */
  datatype Fuzzed = Fuzzed(lines: seq<string>, failures: seq<ApplyError>)

  /** The rest of applyHunksFuzzy's loop, which still has hunks i-1 down to 0 to try. */
  function FuzzyFrom(hs: seq<Hunk>, i: nat, lines: seq<string>, failures: seq<ApplyError>): Fuzzed
    requires i <= |hs|
  {
    if i == 0 then Fuzzed(lines, failures)
    else
      match ApplyOne(lines, hs[i - 1], i - 1)
      case HunkApplied(next) => FuzzyFrom(hs, i - 1, next, failures)
      case HunkFailed(e) => FuzzyFrom(hs, i - 1, lines, failures + [e])
  }

  /** The failures' hunk indices, strictly decreasing and at least lo. */
  predicate Descending(failures: seq<ApplyError>, lo: int) {
    && (forall k :: 0 <= k < |failures| ==> lo <= failures[k].hunkIdx)
    && (forall k :: 0 <= k && k + 1 < |failures| ==> failures[k].hunkIdx > failures[k + 1].hunkIdx)
  }

  /** Every failure names one of the n hunks. */
  predicate Below(failures: seq<ApplyError>, n: int) {
    forall k :: 0 <= k < |failures| ==> failures[k].hunkIdx < n
  }

  lemma {:induction false} DescendingSnoc(failures: seq<ApplyError>, e: ApplyError, i: int, n: int)
    requires Descending(failures, i) && Below(failures, n) && e.hunkIdx == i - 1 && i <= n
    ensures Descending(failures + [e], i - 1) && Below(failures + [e], n)
  {
    var f' := failures + [e];
    assert f'[|failures|] == e;
    assert forall k :: 0 <= k < |failures| ==> f'[k] == failures[k];
  }

  lemma {:induction false} FuzzyFromFailures(hs: seq<Hunk>, i: nat, lines: seq<string>, failures: seq<ApplyError>)
    requires i <= |hs| && Descending(failures, i) && Below(failures, |hs|)
    ensures |FuzzyFrom(hs, i, lines, failures).failures| <= |failures| + i
    ensures Descending(FuzzyFrom(hs, i, lines, failures).failures, 0)
    ensures Below(FuzzyFrom(hs, i, lines, failures).failures, |hs|)
    decreases i
  {
    if i > 0 {
      var one := ApplyOne(lines, hs[i - 1], i - 1);
      if one.HunkApplied? {
        assert FuzzyFrom(hs, i, lines, failures) == FuzzyFrom(hs, i - 1, one.lines, failures);
        FuzzyFromFailures(hs, i - 1, one.lines, failures);
      } else {
        assert one.err.hunkIdx == i - 1;
        assert FuzzyFrom(hs, i, lines, failures) == FuzzyFrom(hs, i - 1, lines, failures + [one.err]);
        DescendingSnoc(failures, one.err, i, |hs|);
        FuzzyFromFailures(hs, i - 1, lines, failures + [one.err]);
      }
    }
  }

  /** A strictly decreasing run of n indices below n ends at 0. */
  lemma {:induction false} DescendingEnd(failures: seq<ApplyError>, n: nat)
    requires |failures| == n > 0 && Descending(failures, 0) && Below(failures, n)
    ensures failures[n - 1].hunkIdx == 0
  {
    var k := n - 1;
    while k > 0
      invariant 0 <= k <= n - 1
      invariant failures[k].hunkIdx >= failures[n - 1].hunkIdx + (n - 1 - k)
    {
      k := k - 1;
    }
  }

  datatype PartialError = PartialError(file: string, applied: nat, total: nat, errors: seq<ApplyError>)

  /** What ApplyHunks returns: all applied, some applied (with what failed), or nothing applied. */
  datatype ApplyResult =
    | Applied(lines: seq<string>)
    | Partial(lines: seq<string>, partial: PartialError)
    | Failed(err: ApplyError)

  /** applyHunksFuzzy; it is only called with at least one hunk. */
  function Fuzzy(orig: seq<string>, hs: seq<Hunk>): ApplyResult
    requires |hs| > 0
  {
    var st := FuzzyFrom(hs, |hs|, orig, []);
    FuzzyFromFailures(hs, |hs|, orig, []);
    var applied := |hs| - |st.failures|;
    if applied == 0 then Failed(st.failures[|st.failures| - 1])
    else if |st.failures| > 0 then Partial(st.lines, PartialError("", applied, |hs|, st.failures))
    else Applied(st.lines)
  }

  /**
   * The fuzzy strategy reports failures from the last hunk to the first,
   * counts the applied ones among all, and when none applies reports the
   * first hunk's failure.
   */
  lemma FuzzySpec(orig: seq<string>, hs: seq<Hunk>)
    requires |hs| > 0
    ensures Fuzzy(orig, hs).Failed? ==> Fuzzy(orig, hs).err.hunkIdx == 0
    ensures Fuzzy(orig, hs).Partial? ==>
      var pe := Fuzzy(orig, hs).partial;
      && 0 < pe.applied < pe.total == |hs|
      && pe.applied + |pe.errors| == pe.total
      && Descending(pe.errors, 0)
      && Below(pe.errors, |hs|)
  {
    var st := FuzzyFrom(hs, |hs|, orig, []);
    FuzzyFromFailures(hs, |hs|, orig, []);
    if |st.failures| == |hs| {
      DescendingEnd(st.failures, |hs|);
    }
  }

  /** applyHunksFuzzy */
  method ApplyHunksFuzzy(orig: seq<string>, hs: seq<Hunk>) returns (res: ApplyResult)
    requires |hs| > 0
    ensures res == Fuzzy(orig, hs)
  {
    var result := orig;
    var failures: seq<ApplyError> := [];
    var i: nat := |hs|;
    while i > 0
      invariant i <= |hs|
      invariant FuzzyFrom(hs, i, result, failures) == FuzzyFrom(hs, |hs|, orig, [])
    {
      var one := ApplyOneHunk(result, hs[i - 1], i - 1);
      match one {
        case HunkApplied(next) => result := next;
        case HunkFailed(e) => failures := failures + [e];
      }
      i := i - 1;
    }
    assert FuzzyFrom(hs, 0, result, failures) == Fuzzed(result, failures);
    FuzzyFromFailures(hs, |hs|, orig, []);
    var applied := |hs| - |failures|;
    if applied == 0 {
      return Failed(failures[|failures| - 1]);
    }
    if |failures| > 0 {
      return Partial(result, PartialError("", applied, |hs|, failures));
    }
    return Applied(result);
  }

  // ---------------------------------------------------------------------
  // Sorting hunks by their old start line

  /** Inserts h after every hunk of sorted that does not start after it. */
  function InsertByOldStart(h: Hunk, sorted: seq<Hunk>): seq<Hunk> {
    if |sorted| == 0 then [h]
    else if h.oldStart < sorted[0].oldStart then [h] + sorted
    else [sorted[0]] + InsertByOldStart(h, sorted[1..])
  }

  /** sortHunksByOldStart, as a stable insertion sort on a copy. */
  function SortHunks(hs: seq<Hunk>): seq<Hunk> {
    if |hs| == 0 then [] else InsertByOldStart(hs[|hs| - 1], SortHunks(hs[..|hs| - 1]))
  }

  lemma {:induction false} InsertMultiset(h: Hunk, sorted: seq<Hunk>)
    ensures multiset(InsertByOldStart(h, sorted)) == multiset(sorted) + multiset{h}
  {
    if |sorted| > 0 {
      HeadTail(sorted);
      if h.oldStart >= sorted[0].oldStart {
        InsertMultiset(h, sorted[1..]);
        assert multiset(sorted) == multiset{sorted[0]} + multiset(sorted[1..]) by {
          assert sorted == [sorted[0]] + sorted[1..];
        }
      }
    }
  }

  /** Inserting a hunk keeps a lower bound on the old start lines. */
  lemma {:induction false} InsertAtLeast(h: Hunk, sorted: seq<Hunk>, b: int)
    requires h.oldStart >= b && forall k :: 0 <= k < |sorted| ==> sorted[k].oldStart >= b
    ensures forall k :: 0 <= k < |InsertByOldStart(h, sorted)| ==> InsertByOldStart(h, sorted)[k].oldStart >= b
  {
    if |sorted| > 0 && h.oldStart >= sorted[0].oldStart {
      InsertAtLeast(h, sorted[1..], b);
      var rest := InsertByOldStart(h, sorted[1..]);
      assert forall k :: 1 <= k < |rest| + 1 ==> ([sorted[0]] + rest)[k] == rest[k - 1];
    }
  }

  lemma {:induction false} InsertSorted(h: Hunk, sorted: seq<Hunk>)
    requires SortedByOldStart(sorted)
    ensures SortedByOldStart(InsertByOldStart(h, sorted))
  {
    if |sorted| > 0 && h.oldStart >= sorted[0].oldStart {
      var tail := sorted[1..];
      assert SortedByOldStart(tail) by {
        forall p, q | 0 <= p < q < |tail|
          ensures tail[p].oldStart <= tail[q].oldStart
        {
          assert tail[p] == sorted[p + 1] && tail[q] == sorted[q + 1];
        }
      }
      InsertSorted(h, tail);
      assert forall k :: 0 <= k < |tail| ==> tail[k].oldStart >= sorted[0].oldStart by {
        forall k | 0 <= k < |tail|
          ensures tail[k].oldStart >= sorted[0].oldStart
        {
          assert tail[k] == sorted[k + 1];
        }
      }
      InsertAtLeast(h, tail, sorted[0].oldStart);
      var rest := InsertByOldStart(h, tail);
      var r := [sorted[0]] + rest;
      forall p, q | 0 <= p < q < |r|
        ensures r[p].oldStart <= r[q].oldStart
      {
        assert r[q] == rest[q - 1];
        if p > 0 {
          assert r[p] == rest[p - 1];
        }
      }
    } else if |sorted| > 0 {
      var r := [h] + sorted;
      forall p, q | 0 <= p < q < |r|
        ensures r[p].oldStart <= r[q].oldStart
      {
        assert r[q] == sorted[q - 1];
        if p > 0 {
          assert r[p] == sorted[p - 1];
        }
      }
    }
  }

  /** Inserting a hunk that starts no earlier than all the others appends it. */
  lemma {:induction false} InsertLast(h: Hunk, sorted: seq<Hunk>)
    requires forall k :: 0 <= k < |sorted| ==> sorted[k].oldStart <= h.oldStart
    ensures InsertByOldStart(h, sorted) == sorted + [h]
  {
    if |sorted| > 0 {
      InsertLast(h, sorted[1..]);
      HeadTail(sorted);
      AppendAssoc([sorted[0]], sorted[1..], [h]);
    }
  }

  /** The sorted copy is ordered by old start line and holds the same hunks. */
  lemma {:induction false} SortHunksSpec(hs: seq<Hunk>)
    ensures SortedByOldStart(SortHunks(hs))
    ensures multiset(SortHunks(hs)) == multiset(hs)
  {
    if |hs| > 0 {
      SortHunksSpec(hs[..|hs| - 1]);
      InsertSorted(hs[|hs| - 1], SortHunks(hs[..|hs| - 1]));
      InsertMultiset(hs[|hs| - 1], SortHunks(hs[..|hs| - 1]));
      InitLast(hs);
      assert multiset(hs) == multiset(hs[..|hs| - 1]) + multiset{hs[|hs| - 1]} by {
        assert hs == hs[..|hs| - 1] + [hs[|hs| - 1]];
      }
    }
  }

  /** Hunks already in order are left as they are (the insertion sort is stable). */
  lemma {:induction false} SortHunksSorted(hs: seq<Hunk>)
    requires SortedByOldStart(hs)
    ensures SortHunks(hs) == hs
  {
    if |hs| > 0 {
      var init := hs[..|hs| - 1];
      assert SortedByOldStart(init) by {
        forall p, q | 0 <= p < q < |init|
          ensures init[p].oldStart <= init[q].oldStart
        {
          assert init[p] == hs[p] && init[q] == hs[q];
        }
      }
      SortHunksSorted(init);
      forall k | 0 <= k < |init|
        ensures init[k].oldStart <= hs[|hs| - 1].oldStart
      {
        assert init[k] == hs[k];
      }
      InsertLast(hs[|hs| - 1], init);
      InitLast(hs);
    }
  }

  // ---------------------------------------------------------------------
  // ApplyHunks and ApplyFileDiff

  /** The hunks in the order ApplyHunks works through them. */
  function Ordered(hs: seq<Hunk>): seq<Hunk> {
    if |hs| > 1 then SortHunks(hs) else hs
  }

  /** ApplyHunks: exact forward merge, else loose forward merge, else fuzzy per-hunk application. */
  function Patched(orig: seq<string>, hs: seq<Hunk>): ApplyResult {
    if |hs| == 0 then Applied(orig)
    else
      var sorted := Ordered(hs);
      match Forward(orig, sorted, false)
      case Merged(r) => Applied(r)
      case Rejected(_) =>
        match Forward(orig, sorted, true)
        case Merged(r) => Applied(r)
        case Rejected(_) => Fuzzy(orig, sorted)
  }

  /** ApplyHunks */
  method ApplyHunks(orig: seq<string>, hs: seq<Hunk>) returns (res: ApplyResult)
    ensures res == Patched(orig, hs)
  {
    if |hs| == 0 {
      return Applied(orig);
    }
    var sorted := hs;
    if |hs| > 1 {
      sorted := SortHunks(hs);
    }
    var exact := ApplyHunksForward(orig, sorted, false);
    if exact.Merged? {
      return Applied(exact.lines);
    }
    var loose := ApplyHunksForward(orig, sorted, true);
    if loose.Merged? {
      return Applied(loose.lines);
    }
    res := ApplyHunksFuzzy(orig, sorted);
  }

  /**
   * What ApplyHunks promises: hunks that sit where they claim, in order,
   * replace their old lines by their new ones; the hunks are taken in order
   * of old start line; a total failure is reported for the first hunk in
   * that order; a partial one counts the applied hunks among all.
   */
  lemma PatchedSpec(orig: seq<string>, hs: seq<Hunk>)
    ensures |hs| == 0 ==> Patched(orig, hs) == Applied(orig)
    ensures SortedByOldStart(Ordered(hs)) && multiset(Ordered(hs)) == multiset(hs)
    ensures |hs| > 0 && Placed(orig, Ordered(hs), false) ==> Patched(orig, hs) == Applied(Spliced(orig, Ordered(hs), 0, 0))
    ensures Patched(orig, hs).Failed? ==> Patched(orig, hs).err.hunkIdx == 0
    ensures Patched(orig, hs).Partial? ==>
      Patched(orig, hs).partial.applied + |Patched(orig, hs).partial.errors| == Patched(orig, hs).partial.total == |hs|
  {
    SortHunksSpec(hs);
    if |hs| > 0 {
      var sorted := Ordered(hs);
      ForwardIff(orig, sorted, false);
      if Placed(orig, sorted, false) {
        ForwardFromExact(orig, sorted, 0, 0, []);
      }
      FuzzySpec(orig, sorted);
    }
  }

  /** What ApplyFileDiff returns: the patched text, a partially patched text with what failed, or a failure. */
  datatype TextResult =
    | TextOk(text: string)
    | TextPartial(text: string, partial: PartialError)
    | TextFailed(err: ApplyError)

  /** The errors, each naming the file. */
  function NameErrors(errors: seq<ApplyError>, file: string): (r: seq<ApplyError>)
    ensures |r| == |errors|
    ensures forall k :: 0 <= k < |r| ==> r[k] == errors[k].(file := file)
  {
    seq(|errors|, k requires 0 <= k < |errors| => errors[k].(file := file))
  }

  /** The line terminator ApplyFileDiff restores: one newline if the original content ended in one. */
  function FinalNewline(content: string): string {
    if |content| > 0 && content[|content| - 1] == '\n' then "\n" else ""
  }

  /** ApplyFileDiff */
  function FileApplied(content: string, fd: FileDiff): TextResult {
    if |fd.hunks| == 0 then TextOk(content)
    else
      match Patched(SplitLines(content), fd.hunks)
      case Applied(ls) => TextOk(Join(ls, '\n') + FinalNewline(content))
      case Partial(ls, pe) =>
        TextPartial(Join(ls, '\n') + FinalNewline(content), pe.(file := fd.oldName, errors := NameErrors(pe.errors, fd.oldName)))
      case Failed(e) => TextFailed(e.(file := fd.oldName))
  }

  /** ApplyFileDiff */
  method ApplyFileDiff(content: string, fd: FileDiff) returns (res: TextResult)
    ensures res == FileApplied(content, fd)
  {
    if |fd.hunks| == 0 {
      return TextOk(content);
    }
    var lines := SplitLines(content);
    var r := ApplyHunks(lines, fd.hunks);
    match r {
      case Applied(ls) =>
        res := TextOk(Join(ls, '\n') + FinalNewline(content));
      case Partial(ls, pe) =>
        res := TextPartial(Join(ls, '\n') + FinalNewline(content), pe.(file := fd.oldName, errors := NameErrors(pe.errors, fd.oldName)));
      case Failed(e) =>
        res := TextFailed(e.(file := fd.oldName));
    }
  }

  /**
   * ApplyFileDiff leaves the content alone when there are no hunks, names
   * the file in every error it reports, and splits, patches and rejoins the
   * lines, keeping a final newline.
   */
  lemma FileAppliedSpec(content: string, fd: FileDiff)
    ensures |fd.hunks| == 0 ==> FileApplied(content, fd) == TextOk(content)
    ensures FileApplied(content, fd).TextFailed? ==> FileApplied(content, fd).err.file == fd.oldName
    ensures FileApplied(content, fd).TextPartial? ==>
      var pe := FileApplied(content, fd).partial;
      pe.file == fd.oldName && forall k :: 0 <= k < |pe.errors| ==> pe.errors[k].file == fd.oldName
    ensures |fd.hunks| > 0 && Patched(SplitLines(content), fd.hunks).Applied? ==>
      FileApplied(content, fd) == TextOk(Join(Patched(SplitLines(content), fd.hunks).lines, '\n') + FinalNewline(content))
    ensures HasSuffix(content, "\n") <==> FinalNewline(content) == "\n"
  {
  }

  // ---------------------------------------------------------------------
  // Applying a multi-file diff through a file accessor

  /**
   * A FileAccessor over a table of files: reading or deleting a file that
   * is not there fails, and so does writing or deleting a read-only one.
   */
  class FileStore {
    var files: map<string, string>
    var readOnly: set<string>

    constructor (files: map<string, string>, readOnly: set<string>)
      ensures this.files == files && this.readOnly == readOnly
    {
      this.files := files;
      this.readOnly := readOnly;
    }

    method ReadFile(path: string) returns (r: Option<string>)
      ensures r == (if path in files then Some(files[path]) else None)
    {
      if path in files {
        return Some(files[path]);
      }
      return None;
    }

    method WriteFile(path: string, content: string) returns (ok: bool)
      modifies this
      ensures readOnly == old(readOnly)
      ensures ok == (path !in readOnly)
      ensures files == if ok then old(files)[path := content] else old(files)
    {
      ok := path !in readOnly;
      if ok {
        files := files[path := content];
      }
    }

    method DeleteFile(path: string) returns (ok: bool)
      modifies this
      ensures readOnly == old(readOnly)
      ensures ok == (path in old(files) && path !in readOnly)
      ensures files == if ok then old(files) - {path} else old(files)
    {
      ok := path in files && path !in readOnly;
      if ok {
        files := files - {path};
      }
    }
  }

  /** Why a file of a multi-file diff was not patched. */
  datatype FileError =
    | DeleteFailed
    | CreateFailed
    | ReadFailed
    | ApplyFailed(err: ApplyError)
    | WritePartialFailed
    | WriteFailed

  /** FileResult: the warning is set when only some hunks applied. */
  datatype FileResult = FileResult(path: string, success: bool, error: Option<FileError>, warning: Option<PartialError>)

  datatype PatchResult = PatchResult(results: seq<FileResult>, totalFiles: nat, succeeded: nat, failed: nat)

  const DevNull := "/dev/null"

  /** A diff whose new side is /dev/null or unnamed deletes its old file. */
  predicate IsDeletion(fd: FileDiff) {
    fd.newName == DevNull || fd.newName == ""
  }

  /** A diff whose old side is /dev/null or unnamed creates its new file. */
  predicate IsCreation(fd: FileDiff) {
    fd.oldName == DevNull || fd.oldName == ""
  }

  /** The file a diff is applied to: its new name, unless that is missing or /dev/null. */
  function TargetPath(fd: FileDiff): string {
    if fd.newName == "" || fd.newName == DevNull then fd.oldName else fd.newName
  }

  /** The inserted texts of some diff lines. */
  function InsertedIn(ls: seq<DiffLine>): seq<string> {
    if |ls| == 0 then []
    else InsertedIn(ls[..|ls| - 1]) + (if ls[|ls| - 1].kind == Insert then [ls[|ls| - 1].text] else [])
  }

  /** The inserted texts of all hunks: the content of a created file. */
  function InsertedTexts(hs: seq<Hunk>): seq<string> {
    if |hs| == 0 then [] else InsertedTexts(hs[..|hs| - 1]) + InsertedIn(hs[|hs| - 1].lines)
  }

  function Succeeded(path: string, warning: Option<PartialError>): FileResult {
    FileResult(path, true, None, warning)
  }

  function FailedWith(path: string, e: FileError): FileResult {
    FileResult(path, false, Some(e), None)
  }

  /** The outcome of one file of ApplyMultiFileDiff and the files after it. */
  datatype FileStep = FileStep(result: FileResult, files: map<string, string>)

  /** One round of ApplyMultiFileDiff's loop. */
  function ApplyOneFile(files: map<string, string>, readOnly: set<string>, fd: FileDiff): FileStep {
    var path := TargetPath(fd);
    if IsDeletion(fd) then
      if fd.oldName in files && fd.oldName !in readOnly then FileStep(Succeeded(fd.oldName, None), files - {fd.oldName})
      else FileStep(FailedWith(fd.oldName, DeleteFailed), files)
    else if IsCreation(fd) then
      if path !in readOnly then FileStep(Succeeded(path, None), files[path := Join(InsertedTexts(fd.hunks), '\n') + "\n"])
      else FileStep(FailedWith(path, CreateFailed), files)
    else if path !in files then FileStep(FailedWith(path, ReadFailed), files)
    else
      match FileApplied(files[path], fd)
      case TextOk(t) =>
        if path !in readOnly then FileStep(Succeeded(path, None), files[path := t])
        else FileStep(FailedWith(path, WriteFailed), files)
      case TextPartial(t, pe) =>
        if path !in readOnly then FileStep(Succeeded(path, Some(pe)), files[path := t])
        else FileStep(FailedWith(path, WritePartialFailed), files)
      case TextFailed(e) => FileStep(FailedWith(path, ApplyFailed(e)), files)
  }

  /** The state of ApplyMultiFileDiff's loop. */
  datatype MultiState = MultiState(results: seq<FileResult>, succeeded: nat, failed: nat, files: map<string, string>)

  /** The rest of ApplyMultiFileDiff's loop, from file i on. */
  function MultiFrom(readOnly: set<string>, fds: seq<FileDiff>, i: nat, st: MultiState): MultiState
    requires i <= |fds|
    decreases |fds| - i
  {
    if i == |fds| then st
    else
      var step := ApplyOneFile(st.files, readOnly, fds[i]);
      MultiFrom(readOnly, fds, i + 1,
        MultiState(st.results + [step.result],
                   if step.result.success then st.succeeded + 1 else st.succeeded,
                   if step.result.success then st.failed else st.failed + 1,
                   step.files))
  }

  /** ApplyMultiFileDiff: the result and the files afterwards. */
  function MultiApplied(files: map<string, string>, readOnly: set<string>, mfd: MultiFileDiff): (PatchResult, map<string, string>) {
    if |mfd.files| == 0 then (PatchResult([], 0, 0, 0), files)
    else
      var st := MultiFrom(readOnly, mfd.files, 0, MultiState([], 0, 0, files));
      (PatchResult(st.results, |mfd.files|, st.succeeded, st.failed), st.files)
  }

  /** The lines of one hunk that ApplyMultiFileDiff gathers for a new file. */
  method AppendInserted(acc: seq<string>, ls: seq<DiffLine>) returns (r: seq<string>)
    ensures r == acc + InsertedIn(ls)
  {
    r := acc;
    var j := 0;
    while j < |ls|
      invariant j <= |ls|
      invariant r == acc + InsertedIn(ls[..j])
    {
      TakeSnoc(ls, j);
      assert ls[..j + 1][..j] == ls[..j];
      if ls[j].kind == Insert {
        r := r + [ls[j].text];
      }
      j := j + 1;
    }
    assert ls[..j] == ls;
  }

  /** The loop of ApplyMultiFileDiff that gathers the content of a new file. */
  method CollectInserted(hs: seq<Hunk>) returns (r: seq<string>)
    ensures r == InsertedTexts(hs)
  {
    r := [];
    var k := 0;
    while k < |hs|
      invariant k <= |hs|
      invariant r == InsertedTexts(hs[..k])
    {
      TakeSnoc(hs, k);
      assert hs[..k + 1][..k] == hs[..k];
      r := AppendInserted(r, hs[k].lines);
      k := k + 1;
    }
    assert hs[..k] == hs;
  }

  /** The body of ApplyMultiFileDiff's loop for one file. */
  method PatchOneFile(store: FileStore, fd: FileDiff) returns (result: FileResult)
    modifies store
    ensures store.readOnly == old(store.readOnly)
    ensures ApplyOneFile(old(store.files), old(store.readOnly), fd) == FileStep(result, store.files)
  {
    var path := TargetPath(fd);
    if fd.newName == DevNull || fd.newName == "" {
      var ok := store.DeleteFile(fd.oldName);
      if !ok {
        return FailedWith(fd.oldName, DeleteFailed);
      }
      return Succeeded(fd.oldName, None);
    }
    if fd.oldName == DevNull || fd.oldName == "" {
      var inserted := CollectInserted(fd.hunks);
      var ok := store.WriteFile(path, Join(inserted, '\n') + "\n");
      if !ok {
        return FailedWith(path, CreateFailed);
      }
      return Succeeded(path, None);
    }
    var content := store.ReadFile(path);
    if content.None? {
      return FailedWith(path, ReadFailed);
    }
    var patched := ApplyFileDiff(content.value, fd);
    match patched {
      case TextOk(t) =>
        var ok := store.WriteFile(path, t);
        if !ok {
          return FailedWith(path, WriteFailed);
        }
        return Succeeded(path, None);
      case TextPartial(t, pe) =>
        var ok := store.WriteFile(path, t);
        if !ok {
          return FailedWith(path, WritePartialFailed);
        }
        return Succeeded(path, Some(pe));
      case TextFailed(e) =>
        return FailedWith(path, ApplyFailed(e));
    }
  }

  /** ApplyMultiFileDiff */
  method ApplyMultiFileDiff(mfd: MultiFileDiff, store: FileStore) returns (pr: PatchResult)
    modifies store
    ensures store.readOnly == old(store.readOnly)
    ensures (pr, store.files) == MultiApplied(old(store.files), old(store.readOnly), mfd)
  {
    if |mfd.files| == 0 {
      return PatchResult([], 0, 0, 0);
    }
    var results: seq<FileResult> := [];
    var succeeded: nat := 0;
    var failed: nat := 0;
    var i := 0;
    while i < |mfd.files|
      invariant i <= |mfd.files|
      invariant store.readOnly == old(store.readOnly)
      invariant MultiFrom(store.readOnly, mfd.files, i, MultiState(results, succeeded, failed, store.files))
        == MultiFrom(store.readOnly, mfd.files, 0, MultiState([], 0, 0, old(store.files)))
    {
      var r := PatchOneFile(store, mfd.files[i]);
      results := results + [r];
      if r.success {
        succeeded := succeeded + 1;
      } else {
        failed := failed + 1;
      }
      i := i + 1;
    }
    return PatchResult(results, |mfd.files|, succeeded, failed);
  }

  /** The number of results that report success. */
  function CountSucceeded(rs: seq<FileResult>): nat {
    if |rs| == 0 then 0
    else CountSucceeded(rs[..|rs| - 1]) + (if rs[|rs| - 1].success then 1 else 0)
  }

  /** p is left as it was: still absent, or present with the same content. */
  predicate SameAt(files: map<string, string>, files': map<string, string>, p: string) {
    (p in files' <==> p in files) && (p in files ==> files'[p] == files[p])
  }

  /**
   * What one file of a multi-file diff does: its result names the target
   * path, it succeeds exactly when it reports no error, only a success can
   * carry a warning, a failure changes nothing, and no other file changes; a
   * deletion removes the old file, a creation writes the inserted lines,
   * and a modification writes the patched content.
   */
  lemma ApplyOneFileSpec(files: map<string, string>, readOnly: set<string>, fd: FileDiff)
    ensures ApplyOneFile(files, readOnly, fd).result.path == TargetPath(fd)
    ensures ApplyOneFile(files, readOnly, fd).result.success <==> ApplyOneFile(files, readOnly, fd).result.error.None?
    ensures ApplyOneFile(files, readOnly, fd).result.warning.Some? ==> ApplyOneFile(files, readOnly, fd).result.success
    ensures !ApplyOneFile(files, readOnly, fd).result.success ==> ApplyOneFile(files, readOnly, fd).files == files
    ensures forall p :: p != TargetPath(fd) ==> SameAt(files, ApplyOneFile(files, readOnly, fd).files, p)
    ensures IsDeletion(fd) ==>
      (ApplyOneFile(files, readOnly, fd).result.success <==> fd.oldName in files && fd.oldName !in readOnly)
    ensures IsDeletion(fd) && ApplyOneFile(files, readOnly, fd).result.success ==>
      fd.oldName !in ApplyOneFile(files, readOnly, fd).files
    ensures !IsDeletion(fd) && IsCreation(fd) ==>
      (ApplyOneFile(files, readOnly, fd).result.success <==> TargetPath(fd) !in readOnly)
    ensures !IsDeletion(fd) && IsCreation(fd) && ApplyOneFile(files, readOnly, fd).result.success ==>
      TargetPath(fd) in ApplyOneFile(files, readOnly, fd).files &&
      ApplyOneFile(files, readOnly, fd).files[TargetPath(fd)] == Join(InsertedTexts(fd.hunks), '\n') + "\n"
    ensures !IsDeletion(fd) && !IsCreation(fd) && ApplyOneFile(files, readOnly, fd).result.success ==>
      TargetPath(fd) in files && !FileApplied(files[TargetPath(fd)], fd).TextFailed? &&
      TargetPath(fd) in ApplyOneFile(files, readOnly, fd).files &&
      ApplyOneFile(files, readOnly, fd).files[TargetPath(fd)] == FileApplied(files[TargetPath(fd)], fd).text
    ensures !IsDeletion(fd) && !IsCreation(fd) && ApplyOneFile(files, readOnly, fd).result.success ==>
      (ApplyOneFile(files, readOnly, fd).result.warning.Some? <==> FileApplied(files[TargetPath(fd)], fd).TextPartial?)
  {
  }

  /** The tally ApplyMultiFileDiff keeps after n files. */
  predicate Tally(fds: seq<FileDiff>, n: nat, st: MultiState) {
    |st.results| == n && n <= |fds| &&
    st.succeeded == CountSucceeded(st.results) && st.succeeded + st.failed == n &&
    forall k :: 0 <= k < n ==> st.results[k].path == TargetPath(fds[k])
  }

  lemma {:induction false} MultiFromTally(readOnly: set<string>, fds: seq<FileDiff>, i: nat, st: MultiState)
    requires i <= |fds| && Tally(fds, i, st)
    ensures Tally(fds, |fds|, MultiFrom(readOnly, fds, i, st))
    decreases |fds| - i
  {
    if i < |fds| {
      var step := ApplyOneFile(st.files, readOnly, fds[i]);
      ApplyOneFileSpec(st.files, readOnly, fds[i]);
      var st' := MultiState(st.results + [step.result],
                   if step.result.success then st.succeeded + 1 else st.succeeded,
                   if step.result.success then st.failed else st.failed + 1,
                   step.files);
      assert st'.results[..i] == st.results;
      MultiFromTally(readOnly, fds, i + 1, st');
    }
  }

  /**
   * ApplyMultiFileDiff reports one result per file, in order, each naming
   * the file's target path; succeeded counts the successful results and
   * succeeded + failed is the number of files.
   */
  lemma MultiAppliedCounts(files: map<string, string>, readOnly: set<string>, mfd: MultiFileDiff)
    ensures MultiApplied(files, readOnly, mfd).0.totalFiles == |mfd.files| == |MultiApplied(files, readOnly, mfd).0.results|
    ensures MultiApplied(files, readOnly, mfd).0.succeeded == CountSucceeded(MultiApplied(files, readOnly, mfd).0.results)
    ensures MultiApplied(files, readOnly, mfd).0.succeeded + MultiApplied(files, readOnly, mfd).0.failed == |mfd.files|
    ensures forall k :: 0 <= k < |mfd.files| ==> MultiApplied(files, readOnly, mfd).0.results[k].path == TargetPath(mfd.files[k])
  {
    if |mfd.files| > 0 {
      MultiFromTally(readOnly, mfd.files, 0, MultiState([], 0, 0, files));
    }
  }

  /** No diff of fds targets p. */
  predicate Untargeted(fds: seq<FileDiff>, p: string) {
    forall k :: 0 <= k < |fds| ==> TargetPath(fds[k]) != p
  }

  lemma {:induction false} MultiFromFrame(readOnly: set<string>, fds: seq<FileDiff>, i: nat, st: MultiState, p: string)
    requires i <= |fds| && Untargeted(fds, p)
    ensures SameAt(st.files, MultiFrom(readOnly, fds, i, st).files, p)
    decreases |fds| - i
  {
    if i < |fds| {
      var step := ApplyOneFile(st.files, readOnly, fds[i]);
      ApplyOneFileSpec(st.files, readOnly, fds[i]);
      assert SameAt(st.files, step.files, p);
      var st' := MultiState(st.results + [step.result],
                   if step.result.success then st.succeeded + 1 else st.succeeded,
                   if step.result.success then st.failed else st.failed + 1,
                   step.files);
      MultiFromFrame(readOnly, fds, i + 1, st', p);
    }
  }

  /** A file that no diff of the set targets is left as it was. */
  lemma MultiAppliedFrame(files: map<string, string>, readOnly: set<string>, mfd: MultiFileDiff, p: string)
    requires Untargeted(mfd.files, p)
    ensures SameAt(files, MultiApplied(files, readOnly, mfd).1, p)
  {
    if |mfd.files| > 0 {
      MultiFromFrame(readOnly, mfd.files, 0, MultiState([], 0, 0, files), p);
    }
  }
}
