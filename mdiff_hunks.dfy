/**
 * Hunk building of the mdiff package (mdiff/format.go, UnifiedDiff and
 * buildHunks).
 *
 * Every changed edit is included together with up to `contextLines` edits
 * on each side; maximal runs of included edits become hunks. A hunk's line
 * counts are the sizes of its old and new sides, and its start lines are
 * 1-based, or 0 when the corresponding count is 0.
 */
module MdiffHunks {
  import opened MdiffDiff
  import opened Seqs

  /** One line of a unified diff: its operation and its text. */
  datatype DiffLine = DiffLine(kind: OpKind, text: string)

  datatype Hunk = Hunk(oldStart: int, oldLines: int, newStart: int, newLines: int, lines: seq<DiffLine>)

  datatype FileDiff = FileDiff(oldName: string, newName: string, hunks: seq<Hunk>)

  datatype MultiFileDiff = MultiFileDiff(files: seq<FileDiff>)

  const DefaultContextLines := 3

  // ---------------------------------------------------------------------
  // The texts of diff lines

  /** The Equal and Delete texts of a hunk: the lines it expects in the old file. */
  function OldTexts(ls: seq<DiffLine>): seq<string> {
    if |ls| == 0 then []
    else OldTexts(ls[..|ls| - 1]) + (if ls[|ls| - 1].kind == Insert then [] else [ls[|ls| - 1].text])
  }

  /** The Equal and Insert texts of a hunk: the lines it leaves in the new file. */
  function NewTexts(ls: seq<DiffLine>): seq<string> {
    if |ls| == 0 then []
    else NewTexts(ls[..|ls| - 1]) + (if ls[|ls| - 1].kind == Delete then [] else [ls[|ls| - 1].text])
  }

  /** The diff lines of a run of edits. */
  function LinesOf(r: seq<Edit<string>>): seq<DiffLine> {
    seq(|r|, k requires 0 <= k < |r| => DiffLine(r[k].kind, r[k].text))
  }

  /** The diff lines of a run read the same old and new texts as the run itself. */
  lemma {:induction false} LinesSides(r: seq<Edit<string>>)
    ensures OldTexts(LinesOf(r)) == OldSide(r)
    ensures NewTexts(LinesOf(r)) == NewSide(r)
    decreases |r|
  {
    if |r| > 0 {
      var init := r[..|r| - 1];
      assert LinesOf(r)[..|r| - 1] == LinesOf(init);
      LinesSides(init);
    }
  }

  lemma {:induction false} TextsConcat(a: seq<DiffLine>, b: seq<DiffLine>)
    ensures OldTexts(a + b) == OldTexts(a) + OldTexts(b)
    ensures NewTexts(a + b) == NewTexts(a) + NewTexts(b)
    decreases |b|
  {
    if |b| == 0 {
      assert a + b == a;
    } else {
      var b' := b[..|b| - 1];
      SnocAppend(a, b);
      TextsConcat(a, b');
    }
  }

  // ---------------------------------------------------------------------
  // Marking the included edits

  predicate IsChange(e: Edit<string>) {
    e.kind != Equal
  }

  /** Edit k lies within c positions of a changed edit (itself possibly). */
  predicate Included(es: seq<Edit<string>>, c: int, k: int) {
    exists i :: 0 <= i < |es| && IsChange(es[i]) && i - c <= k <= i + c
  }

  function IncludedSeq(es: seq<Edit<string>>, c: int): seq<bool> {
    seq(|es|, k => Included(es, c, k))
  }

  /** k is within c of a changed edit among the first m. */
  ghost predicate NearChange(es: seq<Edit<string>>, c: int, k: int, m: int) {
    exists i :: 0 <= i < m && i < |es| && IsChange(es[i]) && i - c <= k <= i + c
  }

  lemma NearStep(es: seq<Edit<string>>, c: int, k: int, m: nat)
    requires m < |es|
    ensures NearChange(es, c, k, m + 1) <==> NearChange(es, c, k, m) || (IsChange(es[m]) && m - c <= k <= m + c)
  {
    if NearChange(es, c, k, m + 1) {
      var i :| 0 <= i < m + 1 && i < |es| && IsChange(es[i]) && i - c <= k <= i + c;
      if i < m {
        assert NearChange(es, c, k, m);
      }
    }
  }

  /** The two context loops of buildHunks around the changed edit i. */
  method Widen(a: array<bool>, i: int, c: int)
    requires 0 <= i < a.Length && c >= 0 && a[i]
    modifies a
    ensures forall k :: 0 <= k < a.Length ==> a[k] == (old(a[k]) || i - c <= k <= i + c)
  {
    var n := a.Length;
    var j := i - 1;
    while j >= 0 && j >= i - c
      invariant -1 <= j <= i - 1 && j >= i - c - 1
      invariant forall k :: 0 <= k < n ==> a[k] == (old(a[k]) || (j < k < i))
    {
      a[j] := true;
      j := j - 1;
    }
    j := i + 1;
    while j < n && j <= i + c
      invariant i + 1 <= j <= n && j <= i + c + 1
      invariant forall k :: 0 <= k < n ==> a[k] == (old(a[k]) || (i - c <= k < i) || (i < k < j))
    {
      a[j] := true;
      j := j + 1;
    }
  }

  /**
   * The include flags of buildHunks: the changed edits first, then for each
   * changed edit i the edits from i - c to i + c that exist.
   */
  method MarkIncluded(es: seq<Edit<string>>, c: int) returns (inc: seq<bool>)
    requires c >= 0
    ensures inc == IncludedSeq(es, c)
  {
    var n := |es|;
    var a := new bool[n](_ => false);
    for i := 0 to n
      invariant forall k :: 0 <= k < n ==> a[k] == (k < i && IsChange(es[k]))
    {
      if IsChange(es[i]) {
        a[i] := true;
      }
    }
    var i := 0;
    while i < n
      invariant 0 <= i <= n
      invariant forall k :: 0 <= k < n ==> a[k] == (IsChange(es[k]) || NearChange(es, c, k, i))
    {
      if IsChange(es[i]) {
        Widen(a, i, c);
      }
      forall k | 0 <= k < n
        ensures a[k] == (IsChange(es[k]) || NearChange(es, c, k, i + 1))
      {
        NearStep(es, c, k, i);
      }
      i := i + 1;
    }
    inc := a[..];
    forall k | 0 <= k < n
      ensures inc[k] == Included(es, c, k)
    {
      if IsChange(es[k]) {
        assert NearChange(es, c, k, n);
      }
      if Included(es, c, k) {
        var w :| 0 <= w < |es| && IsChange(es[w]) && w - c <= k <= w + c;
        assert NearChange(es, c, k, n);
      }
      if NearChange(es, c, k, n) {
        var w :| 0 <= w < n && w < |es| && IsChange(es[w]) && w - c <= k <= w + c;
        assert Included(es, c, k);
      }
    }
  }

  /** A changed edit is always included (c >= 0). */
  lemma ChangeIncluded(es: seq<Edit<string>>, c: int, k: nat)
    requires c >= 0 && k < |es| && IsChange(es[k])
    ensures Included(es, c, k)
  {
  }

  // ---------------------------------------------------------------------
  // One hunk

  /**
   * The first old position an Equal or Delete edit of the run sets, or -1:
   * buildHunks keeps -1 as "not set yet".
   */
  function FirstOld(r: seq<Edit<string>>): int {
    if |r| == 0 then -1
    else
      var p := FirstOld(r[..|r| - 1]);
      if p == -1 && r[|r| - 1].kind != Insert then r[|r| - 1].oldPos else p
  }

  function FirstNew(r: seq<Edit<string>>): int {
    if |r| == 0 then -1
    else
      var p := FirstNew(r[..|r| - 1]);
      if p == -1 && r[|r| - 1].kind != Delete then r[|r| - 1].newPos else p
  }

  /** The hunk buildHunks makes of the edits es[s..t]. */
  function HunkOf(es: seq<Edit<string>>, s: nat, t: nat): Hunk
    requires s <= t <= |es|
  {
    var r := es[s..t];
    var oc := |OldSide(r)|;
    var nc := |NewSide(r)|;
    var os := if FirstOld(r) != -1 then FirstOld(r)
              else if s > 0 && es[s - 1].kind != Insert then es[s - 1].oldPos + 1
              else 0;
    var ns := if FirstNew(r) != -1 then FirstNew(r)
              else if s > 0 && es[s - 1].kind != Delete then es[s - 1].newPos + 1
              else 0;
    Hunk(if oc == 0 then 0 else os + 1, oc, if nc == 0 then 0 else ns + 1, nc, LinesOf(r))
  }

  /** Extending a run by one edit. */
  lemma {:induction false} RunSnoc(r: seq<Edit<string>>, e: Edit<string>)
    ensures var r' := r + [e];
      && OldSide(r') == OldSide(r) + OldOf(e) && NewSide(r') == NewSide(r) + NewOf(e)
      && FirstOld(r') == (if FirstOld(r) == -1 && e.kind != Insert then e.oldPos else FirstOld(r))
      && FirstNew(r') == (if FirstNew(r) == -1 && e.kind != Delete then e.newPos else FirstNew(r))
      && LinesOf(r') == LinesOf(r) + [DiffLine(e.kind, e.text)]
  {
    var r' := r + [e];
    assert r'[..|r'| - 1] == r;
  }

  /** The lengths of the two sides of a run extended by one edit. */
  lemma {:induction false} RunSnocCounts(r: seq<Edit<string>>, e: Edit<string>)
    ensures |OldSide(r + [e])| == |OldSide(r)| + (if e.kind == Insert then 0 else 1)
    ensures |NewSide(r + [e])| == |NewSide(r)| + (if e.kind == Delete then 0 else 1)
  {
    RunSnoc(r, e);
  }

  /** The body of the loop of buildHunks over a run, for one edit. */
  method ScanEdit(e: Edit<string>, lines: seq<DiffLine>, oldCount: int, newCount: int,
                  hunkOldStart: int, hunkNewStart: int)
    returns (lines': seq<DiffLine>, oldCount': int, newCount': int, hunkOldStart': int, hunkNewStart': int)
    ensures lines' == lines + [DiffLine(e.kind, e.text)]
    ensures oldCount' == oldCount + (if e.kind == Insert then 0 else 1)
    ensures newCount' == newCount + (if e.kind == Delete then 0 else 1)
    ensures hunkOldStart' == (if hunkOldStart == -1 && e.kind != Insert then e.oldPos else hunkOldStart)
    ensures hunkNewStart' == (if hunkNewStart == -1 && e.kind != Delete then e.newPos else hunkNewStart)
  {
    lines', oldCount', newCount', hunkOldStart', hunkNewStart' := lines, oldCount, newCount, hunkOldStart, hunkNewStart;
    match e.kind {
      case Equal =>
        if hunkOldStart' == -1 {
          hunkOldStart' := e.oldPos;
        }
        if hunkNewStart' == -1 {
          hunkNewStart' := e.newPos;
        }
        lines' := lines' + [DiffLine(Equal, e.text)];
        oldCount' := oldCount' + 1;
        newCount' := newCount' + 1;
      case Delete =>
        if hunkOldStart' == -1 {
          hunkOldStart' := e.oldPos;
        }
        lines' := lines' + [DiffLine(Delete, e.text)];
        oldCount' := oldCount' + 1;
      case Insert =>
        if hunkNewStart' == -1 {
          hunkNewStart' := e.newPos;
        }
        lines' := lines' + [DiffLine(Insert, e.text)];
        newCount' := newCount' + 1;
    }
  }

  /**
   * The loop of buildHunks over one run es[s..t]: the diff lines, the two
   * counts and the first positions the run sets.
   */
  method ScanRun(es: seq<Edit<string>>, s: nat, t: nat)
    returns (lines: seq<DiffLine>, oldCount: int, newCount: int, hunkOldStart: int, hunkNewStart: int)
    requires s <= t <= |es|
    ensures lines == LinesOf(es[s..t])
    ensures oldCount == |OldSide(es[s..t])| && newCount == |NewSide(es[s..t])|
    ensures hunkOldStart == FirstOld(es[s..t]) && hunkNewStart == FirstNew(es[s..t])
  {
    lines := [];
    oldCount, newCount := 0, 0;
    hunkOldStart, hunkNewStart := -1, -1;
    var idx := s;
    ghost var r: seq<Edit<string>> := [];
    while idx < t
      invariant s <= idx <= t && |r| == idx - s
      invariant forall k :: 0 <= k < |r| ==> r[k] == es[s + k]
      invariant lines == LinesOf(r)
      invariant oldCount == |OldSide(r)| && newCount == |NewSide(r)|
      invariant hunkOldStart == FirstOld(r) && hunkNewStart == FirstNew(r)
    {
      var e := es[idx];
      RunSnoc(r, e);
      RunSnocCounts(r, e);
      lines, oldCount, newCount, hunkOldStart, hunkNewStart :=
        ScanEdit(e, lines, oldCount, newCount, hunkOldStart, hunkNewStart);
      r := r + [e];
      idx := idx + 1;
    }
    assert r == es[s..t];
  }

  /** One hunk of buildHunks: the run scanned, then its start lines derived. */
  method BuildHunk(es: seq<Edit<string>>, s: nat, t: nat) returns (h: Hunk)
    requires s <= t <= |es|
    ensures h == HunkOf(es, s, t)
  {
    var lines, oldCount, newCount, hunkOldStart, hunkNewStart := ScanRun(es, s, t);
    if hunkOldStart == -1 {
      if s > 0 && (es[s - 1].kind == Equal || es[s - 1].kind == Delete) {
        hunkOldStart := es[s - 1].oldPos + 1;
      } else {
        hunkOldStart := 0;
      }
    }
    if hunkNewStart == -1 {
      if s > 0 && (es[s - 1].kind == Equal || es[s - 1].kind == Insert) {
        hunkNewStart := es[s - 1].newPos + 1;
      } else {
        hunkNewStart := 0;
      }
    }
    var oldStartFinal := hunkOldStart + 1;
    var newStartFinal := hunkNewStart + 1;
    if oldCount == 0 {
      oldStartFinal := 0;
    }
    if newCount == 0 {
      newStartFinal := 0;
    }
    h := Hunk(oldStartFinal, oldCount, newStartFinal, newCount, lines);
  }

  // ---------------------------------------------------------------------
  // Grouping

  /** The run es[start..end] of included edits. */
  datatype Span = Span(start: nat, end: nat)

  /** The end of the maximal run of included edits starting at i. */
  function RunEnd(inc: seq<bool>, i: nat): (t: nat)
    requires i <= |inc|
    ensures i <= t <= |inc| && (t == |inc| || !inc[t])
    ensures forall k :: i <= k < t ==> inc[k]
    ensures i < |inc| && inc[i] ==> i < t
    decreases |inc| - i
  {
    if i < |inc| && inc[i] then RunEnd(inc, i + 1) else i
  }

  /** The maximal runs of included edits from index i on, in order. */
  function Spans(inc: seq<bool>, i: nat): (sp: seq<Span>)
    requires i <= |inc|
    ensures forall k :: 0 <= k < |sp| ==> i <= sp[k].start < sp[k].end <= |inc|
    decreases |inc| - i
  {
    if i == |inc| then []
    else if !inc[i] then Spans(inc, i + 1)
    else
      var t := RunEnd(inc, i);
      [Span(i, t)] + Spans(inc, t)
  }

  /** Each span is a maximal run: included throughout, followed by an excluded edit or the end. */
  predicate MaximalRuns(inc: seq<bool>, sp: seq<Span>)
    requires forall k :: 0 <= k < |sp| ==> sp[k].end <= |inc|
  {
    forall k :: 0 <= k < |sp| ==>
      (sp[k].end == |inc| || !inc[sp[k].end]) &&
      forall j :: sp[k].start <= j < sp[k].end ==> inc[j]
  }

  lemma {:induction false} SpansMaximal(inc: seq<bool>, i: nat)
    requires i <= |inc|
    ensures MaximalRuns(inc, Spans(inc, i))
    decreases |inc| - i
  {
    if i < |inc| {
      SpansMaximal(inc, if inc[i] then RunEnd(inc, i) else i + 1);
    }
  }

  /** The spans are disjoint and in increasing order. */
  predicate Ordered(sp: seq<Span>) {
    forall k, k' :: 0 <= k < k' < |sp| ==> sp[k].end <= sp[k'].start
  }

  lemma {:induction false} SpansOrdered(inc: seq<bool>, i: nat)
    requires i <= |inc|
    ensures Ordered(Spans(inc, i))
    decreases |inc| - i
  {
    if i < |inc| {
      if !inc[i] {
        SpansOrdered(inc, i + 1);
      } else {
        var t := RunEnd(inc, i);
        SpansOrdered(inc, t);
        var sp, sp' := Spans(inc, i), Spans(inc, t);
        assert sp == [Span(i, t)] + sp';
        forall k, k' | 0 <= k < k' < |sp| ensures sp[k].end <= sp[k'].start {
          assert sp[k'] == sp'[k' - 1];
          if k > 0 {
            assert sp[k] == sp'[k - 1];
          }
        }
      }
    }
  }

  /** Every span starts with an included edit. */
  predicate StartsIncluded(inc: seq<bool>, sp: seq<Span>) {
    forall k :: 0 <= k < |sp| && sp[k].start < |inc| ==> inc[sp[k].start]
  }

  lemma {:induction false} SpansStartIncluded(inc: seq<bool>, i: nat)
    requires i <= |inc|
    ensures StartsIncluded(inc, Spans(inc, i))
    decreases |inc| - i
  {
    if i < |inc| {
      if !inc[i] {
        SpansStartIncluded(inc, i + 1);
      } else {
        var t := RunEnd(inc, i);
        SpansStartIncluded(inc, t);
        var sp, sp' := Spans(inc, i), Spans(inc, t);
        assert sp == [Span(i, t)] + sp';
        forall k | 0 < k < |sp| && sp[k].start < |inc| ensures inc[sp[k].start] {
          assert sp[k] == sp'[k - 1];
        }
      }
    }
  }

  /** No spans from i on means no included edit from i on. */
  lemma {:induction false} SpansEmpty(inc: seq<bool>, i: nat)
    requires i <= |inc|
    ensures Spans(inc, i) == [] ==> forall j :: i <= j < |inc| ==> !inc[j]
    decreases |inc| - i
  {
    if i < |inc| && !inc[i] {
      SpansEmpty(inc, i + 1);
    }
  }

  /** No included edit from i on means no spans from i on. */
  lemma {:induction false} SpansNone(inc: seq<bool>, i: nat)
    requires i <= |inc| && forall j :: i <= j < |inc| ==> !inc[j]
    ensures Spans(inc, i) == []
    decreases |inc| - i
  {
    if i < |inc| {
      SpansNone(inc, i + 1);
    }
  }

  /** Every span starts at i or right after an excluded edit. */
  predicate StartsAfterGap(inc: seq<bool>, sp: seq<Span>, i: nat) {
    forall k :: 0 <= k < |sp| && i < sp[k].start <= |inc| ==> !inc[sp[k].start - 1]
  }

  lemma {:induction false} SpansStartAfterGap(inc: seq<bool>, i: nat)
    requires i <= |inc|
    ensures StartsAfterGap(inc, Spans(inc, i), i)
    decreases |inc| - i
  {
    if i < |inc| {
      if !inc[i] {
        SpansStartAfterGap(inc, i + 1);
        var sp := Spans(inc, i + 1);
        assert Spans(inc, i) == sp;
        forall k | 0 <= k < |sp| && i < sp[k].start <= |inc| ensures !inc[sp[k].start - 1] {
          if sp[k].start > i + 1 {
            assert i + 1 < sp[k].start <= |inc|;
          }
        }
      } else {
        var t := RunEnd(inc, i);
        SpansStartAfterGap(inc, t);
        SpansStartIncluded(inc, t);
        var sp, sp' := Spans(inc, i), Spans(inc, t);
        assert sp == [Span(i, t)] + sp';
        forall k | 0 <= k < |sp| && i < sp[k].start <= |inc| ensures !inc[sp[k].start - 1] {
          assert k > 0;
          assert sp[k] == sp'[k - 1];
          assert inc[sp'[k - 1].start];
        }
      }
    }
  }

  /** From a run start, the spans are that run followed by the spans after it. */
  lemma SpansAtRun(inc: seq<bool>, i: nat)
    requires i < |inc| && inc[i]
    ensures Spans(inc, i) == [Span(i, RunEnd(inc, i))] + Spans(inc, RunEnd(inc, i))
  {
  }

  /** The loop of buildHunks that finds the end of a run. */
  method FindRunEnd(inc: seq<bool>, start: nat) returns (t: nat)
    requires start < |inc| && inc[start]
    ensures t == RunEnd(inc, start)
  {
    t := start;
    while t < |inc| && inc[t]
      invariant start <= t <= |inc|
      invariant RunEnd(inc, t) == RunEnd(inc, start)
      decreases |inc| - t
    {
      t := t + 1;
    }
  }

  predicate ValidSpans(sp: seq<Span>, n: nat) {
    forall k :: 0 <= k < |sp| ==> sp[k].start <= sp[k].end <= n
  }

  /** One hunk per span. */
  function HunksOf(es: seq<Edit<string>>, sp: seq<Span>): seq<Hunk>
    requires ValidSpans(sp, |es|)
  {
    seq(|sp|, k requires 0 <= k < |sp| => HunkOf(es, sp[k].start, sp[k].end))
  }

  /** The hunks of buildHunks: one per maximal run of included edits, in order. */
  function Hunks(es: seq<Edit<string>>, c: int): seq<Hunk> {
    HunksOf(es, Spans(IncludedSeq(es, c), 0))
  }

  /** The grouping loop of buildHunks: one hunk per maximal run of included edits. */
  method GroupRuns(es: seq<Edit<string>>, inc: seq<bool>) returns (hunks: seq<Hunk>)
    requires |inc| == |es|
    ensures hunks == HunksOf(es, Spans(inc, 0))
  {
    var n := |es|;
    hunks := [];
    ghost var done: seq<Span> := [];
    var i := 0;
    while i < n
      invariant 0 <= i <= n
      invariant Spans(inc, 0) == done + Spans(inc, i)
      invariant |hunks| == |done| && ValidSpans(done, n)
      invariant forall k :: 0 <= k < |done| ==> hunks[k] == HunkOf(es, done[k].start, done[k].end)
      decreases n - i
    {
      if !inc[i] {
        i := i + 1;
        continue;
      }
      var start := i;
      i := FindRunEnd(inc, start);
      var h := BuildHunk(es, start, i);
      SpansAtRun(inc, start);
      AppendAssoc(done, [Span(start, i)], Spans(inc, i));
      done := done + [Span(start, i)];
      hunks := hunks + [h];
    }
    assert done == Spans(inc, 0);
  }

  method BuildHunks(es: seq<Edit<string>>, c: int) returns (hunks: seq<Hunk>)
    requires c >= 0
    ensures hunks == Hunks(es, c)
  {
    if |es| == 0 {
      return [];
    }
    var inc := MarkIncluded(es, c);
    hunks := GroupRuns(es, inc);
  }

  // ---------------------------------------------------------------------
  // UnifiedDiff

  predicate HasChanges(es: seq<Edit<string>>) {
    exists k :: 0 <= k < |es| && IsChange(es[k])
  }

  /** The scan of UnifiedDiff for a non-Equal edit. */
  method AnyChange(es: seq<Edit<string>>) returns (hasChanges: bool)
    ensures hasChanges == HasChanges(es)
  {
    hasChanges := false;
    var k := 0;
    while k < |es|
      invariant 0 <= k <= |es| && !hasChanges
      invariant forall j :: 0 <= j < k ==> !IsChange(es[j])
    {
      if es[k].kind != Equal {
        hasChanges := true;
        break;
      }
      k := k + 1;
    }
  }

  /** The FileDiff UnifiedDiff builds from an edit script. */
  function FileDiffOf(oldName: string, newName: string, es: seq<Edit<string>>, contextLines: int): FileDiff {
    var c := if contextLines <= 0 then DefaultContextLines else contextLines;
    FileDiff(oldName, newName, if HasChanges(es) then Hunks(es, c) else [])
  }

  /**
   * The unified diff of two versions of a file: the hunks of the shortest
   * edit script Diff computes, with contextLines <= 0 meaning 3.
   */
  method UnifiedDiff(oldName: string, newName: string, oldLines: seq<string>, newLines: seq<string>, contextLines: int)
    returns (fd: FileDiff, ghost edits: seq<Edit<string>>)
    ensures Script(edits, oldLines, newLines, 0, 0, Lcs(oldLines, newLines))
    ensures fd == FileDiffOf(oldName, newName, edits, contextLines)
  {
    var c := contextLines;
    if c <= 0 {
      c := DefaultContextLines;
    }
    var es := Diff(oldLines, newLines);
    edits := es;
    if |es| == 0 {
      fd := FileDiff(oldName, newName, []);
      return;
    }
    var hasChanges := AnyChange(es);
    if !hasChanges {
      fd := FileDiff(oldName, newName, []);
      return;
    }
    var hunks := BuildHunks(es, c);
    fd := FileDiff(oldName, newName, hunks);
  }

  // ---------------------------------------------------------------------
  // Properties of the hunks

  lemma {:induction false} SplitSides(es: seq<Edit<string>>, i: nat, j: nat)
    requires i <= j <= |es|
    ensures OldSide(es[..j]) == OldSide(es[..i]) + OldSide(es[i..j])
    ensures NewSide(es[..j]) == NewSide(es[..i]) + NewSide(es[i..j])
  {
    assert es[..j] == es[..i] + es[i..j];
    SidesConcat(es[..i], es[i..j]);
  }

  /** In a positioned script the first position a run sets is where the run starts. */
  lemma {:induction false} FirstPositioned(es: seq<Edit<string>>, s: nat, idx: nat)
    requires Positioned(es, 0, 0) && s <= idx <= |es|
    ensures FirstOld(es[s..idx]) == (if |OldSide(es[s..idx])| == 0 then -1 else |OldSide(es[..s])|)
    ensures FirstNew(es[s..idx]) == (if |NewSide(es[s..idx])| == 0 then -1 else |NewSide(es[..s])|)
    decreases idx - s
  {
    if idx == s {
      assert es[s..idx] == [];
    } else {
      var j := idx - 1;
      FirstPositioned(es, s, j);
      RunSnoc(es[s..j], es[j]);
      SliceSnoc(es, s, j);
      PositionedAt(es, 0, 0, j);
      SplitSides(es, s, j);
    }
  }

  /**
   * The hunk of a run of a positioned script: its counts are the sizes of
   * the run's two sides, its start lines are 1-based line numbers of the
   * run in the two files (0 for an empty side), and its lines read the
   * run's texts.
   */
  lemma {:induction false} HunkShape(es: seq<Edit<string>>, s: nat, t: nat)
    requires Positioned(es, 0, 0) && s <= t <= |es|
    ensures var h := HunkOf(es, s, t);
      && h.oldLines == |OldSide(es[s..t])| && h.newLines == |NewSide(es[s..t])|
      && h.oldStart == (if h.oldLines == 0 then 0 else |OldSide(es[..s])| + 1)
      && h.newStart == (if h.newLines == 0 then 0 else |NewSide(es[..s])| + 1)
      && OldTexts(h.lines) == OldSide(es[s..t]) && NewTexts(h.lines) == NewSide(es[s..t])
  {
    FirstPositioned(es, s, t);
    LinesSides(es[s..t]);
  }

  /** There are no hunks iff no edit is a change (format.go:53-66 and buildHunks agree). */
  lemma {:induction false} NoHunksIffNoChange(es: seq<Edit<string>>, c: int)
    requires c >= 0
    ensures Hunks(es, c) == [] <==> !HasChanges(es)
  {
    var inc := IncludedSeq(es, c);
    var sp := Spans(inc, 0);
    assert |Hunks(es, c)| == |sp|;
    if HasChanges(es) {
      var k :| 0 <= k < |es| && IsChange(es[k]);
      assert inc[k];
      SpansEmpty(inc, 0);
    } else {
      assert forall k :: 0 <= k < |es| ==> !inc[k];
      SpansNone(inc, 0);
    }
  }

  /** With context, a run that does not start the script starts with an Equal edit. */
  lemma {:induction false} RunStartEqual(es: seq<Edit<string>>, c: int, s: nat)
    requires c >= 1 && 0 < s < |es| && !Included(es, c, s - 1)
    ensures es[s].kind == Equal
  {
  }

  /** Every run of included edits that does not start the script starts with an Equal edit. */
  predicate RunStartsEqual(es: seq<Edit<string>>, inc: seq<bool>)
    requires |inc| == |es|
  {
    forall s {:trigger es[s]} :: 0 < s < |es| && inc[s] && !inc[s - 1] ==> es[s].kind == Equal
  }

  lemma {:induction false} IncludedRunStarts(es: seq<Edit<string>>, c: int)
    requires c >= 1
    ensures RunStartsEqual(es, IncludedSeq(es, c))
  {
    var inc := IncludedSeq(es, c);
    forall s | 0 < s < |es| && inc[s] && !inc[s - 1]
      ensures es[s].kind == Equal
    {
      RunStartEqual(es, c, s);
    }
  }

  /** A run of Spans(inc, 0) either starts the script or follows an excluded edit. */
  lemma {:induction false} SpanStart(es: seq<Edit<string>>, inc: seq<bool>, k: nat)
    requires |inc| == |es| && RunStartsEqual(es, inc)
    requires k < |Spans(inc, 0)|
    ensures var s := Spans(inc, 0)[k].start; s == 0 || es[s].kind == Equal
  {
    var sp := Spans(inc, 0);
    var s := sp[k].start;
    SpansStartAfterGap(inc, 0);
    SpansStartIncluded(inc, 0);
    assert inc[s];
    assert s == 0 || !inc[s - 1];
  }

  predicate SortedByOldStart(hs: seq<Hunk>) {
    forall p, q :: 0 <= p < q < |hs| ==> hs[p].oldStart <= hs[q].oldStart
  }

  /** The old side of es[..j] is at least as long as that of es[..i] + es[i]'s own. */
  lemma {:induction false} OldSideGrows(es: seq<Edit<string>>, i: nat, j: nat)
    requires i < j <= |es| && es[i].kind != Insert
    ensures |OldSide(es[..j])| >= |OldSide(es[..i])| + 1
  {
    SplitSides(es, i, i + 1);
    SplitSides(es, i + 1, j);
    assert es[i..i + 1] == [es[i]];
    SidesOne(es[i]);
  }

  /** The old start line of the hunk of a run es[i..t] that starts at a run boundary. */
  lemma {:induction false} RunHunkStart(es: seq<Edit<string>>, i: nat, t: nat)
    requires Positioned(es, 0, 0) && i < t <= |es|
    requires i == 0 || es[i].kind == Equal
    ensures HunkOf(es, i, t).oldStart <= |OldSide(es[..t])| + 1
    ensures i > 0 ==> HunkOf(es, i, t).oldStart == |OldSide(es[..i])| + 1
  {
    HunkShape(es, i, t);
    SplitSides(es, i, t);
    if i > 0 {
      OldSideGrows(es, i, t);
    }
  }

  lemma {:induction false} PairOrdered(es: seq<Edit<string>>, inc: seq<bool>, p: nat, q: nat)
    requires |inc| == |es| && Positioned(es, 0, 0) && RunStartsEqual(es, inc)
    requires p < q < |Spans(inc, 0)|
    ensures var sp := Spans(inc, 0);
      HunkOf(es, sp[p].start, sp[p].end).oldStart <= HunkOf(es, sp[q].start, sp[q].end).oldStart
  {
    var sp := Spans(inc, 0);
    SpansOrdered(inc, 0);
    SpanStart(es, inc, p);
    SpanStart(es, inc, q);
    RunHunkStart(es, sp[p].start, sp[p].end);
    RunHunkStart(es, sp[q].start, sp[q].end);
    SplitSides(es, sp[p].end, sp[q].start);
  }

  /**
   * With at least one line of context the hunks of a positioned script are
   * in order of old start line: only a hunk at the very start of the script
   * can have an empty old side (old start 0).
   */
  lemma {:induction false} HunksSorted(es: seq<Edit<string>>, c: int)
    requires c >= 1 && Positioned(es, 0, 0)
    ensures SortedByOldStart(Hunks(es, c))
  {
    var inc := IncludedSeq(es, c);
    var hs := Hunks(es, c);
    IncludedRunStarts(es, c);
    forall p, q | 0 <= p < q < |hs|
      ensures hs[p].oldStart <= hs[q].oldStart
    {
      PairOrdered(es, inc, p, q);
    }
  }
}
