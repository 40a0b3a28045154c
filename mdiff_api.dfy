// The entry points of the mdiff package (mdiff/mdiff.go): diffing whole
// file contents, batch diffs, patching text with a patch text, and the
// statistics of a multi-file diff.

module MdiffApi {
  import opened GoStrings
  import opened MdiffDiff
  import opened MdiffHunks
  import opened MdiffFormat
  import opened MdiffParse
  import opened MdiffPatch
  import opened MdiffRoundTrip
  import opened MdiffPatchRoundTrip

  /** One file of a batch diff: an empty old content is a new file, an empty new content a deleted one. */
  datatype FileChange = FileChange(path: string, oldContent: string, newContent: string)

  // ---------------------------------------------------------------------
  // DiffFiles

  /** DiffFiles: UnifiedDiff of the lines of the two contents. */
  method DiffFiles(oldName: string, oldContent: string, newName: string, newContent: string, contextLines: int)
    returns (fd: FileDiff, ghost edits: seq<Edit<string>>)
    ensures Script(edits, SplitLines(oldContent), SplitLines(newContent), 0, 0,
                   Lcs(SplitLines(oldContent), SplitLines(newContent)))
    ensures fd == FileDiffOf(oldName, newName, edits, contextLines)
  {
    var oldLines := SplitLines(oldContent);
    var newLines := SplitLines(newContent);
    fd, edits := UnifiedDiff(oldName, newName, oldLines, newLines, contextLines);
  }

  /** Every edit's text is a line of a side the edit belongs to. */
  lemma {:induction false} EditTexts(es: seq<Edit<string>>)
    ensures forall k :: 0 <= k < |es| && es[k].kind != Insert ==> es[k].text in OldSide(es)
    ensures forall k :: 0 <= k < |es| && es[k].kind != Delete ==> es[k].text in NewSide(es)
    decreases |es|
  {
    if |es| > 0 {
      var n := |es| - 1;
      var init := es[..n];
      EditTexts(init);
      assert OldSide(es) == OldSide(init) + OldOf(es[n]);
      assert NewSide(es) == NewSide(init) + NewOf(es[n]);
      forall k | 0 <= k < |es| && es[k].kind != Insert ensures es[k].text in OldSide(es) {
        if k < n {
          assert init[k] == es[k];
          assert es[k].text in OldSide(init);
        } else {
          assert es[k].text in OldOf(es[n]);
        }
      }
      forall k | 0 <= k < |es| && es[k].kind != Delete ensures es[k].text in NewSide(es) {
        if k < n {
          assert init[k] == es[k];
          assert es[k].text in NewSide(init);
        } else {
          assert es[k].text in NewOf(es[n]);
        }
      }
    }
  }

  /** Lines without a newline in them. */
  predicate NoNewlines(ls: seq<string>) {
    forall i :: 0 <= i < |ls| ==> '\n' !in ls[i]
  }

  /** The sides of a script cut at edits s and t: what lies before s and within s..t fits in the whole side. */
  lemma {:induction false} SideBounds(es: seq<Edit<string>>, s: nat, t: nat)
    requires s <= t <= |es|
    ensures |OldSide(es[..s])| + |OldSide(es[s..t])| <= |OldSide(es)|
    ensures |NewSide(es[..s])| + |NewSide(es[s..t])| <= |NewSide(es)|
  {
    SplitSides(es, s, t);
    SplitSides(es, t, |es|);
    assert es[..|es|] == es;
  }

  /** The hunk of any run of a script between newline-free files of int64-countable size is well formed. */
  lemma {:induction false} HunkOfWf(es: seq<Edit<string>>, a: seq<string>, b: seq<string>, s: nat, t: nat)
    requires Transforms(es, a, b) && Positioned(es, 0, 0) && s <= t <= |es|
    requires NoNewlines(a) && NoNewlines(b) && |a| < Int64Max && |b| < Int64Max
    ensures WfHunk(HunkOf(es, s, t))
  {
    var h := HunkOf(es, s, t);
    HunkShape(es, s, t);
    SideBounds(es, s, t);
    EditTexts(es);
    forall j | 0 <= j < |h.lines| ensures '\n' !in h.lines[j].text {
      assert h.lines[j].text == es[s + j].text;
      if es[s + j].kind != Insert {
        var i :| 0 <= i < |a| && a[i] == es[s + j].text;
      } else {
        var i :| 0 <= i < |b| && b[i] == es[s + j].text;
      }
    }
  }

  /**
   * The file diff of a script with changes between newline-free files of
   * int64-countable size, under names the parser reads back, is one that
   * formatting and parsing preserve.
   */
  lemma {:induction false} FileDiffOfWf(oldName: string, newName: string, es: seq<Edit<string>>, contextLines: int,
                                       a: seq<string>, b: seq<string>)
    requires WfName(oldName) && WfName(newName) && HasChanges(es)
    requires Transforms(es, a, b) && Positioned(es, 0, 0)
    requires NoNewlines(a) && NoNewlines(b) && |a| < Int64Max && |b| < Int64Max
    ensures WfFileDiff(FileDiffOf(oldName, newName, es, contextLines))
  {
    var c := if contextLines <= 0 then DefaultContextLines else contextLines;
    var hs := Hunks(es, c);
    NoHunksIffNoChange(es, c);
    var sp := Spans(IncludedSeq(es, c), 0);
    forall k | 0 <= k < |hs| ensures WfHunk(hs[k]) {
      assert hs[k] == HunkOf(es, sp[k].start, sp[k].end);
      HunkOfWf(es, a, b, sp[k].start, sp[k].end);
    }
  }

  // ---------------------------------------------------------------------
  // PatchText

  /** What PatchText returns: the outcome of ApplyFileDiff, or the parse error (with an empty text). */
  datatype PatchOutcome = Patch(result: TextResult) | PatchParseFailed(error: ParseError)

  function PatchTextOf(original: string, patchText: string): PatchOutcome {
    match ParseFile(patchText)
    case Err(e) => PatchParseFailed(e)
    case Ok(fd) => Patch(FileApplied(original, fd))
  }

  /** PatchText: parse the first file of the patch text and apply it to the original. */
  method PatchText(original: string, patchText: string) returns (r: PatchOutcome)
    ensures r == PatchTextOf(original, patchText)
  {
    var fd := ParseFileDiff(patchText);
    if fd.Err? {
      return PatchParseFailed(fd.error);
    }
    var applied := ApplyFileDiff(original, fd.value);
    r := Patch(applied);
  }

  /** A blank patch text parses to a diff without hunks, which leaves the original as it is. */
  lemma PatchTextBlank(original: string, patchText: string)
    requires TrimSpace(patchText) == ""
    ensures PatchTextOf(original, patchText) == Patch(TextOk(original))
  {
  }

  // ---------------------------------------------------------------------
  // The round trip diff, format, parse, apply

  /** Two texts with the same lines and the same final newline are the same text. */
  lemma {:induction false} SameLinesSameText(x: string, y: string)
    requires SplitLines(x) == SplitLines(y) && HasSuffix(x, "\n") == HasSuffix(y, "\n")
    ensures x == y
  {
    SplitLinesJoin(x);
    SplitLinesJoin(y);
  }

  /**
   * ApplyFileDiff of a file diff UnifiedDiff makes from an edit script
   * between the lines of two contents turns the old content into the new
   * one when both agree on ending in a newline.
   */
  lemma {:induction false} ApplyDiffRoundTrip(oldName: string, oldContent: string, newName: string, newContent: string,
                                             contextLines: int, es: seq<Edit<string>>)
    requires Transforms(es, SplitLines(oldContent), SplitLines(newContent)) && Positioned(es, 0, 0)
    requires HasSuffix(oldContent, "\n") == HasSuffix(newContent, "\n")
    ensures FileApplied(oldContent, FileDiffOf(oldName, newName, es, contextLines)) == TextOk(newContent)
  {
    var fd := FileDiffOf(oldName, newName, es, contextLines);
    PatchedFileDiffOf(oldName, newName, es, contextLines);
    FileAppliedSpec(oldContent, fd);
    if |fd.hunks| == 0 {
      SameLinesSameText(oldContent, newContent);
    } else {
      SplitLinesJoin(newContent);
    }
  }

  /**
   * The round trip of mdiff's tests: the diff DiffFiles makes, formatted by
   * FormatFileDiff and patched onto the old content by PatchText, gives the
   * new content, when the names read back, the contents agree on ending in
   * a newline and their line counts fit in an int64 header.
   */
  lemma {:induction false} DiffPatchRoundTrip(oldName: string, oldContent: string, newName: string, newContent: string,
                                             contextLines: int, es: seq<Edit<string>>)
    requires WfName(oldName) && WfName(newName)
    requires Transforms(es, SplitLines(oldContent), SplitLines(newContent)) && Positioned(es, 0, 0)
    requires HasSuffix(oldContent, "\n") == HasSuffix(newContent, "\n")
    requires |SplitLines(oldContent)| < Int64Max && |SplitLines(newContent)| < Int64Max
    ensures PatchTextOf(oldContent, FileText(FileDiffOf(oldName, newName, es, contextLines))) == Patch(TextOk(newContent))
  {
    var fd := FileDiffOf(oldName, newName, es, contextLines);
    ApplyDiffRoundTrip(oldName, oldContent, newName, newContent, contextLines, es);
    if HasChanges(es) {
      SplitLinesJoin(oldContent);
      SplitLinesJoin(newContent);
      FileDiffOfWf(oldName, newName, es, contextLines, SplitLines(oldContent), SplitLines(newContent));
      ParseFileRoundTrip(fd);
    } else {
      FileTextEmptyIff(fd);
      FileAppliedSpec(oldContent, fd);
      assert FileApplied(oldContent, FileDiff("", "", [])) == TextOk(oldContent);
    }
  }

  // ---------------------------------------------------------------------
  // DiffMultiFiles

  /** The old name DiffMultiFiles gives a change: /dev/null for a new file. */
  function OldNameOf(c: FileChange): string {
    if c.oldContent == "" then DevNull else c.path
  }

  /** The new name DiffMultiFiles gives a change: /dev/null for a deleted file. */
  function NewNameOf(c: FileChange): string {
    if c.newContent == "" then DevNull else c.path
  }

  /** The file diffs DiffMultiFiles keeps from the changes, given the edit script of each. */
  function KeptDiffs(changes: seq<FileChange>, scripts: seq<seq<Edit<string>>>, contextLines: int): seq<FileDiff>
    requires |scripts| == |changes|
  {
    if |changes| == 0 then []
    else
      var n := |changes| - 1;
      var fd := FileDiffOf(OldNameOf(changes[n]), NewNameOf(changes[n]), scripts[n], contextLines);
      KeptDiffs(changes[..n], scripts[..n], contextLines) + (if |fd.hunks| > 0 then [fd] else [])
  }

  /** e is a shortest edit script between the lines of change c. */
  ghost predicate ShortestFor(e: seq<Edit<string>>, c: FileChange) {
    Script(e, SplitLines(c.oldContent), SplitLines(c.newContent), 0, 0, Lcs(SplitLines(c.oldContent), SplitLines(c.newContent)))
  }

  /** scripts[k] is a shortest edit script between the lines of change k, for every k. */
  ghost predicate Scripts(changes: seq<FileChange>, scripts: seq<seq<Edit<string>>>) {
    |scripts| == |changes|
    && (|changes| == 0 ||
        var n := |changes| - 1;
        Scripts(changes[..n], scripts[..n]) && ShortestFor(scripts[n], changes[n]))
  }

  /** One round of DiffMultiFiles extends the scripts of its loop invariant. */
  lemma {:induction false} ScriptsStep(changes: seq<FileChange>, i: nat, scripts: seq<seq<Edit<string>>>, e: seq<Edit<string>>)
    requires i < |changes| && Scripts(changes[..i], scripts) && ShortestFor(e, changes[i])
    ensures Scripts(changes[..i + 1], scripts + [e])
  {
    assert changes[..i + 1][..i] == changes[..i];
    assert (scripts + [e])[..i] == scripts;
  }

  /** One round of DiffMultiFiles extends the diffs of its loop invariant. */
  lemma {:induction false} KeptStep(changes: seq<FileChange>, i: nat, scripts: seq<seq<Edit<string>>>,
                                   files: seq<FileDiff>, fd: FileDiff, e: seq<Edit<string>>, contextLines: int)
    requires i < |changes| && |scripts| == i && files == KeptDiffs(changes[..i], scripts, contextLines)
    requires fd == FileDiffOf(OldNameOf(changes[i]), NewNameOf(changes[i]), e, contextLines)
    ensures |fd.hunks| > 0 ==> files + [fd] == KeptDiffs(changes[..i + 1], scripts + [e], contextLines)
    ensures |fd.hunks| == 0 ==> files == KeptDiffs(changes[..i + 1], scripts + [e], contextLines)
  {
    assert changes[..i + 1][..i] == changes[..i];
    assert (scripts + [e])[..i] == scripts;
  }

  /** One round of DiffMultiFiles: the names of the change, then DiffFiles. */
  method DiffChange(c: FileChange, contextLines: int) returns (fd: FileDiff, ghost edits: seq<Edit<string>>)
    ensures ShortestFor(edits, c)
    ensures fd == FileDiffOf(OldNameOf(c), NewNameOf(c), edits, contextLines)
  {
    var oldName := c.path;
    var newName := c.path;
    if c.oldContent == "" {
      oldName := DevNull;
    }
    if c.newContent == "" {
      newName := DevNull;
    }
    fd, edits := DiffFiles(oldName, c.oldContent, newName, c.newContent, contextLines);
  }

  /** DiffMultiFiles: the diff of each change, renamed to /dev/null on an empty side, kept when it has hunks. */
  method DiffMultiFiles(changes: seq<FileChange>, contextLines: int)
    returns (mfd: MultiFileDiff, ghost scripts: seq<seq<Edit<string>>>)
    ensures Scripts(changes, scripts)
    ensures mfd.files == KeptDiffs(changes, scripts, contextLines)
  {
    var files: seq<FileDiff> := [];
    scripts := [];
    var i := 0;
    while i < |changes|
      invariant 0 <= i <= |changes|
      invariant Scripts(changes[..i], scripts)
      invariant files == KeptDiffs(changes[..i], scripts, contextLines)
    {
      var fd, edits := DiffChange(changes[i], contextLines);
      ScriptsStep(changes, i, scripts, edits);
      KeptStep(changes, i, scripts, files, fd, edits, contextLines);
      if |fd.hunks| > 0 {
        files := files + [fd];
      }
      scripts := scripts + [edits];
      i := i + 1;
    }
    ghost var all := changes[..i];
    assert all == changes;
    mfd := MultiFileDiff(files);
  }

  /** Identical line sequences make an edit script keeping every line (the LCS of a sequence with itself is its length). */
  lemma {:induction false} LcsSelf(a: seq<string>)
    ensures Lcs(a, a) == |a|
  {
    LcsCommonPrefix(a, [], []);
    assert a + [] == a;
  }

  /** An edit script in which no edit changes anything. */
  lemma {:induction false} NoChangesNoneChanged(es: seq<Edit<string>>)
    requires Changes(es) == 0
    ensures !HasChanges(es)
    decreases |es|
  {
    if |es| > 0 {
      var n := |es| - 1;
      NoChangesNoneChanged(es[..n]);
      assert forall k :: 0 <= k < n ==> es[..n][k] == es[k];
    }
  }

  /** A shortest edit script has a change iff the two line sequences differ. */
  lemma {:induction false} ShortestHasChanges(es: seq<Edit<string>>, a: seq<string>, b: seq<string>)
    requires Script(es, a, b, 0, 0, Lcs(a, b))
    ensures HasChanges(es) <==> a != b
  {
    if a == b {
      LcsSelf(a);
      SidesLength(es);
      NoChangesNoneChanged(es);
    }
    if !HasChanges(es) {
      UnchangedSides(es);
    }
  }

  /** The changes whose contents differ in their lines, in order. */
  function Changed(changes: seq<FileChange>): seq<FileChange> {
    if |changes| == 0 then []
    else
      var n := |changes| - 1;
      var c := changes[n];
      Changed(changes[..n]) + (if SplitLines(c.oldContent) != SplitLines(c.newContent) then [c] else [])
  }

  /** Each diff has hunks and is named after the change at the same index. */
  predicate NamedAfter(fds: seq<FileDiff>, cs: seq<FileChange>) {
    |fds| == |cs|
    && forall k :: 0 <= k < |cs| ==>
      fds[k].oldName == OldNameOf(cs[k]) && fds[k].newName == NewNameOf(cs[k]) && |fds[k].hunks| > 0
  }

  lemma {:induction false} NamedAfterSnoc(fds: seq<FileDiff>, cs: seq<FileChange>, fd: FileDiff, c: FileChange)
    requires NamedAfter(fds, cs)
    requires fd.oldName == OldNameOf(c) && fd.newName == NewNameOf(c) && |fd.hunks| > 0
    ensures NamedAfter(fds + [fd], cs + [c])
  {
    forall k | 0 <= k < |cs| + 1
      ensures (fds + [fd])[k].oldName == OldNameOf((cs + [c])[k]) && (fds + [fd])[k].newName == NewNameOf((cs + [c])[k])
      ensures |(fds + [fd])[k].hunks| > 0
    {
      if k < |cs| {
        assert (fds + [fd])[k] == fds[k] && (cs + [c])[k] == cs[k];
      }
    }
  }

  /** The diff of one change has hunks iff its contents differ in their lines. */
  lemma {:induction false} ChangeKept(c: FileChange, e: seq<Edit<string>>, contextLines: int)
    requires ShortestFor(e, c)
    ensures |FileDiffOf(OldNameOf(c), NewNameOf(c), e, contextLines).hunks| > 0
        <==> SplitLines(c.oldContent) != SplitLines(c.newContent)
  {
    var cc := if contextLines <= 0 then DefaultContextLines else contextLines;
    ShortestHasChanges(e, SplitLines(c.oldContent), SplitLines(c.newContent));
    NoHunksIffNoChange(e, cc);
  }

  /**
   * DiffMultiFiles keeps one file diff per change whose contents differ in
   * their lines, in order and for no other change; each kept diff has hunks
   * and its sides are named after the change, or /dev/null for an empty
   * content.
   */
  lemma {:induction false} KeptDiffsChanged(changes: seq<FileChange>, scripts: seq<seq<Edit<string>>>, contextLines: int)
    requires Scripts(changes, scripts)
    ensures NamedAfter(KeptDiffs(changes, scripts, contextLines), Changed(changes))
    decreases |changes|
  {
    if |changes| > 0 {
      var n := |changes| - 1;
      var c := changes[n];
      KeptDiffsChanged(changes[..n], scripts[..n], contextLines);
      var fd := FileDiffOf(OldNameOf(c), NewNameOf(c), scripts[n], contextLines);
      ChangeKept(c, scripts[n], contextLines);
      KeptNamedStep(KeptDiffs(changes[..n], scripts[..n], contextLines), Changed(changes[..n]), fd, c);
    }
  }

  lemma {:induction false} KeptNamedStep(fds: seq<FileDiff>, cs: seq<FileChange>, fd: FileDiff, c: FileChange)
    requires NamedAfter(fds, cs)
    requires fd.oldName == OldNameOf(c) && fd.newName == NewNameOf(c)
    requires |fd.hunks| > 0 <==> SplitLines(c.oldContent) != SplitLines(c.newContent)
    ensures NamedAfter(fds + (if |fd.hunks| > 0 then [fd] else []),
                       cs + (if SplitLines(c.oldContent) != SplitLines(c.newContent) then [c] else []))
  {
    if |fd.hunks| > 0 {
      NamedAfterSnoc(fds, cs, fd, c);
    } else {
      assert fds + [] == fds && cs + [] == cs;
    }
  }

  // ---------------------------------------------------------------------
  // Stat

  /** The counts of a multi-file diff. */
  datatype DiffStat = DiffStat(filesChanged: int, insertions: int, deletions: int)

  /** The number of lines of kind k. */
  function LinesCount(ls: seq<DiffLine>, k: OpKind): nat {
    if |ls| == 0 then 0 else LinesCount(ls[..|ls| - 1], k) + (if ls[|ls| - 1].kind == k then 1 else 0)
  }

  function HunksCount(hs: seq<Hunk>, k: OpKind): nat {
    if |hs| == 0 then 0 else HunksCount(hs[..|hs| - 1], k) + LinesCount(hs[|hs| - 1].lines, k)
  }

  function FilesCount(fs: seq<FileDiff>, k: OpKind): nat {
    if |fs| == 0 then 0 else FilesCount(fs[..|fs| - 1], k) + HunksCount(fs[|fs| - 1].hunks, k)
  }

  /** What Stat returns: the file count and the Insert and Delete lines over all hunks. */
  function StatOf(mfd: MultiFileDiff): DiffStat {
    DiffStat(|mfd.files|, FilesCount(mfd.files, Insert), FilesCount(mfd.files, Delete))
  }

  /** The innermost loop of Stat, over the lines of one hunk. */
  method TallyLines(ls: seq<DiffLine>, ins0: int, del0: int) returns (ins: int, del: int)
    ensures ins == ins0 + LinesCount(ls, Insert) && del == del0 + LinesCount(ls, Delete)
  {
    ins, del := ins0, del0;
    var j := 0;
    while j < |ls|
      invariant 0 <= j <= |ls|
      invariant ins == ins0 + LinesCount(ls[..j], Insert) && del == del0 + LinesCount(ls[..j], Delete)
    {
      assert ls[..j + 1][..j] == ls[..j];
      match ls[j].kind {
        case Insert => ins := ins + 1;
        case Delete => del := del + 1;
        case Equal =>
      }
      j := j + 1;
    }
    assert ls[..|ls|] == ls;
  }

  /** The middle loop of Stat, over the hunks of one file. */
  method TallyHunks(hs: seq<Hunk>, ins0: int, del0: int) returns (ins: int, del: int)
    ensures ins == ins0 + HunksCount(hs, Insert) && del == del0 + HunksCount(hs, Delete)
  {
    ins, del := ins0, del0;
    var j := 0;
    while j < |hs|
      invariant 0 <= j <= |hs|
      invariant ins == ins0 + HunksCount(hs[..j], Insert) && del == del0 + HunksCount(hs[..j], Delete)
    {
      assert hs[..j + 1][..j] == hs[..j];
      ins, del := TallyLines(hs[j].lines, ins, del);
      j := j + 1;
    }
    assert hs[..|hs|] == hs;
  }

  /** Stat */
  method Stat(mfd: MultiFileDiff) returns (stat: DiffStat)
    ensures stat == StatOf(mfd)
  {
    var ins, del := 0, 0;
    var i := 0;
    while i < |mfd.files|
      invariant 0 <= i <= |mfd.files|
      invariant ins == FilesCount(mfd.files[..i], Insert) && del == FilesCount(mfd.files[..i], Delete)
    {
      assert mfd.files[..i + 1][..i] == mfd.files[..i];
      ins, del := TallyHunks(mfd.files[i].hunks, ins, del);
      i := i + 1;
    }
    assert mfd.files[..|mfd.files|] == mfd.files;
    stat := DiffStat(|mfd.files|, ins, del);
  }

  /** A hunk's Insert lines less its Delete lines is its new line count less its old one. */
  lemma {:induction false} LinesNet(ls: seq<DiffLine>)
    ensures |NewTexts(ls)| - |OldTexts(ls)| == LinesCount(ls, Insert) - LinesCount(ls, Delete)
    decreases |ls|
  {
    if |ls| > 0 {
      LinesNet(ls[..|ls| - 1]);
    }
  }

  lemma {:induction false} HunksCountCons(h: Hunk, rest: seq<Hunk>, k: OpKind)
    ensures HunksCount([h] + rest, k) == LinesCount(h.lines, k) + HunksCount(rest, k)
    decreases |rest|
  {
    if |rest| > 0 {
      var n := |rest| - 1;
      assert ([h] + rest)[..|rest|] == [h] + rest[..n];
      HunksCountCons(h, rest[..n], k);
    } else {
      assert ([h] + rest)[..0] == [];
    }
  }

  /** The net growth the forward merge sums up is the Insert count less the Delete count. */
  lemma {:induction false} GrowthCounts(hs: seq<Hunk>, i: nat)
    requires i <= |hs|
    ensures Growth(hs, i) == HunksCount(hs[i..], Insert) - HunksCount(hs[i..], Delete)
    decreases |hs| - i
  {
    if i < |hs| {
      GrowthCounts(hs, i + 1);
      LinesNet(hs[i].lines);
      assert hs[i..] == [hs[i]] + hs[i + 1..];
      HunksCountCons(hs[i], hs[i + 1..], Insert);
      HunksCountCons(hs[i], hs[i + 1..], Delete);
    } else {
      assert hs[i..] == [];
    }
  }

  /**
   * Stat's counts agree with applying: a file diff whose hunks merge
   * forward turns n lines into n + insertions - deletions lines.
   */
  lemma {:induction false} StatForwardLength(orig: seq<string>, fd: FileDiff, loose: bool)
    requires Forward(orig, fd.hunks, loose).Merged?
    ensures |Forward(orig, fd.hunks, loose).lines| ==
      |orig| + StatOf(MultiFileDiff([fd])).insertions - StatOf(MultiFileDiff([fd])).deletions
  {
    ForwardLength(orig, fd.hunks, loose);
    GrowthCounts(fd.hunks, 0);
    assert fd.hunks[0..] == fd.hunks;
    assert [fd][..0] == [];
    assert FilesCount([fd], Insert) == HunksCount(fd.hunks, Insert);
    assert FilesCount([fd], Delete) == HunksCount(fd.hunks, Delete);
  }

  /**
   * For the diff DiffFiles makes of two contents, Stat's insertions less
   * its deletions is the new line count less the old one.
   */
  lemma {:induction false} StatDiffNet(oldName: string, newName: string, es: seq<Edit<string>>, contextLines: int)
    requires Positioned(es, 0, 0)
    ensures StatOf(MultiFileDiff([FileDiffOf(oldName, newName, es, contextLines)])).insertions
          - StatOf(MultiFileDiff([FileDiffOf(oldName, newName, es, contextLines)])).deletions
         == |NewSide(es)| - |OldSide(es)|
  {
    var fd := FileDiffOf(oldName, newName, es, contextLines);
    var c := if contextLines <= 0 then DefaultContextLines else contextLines;
    assert [fd][..0] == [];
    if HasChanges(es) {
      ForwardUnifiedHunks(es, c);
      StatForwardLength(OldSide(es), fd, false);
    } else {
      assert forall k :: 0 <= k < |es| ==> es[k].kind == Equal;
      UnchangedSides(es);
      assert fd.hunks == [];
      assert FilesCount([fd], Insert) == FilesCount([], Insert) + HunksCount([], Insert) == 0;
      assert FilesCount([fd], Delete) == FilesCount([], Delete) + HunksCount([], Delete) == 0;
    }
  }

  // ---------------------------------------------------------------------
  // DiffStat.String

  /** pluralize */
  function Pluralize(n: int, singular: string, plural: string): string {
    if n == 1 then "1 " + singular else Itoa(n) + " " + plural
  }

  /**
   * pluralize writes the number in decimal, which reads back, then the
   * singular word iff the number is 1 (when the two words differ).
   */
  lemma PluralizeSpec(n: int, singular: string, plural: string)
    ensures Pluralize(n, singular, plural) == Itoa(n) + " " + (if n == 1 then singular else plural)
    ensures singular != plural ==>
      (Pluralize(n, singular, plural) == Itoa(n) + " " + singular <==> n == 1)
    ensures InInt64(n) ==> Atoi(Pluralize(n, singular, plural)[..|Itoa(n)|]) == Some(n)
  {
    assert Itoa(1) == "1";
    var pre := Itoa(n) + " ";
    if n != 1 && Pluralize(n, singular, plural) == pre + singular {
      assert (pre + plural)[|pre|..] == plural;
      assert (pre + singular)[|pre|..] == singular;
    }
    if InInt64(n) {
      AtoiItoa(n);
      assert Pluralize(n, singular, plural)[..|Itoa(n)|] == Itoa(n);
    }
  }

  const FilesWords := ("file changed", "files changed")
  const InsertionWords := ("insertion(+)", "insertions(+)")
  const DeletionWords := ("deletion(-)", "deletions(-)")

  /** The parts DiffStat.String joins: the files part always, the others when positive. */
  function StatParts(s: DiffStat): seq<string> {
    [Pluralize(s.filesChanged, FilesWords.0, FilesWords.1)]
    + (if s.insertions > 0 then [Pluralize(s.insertions, InsertionWords.0, InsertionWords.1)] else [])
    + (if s.deletions > 0 then [Pluralize(s.deletions, DeletionWords.0, DeletionWords.1)] else [])
  }

  /** DiffStat.String */
  function StatString(s: DiffStat): string {
    JoinWith(StatParts(s), ", ")
  }

  /** The last two characters of a pluralized count are those of the word chosen. */
  lemma {:induction false} PluralizeTail(n: int, singular: string, plural: string)
    requires |singular| >= 2 && |plural| >= 2
    ensures var p := Pluralize(n, singular, plural);
      var w := if n == 1 then singular else plural;
      |p| >= 2 && p[|p| - 1] == w[|w| - 1] && p[|p| - 2] == w[|w| - 2]
  {
    PluralizeSpec(n, singular, plural);
  }

  /** Joining a first part with up to two optional ones. */
  lemma {:induction false} JoinOptional(f: string, i: string, d: string, hasI: bool, hasD: bool, sep: string)
    ensures JoinWith([f] + (if hasI then [i] else []) + (if hasD then [d] else []), sep)
         == f + (if hasI then sep + i else "") + (if hasD then sep + d else "")
  {
    var parts := [f] + (if hasI then [i] else []) + (if hasD then [d] else []);
    if hasI && hasD {
      assert parts == [f, i, d] && parts[1..] == [i, d] && parts[1..][1..] == [d];
      assert [i, d][1..] == [d];
      assert JoinWith([i, d], sep) == i + sep + d;
      assert JoinWith(parts, sep) == f + sep + (i + sep + d);
    } else if hasI {
      assert parts == [f, i] && parts[1..] == [i];
    } else if hasD {
      assert parts == [f, d] && parts[1..] == [d];
    } else {
      assert parts == [f];
    }
  }

  /**
   * DiffStat.String is the files part, then ", " and the insertions part
   * when there are insertions, then ", " and the deletions part when there
   * are deletions.
   */
  lemma {:induction false} StatStringSpec(s: DiffStat)
    ensures StatString(s) == Pluralize(s.filesChanged, "file changed", "files changed")
      + (if s.insertions > 0 then ", " + Pluralize(s.insertions, "insertion(+)", "insertions(+)") else "")
      + (if s.deletions > 0 then ", " + Pluralize(s.deletions, "deletion(-)", "deletions(-)") else "")
  {
    JoinOptional(Pluralize(s.filesChanged, FilesWords.0, FilesWords.1),
                 Pluralize(s.insertions, InsertionWords.0, InsertionWords.1),
                 Pluralize(s.deletions, DeletionWords.0, DeletionWords.1),
                 s.insertions > 0, s.deletions > 0, ", ");
  }

  /** The three parts of DiffStat.String always differ: their words end differently. */
  lemma {:induction false} StatPartsDistinct(f: int, i: int, d: int)
    ensures Pluralize(f, FilesWords.0, FilesWords.1) != Pluralize(i, InsertionWords.0, InsertionWords.1)
    ensures Pluralize(f, FilesWords.0, FilesWords.1) != Pluralize(d, DeletionWords.0, DeletionWords.1)
    ensures Pluralize(i, InsertionWords.0, InsertionWords.1) != Pluralize(d, DeletionWords.0, DeletionWords.1)
  {
    var pf := Pluralize(f, FilesWords.0, FilesWords.1);
    var pi := Pluralize(i, InsertionWords.0, InsertionWords.1);
    var pd := Pluralize(d, DeletionWords.0, DeletionWords.1);
    PluralizeTail(f, FilesWords.0, FilesWords.1);
    PluralizeTail(i, InsertionWords.0, InsertionWords.1);
    PluralizeTail(d, DeletionWords.0, DeletionWords.1);
    assert pf[|pf| - 1] == 'd' && pi[|pi| - 1] == ')' && pd[|pd| - 1] == ')';
    assert pi[|pi| - 2] == '+' && pd[|pd| - 2] == '-';
  }

  /**
   * The parts of DiffStat.String: the files part first, and the insertions
   * part among them iff there are insertions, likewise for deletions.
   */
  lemma {:induction false} StatPartsSpec(s: DiffStat)
    ensures |StatParts(s)| >= 1 && StatParts(s)[0] == Pluralize(s.filesChanged, "file changed", "files changed")
    ensures Pluralize(s.insertions, "insertion(+)", "insertions(+)") in StatParts(s) <==> s.insertions > 0
    ensures Pluralize(s.deletions, "deletion(-)", "deletions(-)") in StatParts(s) <==> s.deletions > 0
  {
    StatPartsDistinct(s.filesChanged, s.insertions, s.deletions);
  }
}
