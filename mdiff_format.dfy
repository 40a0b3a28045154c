/**
 * Unified diff text of the mdiff package (mdiff/format.go, FormatFileDiff,
 * FormatMultiFileDiff and formatFileName).
 *
 * A file diff with hunks is written as a `--- old` and a `+++ new` line
 * followed, per hunk, by an `@@ -a,b +c,d @@` header and one line per diff
 * line, prefixed by ' ', '-' or '+'. Every written line ends in "\n"; a
 * file diff without hunks is written as the empty string.
 */
module MdiffFormat {
  import opened GoStrings
  import opened MdiffDiff
  import opened MdiffHunks
  import opened Seqs

  /** formatFileName: an empty name stands for /dev/null. */
  function FormatFileName(name: string): (r: string)
    ensures r != ""
    ensures name != "" ==> r == name
    ensures name == "" ==> r == "/dev/null"
  {
    if name == "" then "/dev/null" else name
  }

  function LinePrefix(k: OpKind): char {
    match k
    case Equal => ' '
    case Delete => '-'
    case Insert => '+'
  }

  /** One diff line as written: its prefix character, then its text. */
  function FormatLine(l: DiffLine): string {
    [LinePrefix(l.kind)] + l.text
  }

  function LineTexts(ls: seq<DiffLine>): seq<string> {
    seq(|ls|, k requires 0 <= k < |ls| => FormatLine(ls[k]))
  }

  /** The `@@ -a,b +c,d @@` header of a hunk. */
  function HunkHeader(h: Hunk): string {
    "@@ -" + Itoa(h.oldStart) + "," + Itoa(h.oldLines) + " +" + Itoa(h.newStart) + "," + Itoa(h.newLines) + " @@"
  }

  /** The lines written for one hunk, without their line terminators. */
  function HunkLines(h: Hunk): seq<string> {
    [HunkHeader(h)] + LineTexts(h.lines)
  }

  function HunksLines(hs: seq<Hunk>): seq<string> {
    if |hs| == 0 then [] else HunkLines(hs[0]) + HunksLines(hs[1..])
  }

  function FileHead(fd: FileDiff): seq<string> {
    ["--- " + FormatFileName(fd.oldName), "+++ " + FormatFileName(fd.newName)]
  }

  /** The lines written for one file diff: none at all when it has no hunks. */
  function FileLines(fd: FileDiff): seq<string> {
    if |fd.hunks| == 0 then [] else FileHead(fd) + HunksLines(fd.hunks)
  }

  /** Lines each followed by "\n". */
  function Terminated(ls: seq<string>): string {
    if |ls| == 0 then "" else ls[0] + "\n" + Terminated(ls[1..])
  }

  /** The text of FormatFileDiff. */
  function FileText(fd: FileDiff): string {
    Terminated(FileLines(fd))
  }

  /** The text of FormatMultiFileDiff: the file texts one after another. */
  function MultiText(fs: seq<FileDiff>): string {
    if |fs| == 0 then "" else MultiText(fs[..|fs| - 1]) + FileText(fs[|fs| - 1])
  }

  // ---------------------------------------------------------------------
  // Lemmas about the written lines

  lemma {:induction false} TerminatedSnoc(ls: seq<string>, x: string)
    ensures Terminated(ls + [x]) == Terminated(ls) + (x + "\n")
    decreases |ls|
  {
    if |ls| == 0 {
      assert ([x])[1..] == [];
    } else {
      assert (ls + [x])[1..] == ls[1..] + [x];
      TerminatedSnoc(ls[1..], x);
    }
  }

  lemma {:induction false} TerminatedConcat(a: seq<string>, b: seq<string>)
    ensures Terminated(a + b) == Terminated(a) + Terminated(b)
    decreases |a|
  {
    if |a| == 0 {
      assert a + b == b;
    } else {
      assert (a + b)[1..] == a[1..] + b;
      TerminatedConcat(a[1..], b);
    }
  }

  /** Terminated lines are the lines joined by "\n" with an empty last part. */
  lemma {:induction false} TerminatedJoin(ls: seq<string>)
    ensures Terminated(ls) == Join(ls + [""], '\n')
    decreases |ls|
  {
    if |ls| > 0 {
      TerminatedJoin(ls[1..]);
      assert (ls + [""])[1..] == ls[1..] + [""];
    }
  }

  /** Splitting terminated lines at "\n" gives the lines back, then an empty part. */
  lemma {:induction false} SplitTerminated(ls: seq<string>)
    requires forall k :: 0 <= k < |ls| ==> '\n' !in ls[k]
    ensures Split(Terminated(ls), '\n') == ls + [""]
  {
    TerminatedJoin(ls);
    SplitJoin(ls + [""], '\n');
  }

  lemma {:induction false} LineTextsSnoc(ls: seq<DiffLine>, j: nat)
    requires j < |ls|
    ensures LineTexts(ls[..j + 1]) == LineTexts(ls[..j]) + [FormatLine(ls[j])]
  {
  }

  lemma {:induction false} HunksLinesSnoc(hs: seq<Hunk>, h: Hunk)
    ensures HunksLines(hs + [h]) == HunksLines(hs) + HunkLines(h)
    decreases |hs|
  {
    if |hs| == 0 {
      assert ([h])[1..] == [];
    } else {
      assert (hs + [h])[1..] == hs[1..] + [h];
      HunksLinesSnoc(hs[1..], h);
    }
  }

  lemma {:induction false} AppendAssoc3(a: seq<string>, b: seq<string>, c: seq<string>)
    ensures (a + b) + c == a + (b + c)
  {
  }

  /** FormatFileDiff writes nothing exactly for a file diff without hunks. */
  lemma {:induction false} FileTextEmptyIff(fd: FileDiff)
    ensures FileText(fd) == "" <==> |fd.hunks| == 0
  {
    if |fd.hunks| > 0 {
      assert FileLines(fd)[0] == "--- " + FormatFileName(fd.oldName);
      assert FileText(fd)[0] == '-';
    }
  }

  // ---------------------------------------------------------------------
  // The string builders

  /** The writes of one hunk: its header line, then one line per diff line. */
  method WriteHunk(text: string, h: Hunk, ghost emitted: seq<string>) returns (text': string)
    requires text == Terminated(emitted)
    ensures text' == Terminated(emitted + HunkLines(h))
  {
    text' := text + (HunkHeader(h) + "\n");
    TerminatedSnoc(emitted, HunkHeader(h));
    ghost var start := emitted + [HunkHeader(h)];
    assert start + LineTexts(h.lines[..0]) == start;
    var j := 0;
    while j < |h.lines|
      invariant 0 <= j <= |h.lines|
      invariant text' == Terminated(start + LineTexts(h.lines[..j]))
    {
      var line := h.lines[j];
      LineTextsSnoc(h.lines, j);
      AppendAssoc3(start, LineTexts(h.lines[..j]), [FormatLine(line)]);
      TerminatedSnoc(start + LineTexts(h.lines[..j]), FormatLine(line));
      match line.kind {
        case Equal =>
          text' := text' + (" " + line.text + "\n");
        case Delete =>
          text' := text' + ("-" + line.text + "\n");
        case Insert =>
          text' := text' + ("+" + line.text + "\n");
      }
      j := j + 1;
    }
    assert h.lines[..j] == h.lines;
    AppendAssoc3(emitted, [HunkHeader(h)], LineTexts(h.lines));
  }

  /** FormatFileDiff */
  method FormatFileDiff(fd: FileDiff) returns (text: string)
    ensures text == FileText(fd)
  {
    if |fd.hunks| == 0 {
      return "";
    }
    ghost var head := FileHead(fd);
    text := "--- " + FormatFileName(fd.oldName) + "\n";
    assert text == Terminated([head[0]]) by {
      assert [head[0]][1..] == [];
    }
    text := text + ("+++ " + FormatFileName(fd.newName) + "\n");
    TerminatedSnoc([head[0]], head[1]);
    assert [head[0]] + [head[1]] == head + HunksLines(fd.hunks[..0]);
    var i := 0;
    while i < |fd.hunks|
      invariant 0 <= i <= |fd.hunks|
      invariant text == Terminated(FileHead(fd) + HunksLines(fd.hunks[..i]))
    {
      var h := fd.hunks[i];
      text := WriteHunk(text, h, FileHead(fd) + HunksLines(fd.hunks[..i]));
      TakeSnoc(fd.hunks, i);
      HunksLinesSnoc(fd.hunks[..i], h);
      AppendAssoc3(FileHead(fd), HunksLines(fd.hunks[..i]), HunkLines(h));
      i := i + 1;
    }
    assert fd.hunks[..i] == fd.hunks;
  }

  /** FormatMultiFileDiff */
  method FormatMultiFileDiff(mfd: MultiFileDiff) returns (text: string)
    ensures text == MultiText(mfd.files)
  {
    if |mfd.files| == 0 {
      return "";
    }
    text := "";
    var i := 0;
    while i < |mfd.files|
      invariant 0 <= i <= |mfd.files|
      invariant text == MultiText(mfd.files[..i])
    {
      var t := FormatFileDiff(mfd.files[i]);
      TakeSnoc(mfd.files, i);
      text := text + t;
      i := i + 1;
    }
    assert mfd.files[..i] == mfd.files;
  }

  /** The multi-file text is the file texts' lines, each terminated. */
  lemma {:induction false} MultiTextLines(fs: seq<FileDiff>)
    ensures MultiText(fs) == Terminated(FilesLines(fs))
    decreases |fs|
  {
    if |fs| > 0 {
      var init := fs[..|fs| - 1];
      MultiTextLines(init);
      FilesLinesSnoc(init, fs[|fs| - 1]);
      InitLast(fs);
      TerminatedConcat(FilesLines(init), FileLines(fs[|fs| - 1]));
    }
  }

  function FilesLines(fs: seq<FileDiff>): seq<string> {
    if |fs| == 0 then [] else FileLines(fs[0]) + FilesLines(fs[1..])
  }

  lemma {:induction false} FilesLinesSnoc(fs: seq<FileDiff>, f: FileDiff)
    ensures FilesLines(fs + [f]) == FilesLines(fs) + FileLines(f)
    decreases |fs|
  {
    if |fs| == 0 {
      assert ([f])[1..] == [];
    } else {
      assert (fs + [f])[1..] == fs[1..] + [f];
      FilesLinesSnoc(fs[1..], f);
      AppendAssoc3(FileLines(fs[0]), FilesLines(fs[1..]), FileLines(f));
    }
  }
}
