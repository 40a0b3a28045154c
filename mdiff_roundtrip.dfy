/**
 * Written unified diffs read back: the text FormatFileDiff and
 * FormatMultiFileDiff write (mdiff/format.go) is parsed by ParseFileDiff and
 * ParseMultiFileDiff (mdiff/parse.go) into the same file diffs, for file
 * diffs whose names and texts the text format can carry.
 */
module MdiffRoundTrip {
  import opened GoStrings
  import opened MdiffDiff
  import opened MdiffHunks
  import opened Seqs
  import opened MdiffFormat
  import opened MdiffParse

  // ---------------------------------------------------------------------
  // What the text format can carry

  /**
   * A name written as itself and read back as itself: not empty (that is
   * written as /dev/null), without tab or newline, and without a git prefix
   * for parseFileName to take off.
   */
  predicate WfName(n: string) {
    n != "" && '\t' !in n && '\n' !in n && !HasPrefix(n, "a/") && !HasPrefix(n, "b/")
  }

  /** A hunk whose header counts are its own line counts, in the int64 range, without newlines in its texts. */
  predicate WfHunk(h: Hunk) {
    InInt64(h.oldStart) && InInt64(h.oldLines) && InInt64(h.newStart) && InInt64(h.newLines)
    && h.oldLines == |OldTexts(h.lines)| && h.newLines == |NewTexts(h.lines)|
    && forall k :: 0 <= k < |h.lines| ==> '\n' !in h.lines[k].text
  }

  predicate WfFileDiff(fd: FileDiff) {
    WfName(fd.oldName) && WfName(fd.newName) && |fd.hunks| > 0
    && forall k :: 0 <= k < |fd.hunks| ==> WfHunk(fd.hunks[k])
  }

  /** Lines that are not empty and hold no newline. */
  predicate GoodLines(ls: seq<string>) {
    forall k :: 0 <= k < |ls| ==> ls[k] != "" && '\n' !in ls[k]
  }

  /** The block of lines starts at index i of lines. */
  predicate LinesAt(lines: seq<string>, i: int, block: seq<string>) {
    0 <= i && i + |block| <= |lines| && forall k :: 0 <= k < |block| ==> lines[i + k] == block[k]
  }

  // ---------------------------------------------------------------------
  // String facts

  lemma {:induction false} TrimPrefixConcat(p: string, r: string)
    ensures TrimPrefix(p + r, p) == r
  {
    assert (p + r)[..|p|] == p;
    assert (p + r)[|p|..] == r;
  }

  /** A separator whose first character is not in x is found right after x. */
  lemma {:induction false} IndexFromEnd(x: string, sub: string, from: nat)
    requires |sub| > 0 && sub[0] !in x && from <= |x|
    ensures IndexFrom(x + sub, sub, from) == |x|
    decreases |x| - from
  {
    var s := x + sub;
    if from == |x| {
      assert s[from..from + |sub|] == sub;
    } else {
      assert s[from..from + |sub|][0] == x[from];
      IndexFromEnd(x, sub, from + 1);
    }
  }

  lemma {:induction false} SplitTwoAt(p: string, c: char, rest: string)
    requires c !in p
    ensures SplitTwo(p + [c] + rest, c) == [p, rest]
  {
    var s := p + [c] + rest;
    IndexCharSpec(s, c);
    assert s[|p|] == c;
    assert forall k :: 0 <= k < |p| ==> s[k] == p[k];
    assert IndexChar(s, c) == |p|;
    assert s[..|p|] == p;
    assert s[|p| + 1..] == rest;
  }

  lemma {:induction false} ItoaEnds(n: int)
    ensures IsDigit(Itoa(n)[|Itoa(n)| - 1])
  {
    if n < 0 {
      var t := NatString(-n);
      assert Itoa(n)[|Itoa(n)| - 1] == t[|t| - 1];
    }
  }

  /** The text between the @@ marks comes back without its two spaces. */
  lemma {:induction false} HeaderFieldsOf(y: string)
    requires '@' !in y && |y| > 0 && !IsSpace(y[0]) && !IsSpace(y[|y| - 1])
    ensures HeaderFields("@@ " + y + " @@") == y
  {
    var x := " " + y + " ";
    assert "@@ " + y + " @@" == "@@" + (x + "@@");
    TrimPrefixConcat("@@", x + "@@");
    IndexFromEnd(x, "@@", 0);
    assert (x + "@@")[..|x|] == x;
    assert x[1..] == y + " ";
    assert (y + " ")[0] == y[0];
    assert TrimLeftSpace(x) == y + " ";
    assert (y + " ")[..|y|] == y;
    assert TrimRightSpace(y + " ") == y;
  }

  function OldRangeText(h: Hunk): string {
    Itoa(h.oldStart) + "," + Itoa(h.oldLines)
  }

  function NewRangeText(h: Hunk): string {
    Itoa(h.newStart) + "," + Itoa(h.newLines)
  }

  /** The text a hunk header holds between its two @@ marks. */
  function HeaderMiddle(h: Hunk): string {
    ("-" + OldRangeText(h)) + [' '] + ("+" + NewRangeText(h))
  }

  lemma {:induction false} HunkHeaderMiddle(h: Hunk)
    ensures HunkHeader(h) == "@@ " + HeaderMiddle(h) + " @@"
  {
  }

  lemma {:induction false} HeaderMiddleShape(h: Hunk)
    ensures '@' !in HeaderMiddle(h) && |HeaderMiddle(h)| > 0
    ensures !IsSpace(HeaderMiddle(h)[0]) && !IsSpace(HeaderMiddle(h)[|HeaderMiddle(h)| - 1])
  {
    var y := HeaderMiddle(h);
    ItoaNoChar(h.oldStart, '@');
    ItoaNoChar(h.oldLines, '@');
    ItoaNoChar(h.newStart, '@');
    ItoaNoChar(h.newLines, '@');
    ItoaEnds(h.newLines);
    assert y[|y| - 1] == Itoa(h.newLines)[|Itoa(h.newLines)| - 1];
  }

  lemma {:induction false} HeaderMiddleSplit(h: Hunk)
    ensures SplitTwo(HeaderMiddle(h), ' ') == ["-" + OldRangeText(h), "+" + NewRangeText(h)]
  {
    ItoaNoChar(h.oldStart, ' ');
    ItoaNoChar(h.oldLines, ' ');
    SplitTwoAt("-" + OldRangeText(h), ' ', "+" + NewRangeText(h));
  }

  /** A written hunk header parses back to the hunk's four numbers. */
  lemma {:induction false} ParseHunkHeaderRoundTrip(h: Hunk)
    requires InInt64(h.oldStart) && InInt64(h.oldLines) && InInt64(h.newStart) && InInt64(h.newLines)
    ensures ParseHunkHeader(HunkHeader(h)) == Header(h.oldStart, h.oldLines, h.newStart, h.newLines)
  {
    HunkHeaderMiddle(h);
    HeaderMiddleShape(h);
    HeaderFieldsOf(HeaderMiddle(h));
    HeaderMiddleSplit(h);
    TrimPrefixConcat("-", OldRangeText(h));
    TrimPrefixConcat("+", NewRangeText(h));
    ParseRangeItoa(h.oldStart, h.oldLines);
    ParseRangeItoa(h.newStart, h.newLines);
  }

  // ---------------------------------------------------------------------
  // Blocks of lines

  lemma {:induction false} LinesAtSplit(lines: seq<string>, i: int, a: seq<string>, b: seq<string>, mid: int)
    requires LinesAt(lines, i, a + b) && mid == i + |a|
    ensures LinesAt(lines, i, a) && LinesAt(lines, mid, b)
  {
    forall k | 0 <= k < |a|
      ensures lines[i + k] == a[k]
    {
      assert (a + b)[k] == a[k];
    }
    forall k | 0 <= k < |b|
      ensures lines[mid + k] == b[k]
    {
      assert lines[i + (|a| + k)] == (a + b)[|a| + k];
    }
  }

  lemma {:induction false} LinesAtHead(lines: seq<string>, i: int, block: seq<string>)
    requires LinesAt(lines, i, block) && |block| > 0
    ensures i < |lines| && lines[i] == block[0]
  {
    assert lines[i + 0] == block[0];
  }

  lemma {:induction false} LineTextsCons(ls: seq<DiffLine>)
    requires |ls| > 0
    ensures LineTexts(ls) == [FormatLine(ls[0])] + LineTexts(ls[1..])
  {
  }

  // ---------------------------------------------------------------------
  // Hunks read back

  /** The body loop of parseHunk reads written diff lines back, with their counts. */
  lemma {:induction false} HunkBodyRoundTrip(lines: seq<string>, i: nat, ls: seq<DiffLine>, o: int, n: int, end: int)
    requires LinesAt(lines, i, LineTexts(ls))
    requires o == |OldTexts(ls)| && n == |NewTexts(ls)|
    requires end == i + |ls|
    ensures HunkBody(lines, i, o, n) == (ls, end)
    decreases |ls|
  {
    if |ls| == 0 {
      assert o == 0 && n == 0;
    } else {
      var l := ls[0];
      var rest := ls[1..];
      HeadTail(ls);
      TextsConcat([l], rest);
      assert [l][..0] == [];
      LineTextsCons(ls);
      LinesAtSplit(lines, i, [FormatLine(l)], LineTexts(rest), i + 1);
      LinesAtHead(lines, i, LineTexts(ls));
      var line := lines[i];
      assert line[0] == LinePrefix(l.kind) && line[1..] == l.text;
      match l.kind {
        case Equal =>
          HunkBodyRoundTrip(lines, i + 1, rest, o - 1, n - 1, end);
        case Delete =>
          HunkBodyRoundTrip(lines, i + 1, rest, o - 1, n, end);
        case Insert =>
          HunkBodyRoundTrip(lines, i + 1, rest, o, n - 1, end);
      }
    }
  }

  lemma {:induction false} HunkHeaderShape(h: Hunk)
    ensures HasPrefix(HunkHeader(h), "@@") && !HasPrefix(HunkHeader(h), "--- ")
  {
    assert HunkHeader(h)[..2] == "@@";
    assert HunkHeader(h)[0] == '@';
  }

  /** parseHunk reads a written hunk back, and stops right after it. */
  lemma {:induction false} HunkRoundTrip(lines: seq<string>, j: nat, h: Hunk, end: int)
    requires WfHunk(h) && LinesAt(lines, j, HunkLines(h)) && end == j + |HunkLines(h)|
    ensures j < |lines| && lines[j] == HunkHeader(h)
    ensures ParseHunkAt(lines, j) == HunkOk(h, end)
  {
    LinesAtSplit(lines, j, [HunkHeader(h)], LineTexts(h.lines), j + 1);
    LinesAtHead(lines, j, HunkLines(h));
    ParseHunkHeaderRoundTrip(h);
    HunkBodyRoundTrip(lines, j + 1, h.lines, h.oldLines, h.newLines, end);
  }

  /** The hunk loop of parseOneFileDiff reads written hunks back, up to the end or the next file diff. */
  lemma {:induction false} FileBodyRoundTrip(lines: seq<string>, j: nat, hs: seq<Hunk>, end: int)
    requires forall k :: 0 <= k < |hs| ==> WfHunk(hs[k])
    requires LinesAt(lines, j, HunksLines(hs)) && end == j + |HunksLines(hs)|
    requires end == |lines| || (end < |lines| && StartsFile(lines, end))
    ensures FileBody(lines, j) == HunksOk(hs, end)
    decreases |hs|
  {
    if |hs| == 0 {
      FileBodyEnd(lines, j);
    } else {
      var h := hs[0];
      var next := j + |HunkLines(h)|;
      LinesAtSplit(lines, j, HunkLines(h), HunksLines(hs[1..]), next);
      HunkRoundTrip(lines, j, h, next);
      HunkHeaderShape(h);
      FileBodyStep(lines, j);
      FileBodyRoundTrip(lines, next, hs[1..], end);
      HeadTail(hs);
    }
  }

  // ---------------------------------------------------------------------
  // File diffs read back

  lemma {:induction false} HeadLine(prefix: string, name: string)
    requires |prefix| == 4
    ensures HasPrefix(prefix + name, prefix) && (prefix + name)[0] == prefix[0]
  {
    assert (prefix + name)[..4] == prefix;
  }

  /** A written file diff opens where its lines start. */
  lemma {:induction false} FileStart(lines: seq<string>, j: int, fd: FileDiff)
    requires WfFileDiff(fd) && LinesAt(lines, j, FileLines(fd))
    ensures j + 1 < |lines| && StartsFile(lines, j) && TrimSpace(lines[j]) != ""
    ensures lines[j] == "--- " + fd.oldName && lines[j + 1] == "+++ " + fd.newName
  {
    LinesAtSplit(lines, j, FileHead(fd), HunksLines(fd.hunks), j + 2);
    assert lines[j + 0] == FileHead(fd)[0];
    assert lines[j + 1] == FileHead(fd)[1];
    HeadLine("--- ", fd.oldName);
    HeadLine("+++ ", fd.newName);
    TrimSpaceEmptyIff(lines[j]);
  }

  /** parseOneFileDiff reads a written file diff back. */
  lemma {:induction false} OneFileRoundTrip(lines: seq<string>, j: nat, fd: FileDiff, end: int)
    requires WfFileDiff(fd) && LinesAt(lines, j, FileLines(fd)) && end == j + |FileLines(fd)|
    requires end == |lines| || (end < |lines| && StartsFile(lines, end))
    ensures ParseOneAt(lines, j) == FileOk(fd, end)
  {
    FileStart(lines, j, fd);
    LinesAtSplit(lines, j, FileHead(fd), HunksLines(fd.hunks), j + 2);
    ParseFileNamePlain("--- ", fd.oldName);
    ParseFileNamePlain("+++ ", fd.newName);
    FileBodyRoundTrip(lines, j + 2, fd.hunks, end);
  }

  /** The file loop of ParseMultiFileDiff reads written file diffs back. */
  lemma {:induction false} FilesFromRoundTrip(lines: seq<string>, j: nat, fs: seq<FileDiff>)
    requires forall k :: 0 <= k < |fs| ==> WfFileDiff(fs[k])
    requires LinesAt(lines, j, FilesLines(fs)) && j + |FilesLines(fs)| == |lines|
    ensures FilesFrom(lines, j) == Ok(fs)
    decreases |fs|
  {
    if |fs| > 0 {
      var fd := fs[0];
      var rest := fs[1..];
      var next := j + |FileLines(fd)|;
      LinesAtSplit(lines, j, FileLines(fd), FilesLines(rest), next);
      FileStart(lines, j, fd);
      if |rest| > 0 {
        LinesAtSplit(lines, next, FileLines(rest[0]), FilesLines(rest[1..]), next + |FileLines(rest[0])|);
        FileStart(lines, next, rest[0]);
      }
      OneFileRoundTrip(lines, j, fd, next);
      FilesFromRoundTrip(lines, next, rest);
      HeadTail(fs);
    }
  }

  // ---------------------------------------------------------------------
  // Written lines and the text

  lemma {:induction false} LineTextsGood(ls: seq<DiffLine>)
    requires forall k :: 0 <= k < |ls| ==> '\n' !in ls[k].text
    ensures GoodLines(LineTexts(ls))
  {
    forall k | 0 <= k < |ls|
      ensures LineTexts(ls)[k] != "" && '\n' !in LineTexts(ls)[k]
    {
      assert LineTexts(ls)[k] == [LinePrefix(ls[k].kind)] + ls[k].text;
    }
  }

  lemma {:induction false} GoodConcat(a: seq<string>, b: seq<string>)
    requires GoodLines(a) && GoodLines(b)
    ensures GoodLines(a + b)
  {
    forall k | 0 <= k < |a + b|
      ensures (a + b)[k] != "" && '\n' !in (a + b)[k]
    {
      if k < |a| {
        assert (a + b)[k] == a[k];
      } else {
        assert (a + b)[k] == b[k - |a|];
      }
    }
  }

  lemma {:induction false} HunkLinesGood(h: Hunk)
    requires WfHunk(h)
    ensures GoodLines(HunkLines(h))
  {
    LineTextsGood(h.lines);
    ItoaNoChar(h.oldStart, '\n');
    ItoaNoChar(h.oldLines, '\n');
    ItoaNoChar(h.newStart, '\n');
    ItoaNoChar(h.newLines, '\n');
    assert '\n' !in HunkHeader(h);
    GoodConcat([HunkHeader(h)], LineTexts(h.lines));
  }

  lemma {:induction false} HunksLinesGood(hs: seq<Hunk>)
    requires forall k :: 0 <= k < |hs| ==> WfHunk(hs[k])
    ensures GoodLines(HunksLines(hs))
    decreases |hs|
  {
    if |hs| > 0 {
      HunkLinesGood(hs[0]);
      HunksLinesGood(hs[1..]);
      GoodConcat(HunkLines(hs[0]), HunksLines(hs[1..]));
    }
  }

  lemma {:induction false} FileLinesGood(fd: FileDiff)
    requires WfFileDiff(fd)
    ensures GoodLines(FileLines(fd))
  {
    HunksLinesGood(fd.hunks);
    assert ("--- " + fd.oldName)[0] == '-';
    assert ("+++ " + fd.newName)[0] == '+';
    GoodConcat(FileHead(fd), HunksLines(fd.hunks));
  }

  lemma {:induction false} FilesLinesGood(fs: seq<FileDiff>)
    requires forall k :: 0 <= k < |fs| ==> WfFileDiff(fs[k])
    ensures GoodLines(FilesLines(fs))
    decreases |fs|
  {
    if |fs| > 0 {
      FileLinesGood(fs[0]);
      FilesLinesGood(fs[1..]);
      GoodConcat(FileLines(fs[0]), FilesLines(fs[1..]));
    }
  }

  /** Splitting terminated lines and dropping the trailing empty part gives the lines back. */
  lemma {:induction false} TextLinesTerminated(ls: seq<string>)
    requires GoodLines(ls)
    ensures TextLines(Terminated(ls)) == ls
  {
    SplitTerminated(ls);
    var t := ls + [""];
    assert t[..|t| - 1] == ls;
    assert DropTrailingEmpty(t) == DropTrailingEmpty(ls);
    assert |ls| > 0 ==> ls[|ls| - 1] != "";
  }

  lemma {:induction false} TerminatedFirst(ls: seq<string>)
    requires |ls| > 0 && |ls[0]| > 0
    ensures |Terminated(ls)| > 0 && Terminated(ls)[0] == ls[0][0]
  {
  }

  lemma {:induction false} ParseMultiOfLines(text: string, fs: seq<FileDiff>)
    requires TrimSpace(text) != "" && FilesFrom(TextLines(text), 0) == Ok(fs)
    ensures ParseMulti(text) == Ok(MultiFileDiff(fs))
  {
  }

  lemma {:induction false} TerminatedNotBlank(ls: seq<string>)
    requires |ls| > 0 && |ls[0]| > 0 && ls[0][0] == '-'
    ensures TrimSpace(Terminated(ls)) != ""
  {
    TerminatedFirst(ls);
    TrimSpaceEmptyIff(Terminated(ls));
  }

  lemma {:induction false} FilesLinesFirst(fs: seq<FileDiff>)
    requires |fs| > 0 && WfFileDiff(fs[0])
    ensures |FilesLines(fs)| > 0 && |FilesLines(fs)[0]| > 0 && FilesLines(fs)[0][0] == '-'
  {
    HeadLine("--- ", fs[0].oldName);
  }

  /** The file loop reads all written lines back as the file diffs. */
  lemma {:induction false} FilesFromAll(ls: seq<string>, fs: seq<FileDiff>)
    requires forall k :: 0 <= k < |fs| ==> WfFileDiff(fs[k])
    requires ls == FilesLines(fs)
    ensures FilesFrom(ls, 0) == Ok(fs)
  {
    assert LinesAt(ls, 0, ls) by {
      forall k | 0 <= k < |ls| ensures ls[0 + k] == ls[k] { }
    }
    FilesFromRoundTrip(ls, 0, fs);
  }

  /** The written lines of file diffs, terminated, read back as those file diffs. */
  lemma {:induction false} ParseTerminated(ls: seq<string>, fs: seq<FileDiff>)
    requires forall k :: 0 <= k < |fs| ==> WfFileDiff(fs[k])
    requires ls == FilesLines(fs) && |fs| > 0
    ensures ParseMulti(Terminated(ls)) == Ok(MultiFileDiff(fs))
  {
    FilesLinesGood(fs);
    TextLinesTerminated(ls);
    FilesFromAll(ls, fs);
    FilesLinesFirst(fs);
    TerminatedNotBlank(ls);
    ParseMultiOfLines(Terminated(ls), fs);
  }

  /** FormatMultiFileDiff, then ParseMultiFileDiff, gives the file diffs back. */
  lemma {:induction false} ParseMultiRoundTrip(fs: seq<FileDiff>)
    requires forall k :: 0 <= k < |fs| ==> WfFileDiff(fs[k])
    ensures ParseMulti(MultiText(fs)) == Ok(MultiFileDiff(fs))
  {
    MultiTextLines(fs);
    if |fs| > 0 {
      ParseTerminated(FilesLines(fs), fs);
    }
  }

  /** FormatFileDiff, then ParseFileDiff, gives the file diff back. */
  lemma {:induction false} ParseFileRoundTrip(fd: FileDiff)
    requires WfFileDiff(fd)
    ensures ParseFile(FileText(fd)) == Ok(fd)
  {
    assert [fd][..0] == [];
    assert MultiText([fd]) == FileText(fd);
    ParseMultiRoundTrip([fd]);
  }
}
