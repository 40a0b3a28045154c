/**
 * The line handling of tools/file/func.go: how a file's text becomes
 * lines and back (readFileLines, joinLines, countLines), the window a
 * ranged read returns, the lines bufio.Scanner hands FileSearch, and
 * strings.Replace with a count as FileReplace and FileEdit use it.
 */
module FileLines {
  import opened GoStrings

  /** maxDefaultLines: a read with no range returns at most this many lines. */
  const MaxDefaultLines := 200

  /** A file's lines and whether its text ended with a newline. */
  datatype Text = Text(lines: seq<string>, trailingNewline: bool)

  /** strings.TrimRight(text, "\n") */
  function TrimNewlines(s: string): string {
    TrimRightSet(s, {'\n'})
  }

  lemma {:induction false} SplitLastNonEmpty(s: string, c: char)
    requires |s| > 0 && s[|s| - 1] != c
    ensures Split(s, c)[|Split(s, c)| - 1] != ""
    decreases |s|
  {
    var i := IndexChar(s, c);
    IndexCharHit(s, c);
    if i >= 0 {
      var tail := s[i + 1..];
      assert |tail| > 0 && tail[|tail| - 1] == s[|s| - 1];
      SplitLastNonEmpty(tail, c);
      var rest := Split(tail, c);
      assert Split(s, c) == [s[..i]] + rest;
      assert Split(s, c)[|Split(s, c)| - 1] == rest[|rest| - 1];
    }
  }

  /** readFileLines: all trailing newlines go, then the text is split at each newline. */
  function ReadLines(text: string): (t: Text)
    ensures t.trailingNewline <==> |text| > 0 && text[|text| - 1] == '\n'
    ensures forall i | 0 <= i < |t.lines| :: '\n' !in t.lines[i]
    ensures |t.lines| > 0 ==> t.lines[|t.lines| - 1] != ""
    ensures |t.lines| == 0 <==> forall i | 0 <= i < |text| :: text[i] == '\n'
  {
    var flag := |text| > 0 && text[|text| - 1] == '\n';
    var trimmed := TrimNewlines(text);
    if trimmed == "" then Text([], flag)
    else
      SplitNoSeparator(trimmed, '\n');
      SplitLastNonEmpty(trimmed, '\n');
      Text(Split(trimmed, '\n'), flag)
  }

  /** joinLines */
  function JoinLines(lines: seq<string>, trailingNewline: bool): string {
    Join(lines, '\n') + (if trailingNewline then "\n" else "")
  }

  lemma {:induction false} JoinEndsWithLast(parts: seq<string>, c: char)
    requires |parts| >= 1
    ensures HasSuffix(Join(parts, c), parts[|parts| - 1])
    decreases |parts|
  {
    if |parts| > 1 {
      JoinEndsWithLast(parts[1..], c);
      var rest := Join(parts[1..], c);
      var j := parts[0] + [c] + rest;
      assert j[|j| - |rest|..] == rest;
      assert rest[|rest| - |parts[|parts| - 1]|..] == parts[|parts| - 1];
      assert j[|j| - |parts[|parts| - 1]|..] == rest[|rest| - |parts[|parts| - 1]|..];
    }
  }

  /**
   * Lines written by joinLines read back the same, when no line holds a
   * newline and the last line is not blank.
   */
  lemma LinesRoundTrip(lines: seq<string>, trailingNewline: bool)
    requires forall i | 0 <= i < |lines| :: '\n' !in lines[i]
    requires |lines| == 0 || lines[|lines| - 1] != ""
    ensures ReadLines(JoinLines(lines, trailingNewline)) == Text(lines, trailingNewline)
  {
    var j := Join(lines, '\n');
    var text := JoinLines(lines, trailingNewline);
    if |lines| == 0 {
      assert TrimNewlines(text) == "";
    } else {
      var last := lines[|lines| - 1];
      JoinEndsWithLast(lines, '\n');
      assert j[|j| - 1] == last[|last| - 1];
      assert '\n' !in last;
      assert j[|j| - 1] != '\n';
      if trailingNewline {
        assert text[..|text| - 1] == j;
      }
      assert TrimNewlines(text) == j;
      SplitJoin(lines, '\n');
    }
  }

  /** Joining the lines read from a text gives the text with its trailing newlines cut to at most one. */
  lemma ReadThenJoinTrims(text: string)
    ensures JoinLines(ReadLines(text).lines, ReadLines(text).trailingNewline)
            == TrimNewlines(text) + (if ReadLines(text).trailingNewline then "\n" else "")
  {
    var t := TrimNewlines(text);
    if t != "" {
      JoinSplit(t, '\n');
    }
  }

  /** A text with its trailing newlines cut to at most one is unchanged exactly when it had at most one. */
  lemma TrimKeepsOneNewline(text: string)
    ensures TrimNewlines(text) + (if |text| > 0 && text[|text| - 1] == '\n' then "\n" else "") == text
            <==> !HasSuffix(text, "\n\n")
  {
    var t := TrimNewlines(text);
    var flag := |text| > 0 && text[|text| - 1] == '\n';
    var d := |text| - |t|;
    assert text[..|t|] == t;
    assert flag <==> d > 0 by {
      if d > 0 {
        assert text[|text| - 1] == '\n';
      } else if |text| > 0 {
        assert text[|text| - 1] == t[|t| - 1];
      }
    }
    if d >= 2 {
      assert text[|text| - 2] == '\n' && text[|text| - 1] == '\n';
      assert text[|text| - 2..] == "\n\n";
    } else if d == 1 {
      assert text == text[..|t|] + [text[|t|]];
      if |text| >= 2 {
        assert text[|text| - 2] == t[|t| - 1];
      }
    } else {
      assert text == text[..|t|];
    }
  }

  /**
   * Reading a text into lines and joining them back gives the text again
   * exactly when it does not end with two newlines: the blank lines at the
   * end of a file are not kept through a modify or an insert.
   */
  lemma ReadThenJoin(text: string)
    ensures JoinLines(ReadLines(text).lines, ReadLines(text).trailingNewline) == text <==> !HasSuffix(text, "\n\n")
  {
    ReadThenJoinTrims(text);
    TrimKeepsOneNewline(text);
  }

  /** Index of a one-character needle is IndexChar. */
  lemma IndexOneChar(s: string, c: char)
    ensures Index(s, [c]) == IndexChar(s, c)
  {
    IndexFromSpec(s, [c], 0);
    IndexCharSpec(s, c);
    var i := Index(s, [c]);
    var j := IndexChar(s, c);
    if i >= 0 {
      assert s[i..i + 1] == [c];
      assert s[i] == c;
    }
    if j >= 0 {
      assert s[j..j + 1] == [c];
      assert MatchesAt(s, [c], j);
    }
  }

  lemma {:induction false} SplitCount(s: string, c: char)
    ensures |Split(s, c)| == Count(s, [c]) + 1
    decreases |s|
  {
    IndexOneChar(s, c);
    var i := IndexChar(s, c);
    if i >= 0 {
      SplitCount(s[i + 1..], c);
    }
  }

  /** countLines */
  function CountLines(content: string): nat {
    var text := TrimNewlines(content);
    if text == "" then 0 else Count(text, "\n") + 1
  }

  /** countLines counts exactly the lines readFileLines makes of the same text. */
  lemma CountLinesIsLineCount(content: string)
    ensures CountLines(content) == |ReadLines(content).lines|
  {
    var text := TrimNewlines(content);
    if text != "" {
      SplitCount(text, '\n');
    }
  }

  // ---------------------------------------------------------------------
  // FileRead's window

  datatype ReadReply = ReadReply(content: string, totalLines: int, readRange: string, truncated: bool,
                                 errorMessage: string)

  function Range(from: int, to: int): string {
    Itoa(from) + "-" + Itoa(to)
  }

  function WholeRead(lines: seq<string>): (r: ReadReply)
    ensures r.truncated <==> |lines| > MaxDefaultLines
    ensures r.content == Join(lines[..if |lines| > MaxDefaultLines then MaxDefaultLines else |lines|], '\n')
  {
    if |lines| > MaxDefaultLines then
      ReadReply(Join(lines[..MaxDefaultLines], '\n'), |lines|, Range(1, MaxDefaultLines), true, "")
    else
      assert lines[..|lines|] == lines;
      ReadReply(Join(lines, '\n'), |lines|, Range(1, |lines|), false, "")
  }

  /** startIdx of FileRead: the 0-based first line of a ranged read. */
  function StartIndex(startLine: int): nat {
    if startLine - 1 < 0 then 0 else startLine - 1
  }

  /** endIdx of FileRead: the end line when it lies inside the file, otherwise the total. */
  function EndIndex(endLine: int, total: nat): nat {
    if endLine > 0 && endLine < total then endLine else total
  }

  function StartTooLarge(startLine: int, total: nat): ReadReply {
    ReadReply("", total, "", false, "起始行号 " + Itoa(startLine) + " 超出文件总行数 " + Itoa(total))
  }

  /**
   * FileRead's range logic as written. None stands for the run-time panic
   * of lines[startIdx:endIdx] when the bounds cross.
   */
  function ReadAsWritten(lines: seq<string>, startLine: int, endLine: int): Option<ReadReply> {
    if startLine == 0 && endLine == 0 then Some(WholeRead(lines))
    else
      var lo := StartIndex(startLine);
      var hi := EndIndex(endLine, |lines|);
      if lo >= |lines| then Some(StartTooLarge(startLine, |lines|))
      else if lo > hi then None
      else Some(ReadReply(Join(lines[lo..hi], '\n'), |lines|, Range(lo + 1, hi), false, ""))
  }

  /** The slice panics exactly when an end line inside the file lies before the start index. */
  lemma ReadAsWrittenPanics(lines: seq<string>, startLine: int, endLine: int)
    ensures ReadAsWritten(lines, startLine, endLine).None? <==>
              StartIndex(startLine) < |lines| && 0 < endLine < StartIndex(startLine)
  {
  }

  /** Reading lines 3 to 1 of a three-line file crosses the slice bounds. */
  lemma ReadCrossedRange()
    ensures ReadAsWritten(["a", "b", "c"], 3, 1).None?
  {
    ReadAsWrittenPanics(["a", "b", "c"], 3, 1);
  }

  /**
   * FileRead's range logic with the ranges whose slice would panic (an end
   * line before the line ahead of the start) refused, with the message
   * FileModify gives for an invalid range. An end line just before the
   * start line still reads the empty slice, as the source does.
   */
  function Read(lines: seq<string>, startLine: int, endLine: int): (r: ReadReply)
    ensures r.totalLines == |lines|
    ensures r.errorMessage == "" <==>
              (startLine == 0 && endLine == 0)
              || (StartIndex(startLine) < |lines| && !(0 < endLine < startLine - 1))
    ensures startLine == 0 && endLine == 0 ==> r == WholeRead(lines)
    ensures r.errorMessage == "" && !(startLine == 0 && endLine == 0) ==>
              var lo := StartIndex(startLine);
              var hi := EndIndex(endLine, |lines|);
              lo <= hi <= |lines| && r.content == Join(lines[lo..hi], '\n') && r.readRange == Range(lo + 1, hi)
              && !r.truncated
  {
    if startLine == 0 && endLine == 0 then WholeRead(lines)
    else
      var lo := StartIndex(startLine);
      var hi := EndIndex(endLine, |lines|);
      if lo >= |lines| then StartTooLarge(startLine, |lines|)
      else if 0 < endLine < startLine - 1 then
        ReadReply("", |lines|, "", false, "行号无效: start_line=" + Itoa(startLine) + ", end_line=" + Itoa(endLine))
      else ReadReply(Join(lines[lo..hi], '\n'), |lines|, Range(lo + 1, hi), false, "")
  }

  /** The corrected read differs from the written one only on the ranges whose slice panics. */
  lemma ReadAgreesOutsideCrossedRanges(lines: seq<string>, startLine: int, endLine: int)
    requires !(0 < endLine < startLine - 1)
    ensures ReadAsWritten(lines, startLine, endLine) == Some(Read(lines, startLine, endLine))
  {
  }

  // ---------------------------------------------------------------------
  // The lines bufio.Scanner yields

  /** bufio.ScanLines drops one carriage return at the end of a line. */
  function DropCR(line: string): string {
    if |line| > 0 && line[|line| - 1] == '\r' then line[..|line| - 1] else line
  }

  /** The lines a bufio.Scanner with ScanLines yields: no empty line after a final newline. */
  function ScanLines(text: string): (ls: seq<string>)
    ensures text == "" ==> ls == []
  {
    var parts := Split(text, '\n');
    var kept := if parts[|parts| - 1] == "" then parts[..|parts| - 1] else parts;
    seq(|kept|, i requires 0 <= i < |kept| => DropCR(kept[i]))
  }

  datatype SearchMatch = SearchMatch(lineNumber: int, lineText: string)

  /** Every line containing the pattern, numbered from 1, in order. */
  function Hits(ls: seq<string>, pattern: string): seq<SearchMatch> {
    if |ls| == 0 then []
    else Hits(ls[..|ls| - 1], pattern) + (if Contains(ls[|ls| - 1], pattern) then [SearchMatch(|ls|, ls[|ls| - 1])] else [])
  }

  /** The hits are exactly the matching lines with their numbers, in increasing line order. */
  lemma {:induction false} HitsMeaning(ls: seq<string>, pattern: string)
    ensures forall m | m in Hits(ls, pattern) ::
              1 <= m.lineNumber <= |ls| && ls[m.lineNumber - 1] == m.lineText && Contains(m.lineText, pattern)
    ensures forall j | 0 <= j < |ls| && Contains(ls[j], pattern) :: SearchMatch(j + 1, ls[j]) in Hits(ls, pattern)
    ensures forall a, b | 0 <= a < b < |Hits(ls, pattern)| :: Hits(ls, pattern)[a].lineNumber < Hits(ls, pattern)[b].lineNumber
  {
    if |ls| > 0 {
      var init := ls[..|ls| - 1];
      HitsMeaning(init, pattern);
      forall j | 0 <= j < |init| ensures init[j] == ls[j] { }
    }
  }

  /** Hits on a prefix of the lines are a prefix of the hits. */
  lemma {:induction false} HitsPrefix(ls: seq<string>, pattern: string, i: nat)
    requires i <= |ls|
    ensures |Hits(ls[..i], pattern)| <= |Hits(ls, pattern)|
    ensures Hits(ls[..i], pattern) == Hits(ls, pattern)[..|Hits(ls[..i], pattern)|]
    decreases |ls| - i
  {
    if i < |ls| {
      HitsPrefix(ls, pattern, i + 1);
      assert ls[..i + 1][..i] == ls[..i];
    } else {
      assert ls[..i] == ls;
    }
  }

  // ---------------------------------------------------------------------
  // strings.Replace(s, needle, repl, n)

  /**
   * strings.Replace with a count: the first n non-overlapping occurrences
   * of needle, from the left, are replaced. The second component is how many
   * were.
   */
  function ReplaceFirst(s: string, needle: string, repl: string, n: nat): (r: (string, nat))
    requires |needle| > 0
    ensures r.1 <= n
    decreases |s|
  {
    var i := Index(s, needle);
    if n == 0 || i < 0 then (s, 0)
    else
      var rest := ReplaceFirst(s[i + |needle|..], needle, repl, n - 1);
      (s[..i] + repl + rest.0, rest.1 + 1)
  }

  function Min(a: int, b: int): int {
    if a <= b then a else b
  }

  /** As many occurrences are replaced as there are, up to n; with n at least that many it is ReplaceAll. */
  lemma {:induction false} ReplaceFirstCount(s: string, needle: string, repl: string, n: nat)
    requires |needle| > 0
    ensures ReplaceFirst(s, needle, repl, n).1 == Min(n, Count(s, needle))
    ensures n >= Count(s, needle) ==> ReplaceFirst(s, needle, repl, n).0 == ReplaceAll(s, needle, repl)
    decreases |s|
  {
    var i := Index(s, needle);
    if n > 0 && i >= 0 {
      ReplaceFirstCount(s[i + |needle|..], needle, repl, n - 1);
    }
  }

  /** With the needle occurring once, replacing once cuts it out and puts repl in its place. */
  lemma ReplaceOnce(s: string, needle: string, repl: string)
    requires |needle| > 0 && Count(s, needle) == 1
    ensures var i := Index(s, needle);
            && 0 <= i && i + |needle| <= |s| && s[i..i + |needle|] == needle
            && ReplaceFirst(s, needle, repl, 1).0 == s[..i] + repl + s[i + |needle|..]
            && (forall k | 0 <= k < i :: !MatchesAt(s, needle, k))
            && (forall k | i + |needle| <= k :: !MatchesAt(s, needle, k))
  {
    var i := Index(s, needle);
    IndexFromSpec(s, needle, 0);
    var rest := s[i + |needle|..];
    assert Count(rest, needle) == 0;
    IndexFromSpec(rest, needle, 0);
    forall k | i + |needle| <= k && MatchesAt(s, needle, k) ensures false {
      assert rest[k - i - |needle|..k - i - |needle| + |needle|] == s[k..k + |needle|];
      assert MatchesAt(rest, needle, k - i - |needle|);
    }
  }

  /**
   * FileReplace's replacedCount when a maximum is given, as written: the
   * occurrences before minus the occurrences after.
   */
  function ReplacedCountAsWritten(s: string, needle: string, repl: string, n: nat): int
    requires |needle| > 0
  {
    Count(s, needle) - Count(ReplaceFirst(s, needle, repl, n).0, needle)
  }

  /** Replacing "a" by "aa" once in "a" reports -1 replacements. */
  lemma ReplacedCountNegative()
    ensures ReplacedCountAsWritten("a", "a", "aa", 1) == -1
  {
    assert "a"[0..1] == "a";
    assert Index("a", "a") == 0;
    assert "a"[1..] == "";
    assert ReplaceFirst("a", "a", "aa", 1).0 == "aa";
    assert "aa"[0..1] == "a";
    assert "aa"[1..] == "a";
    assert Count("a", "a") == 1;
    assert Count("aa", "a") == 1 + Count("a", "a");
  }

  /** The corrected count: the number of replacements strings.Replace makes. */
  function ReplacedCount(s: string, needle: string, repl: string, n: nat): (c: nat)
    requires |needle| > 0
    ensures c == Min(n, Count(s, needle))
  {
    ReplaceFirstCount(s, needle, repl, n);
    ReplaceFirst(s, needle, repl, n).1
  }
}
