/**
 * tools/file.go: the older file tools, working on the process's own file
 * system by the path as given. The files are the map `files` of the class
 * `OsFiles`; the text of the error os.Open reports for a missing path is
 * the constant `openError`, and whether a write fails is given to each
 * writing call. Lines are the ones a bufio.Scanner yields (ScanLines),
 * and results are joined with newlines and no trailing newline.
 */
module ToolsFileLegacy {
  import opened GoStrings
  import opened FileLines
  import opened ToolsFile

  datatype LegacyReply = LegacyReply(content: string, message: string, errorMessage: string)

  function Refusal(message: string): LegacyReply {
    LegacyReply("", "", message)
  }

  const LegacyPathRequired := "filepath 参数是必需的"

  /** Line n (1-based) is read: start and end bound the range, and a bound of 0 or less is absent. */
  predicate InWindow(n: int, startLine: int, endLine: int) {
    (startLine <= 0 || n >= startLine) && (endLine <= 0 || n <= endLine)
  }

  /** The lines of a ranged read, in order. */
  function Picked(ls: seq<string>, startLine: int, endLine: int): seq<string> {
    if |ls| == 0 then []
    else Picked(ls[..|ls| - 1], startLine, endLine) + (if InWindow(|ls|, startLine, endLine) then [ls[|ls| - 1]] else [])
  }

  /** The 0-based first line read: start - 1, or 0 when start is absent, within the file. */
  function Lo(startLine: int, n: nat): (lo: nat)
    ensures lo <= n
  {
    if startLine <= 1 then 0 else if startLine - 1 > n then n else startLine - 1
  }

  /** The 0-based end of the lines read: end, or the total when end is absent, within the file. */
  function Hi(endLine: int, n: nat): (hi: nat)
    ensures hi <= n
  {
    if endLine <= 0 || endLine > n then n else endLine
  }

  /** ls[lo:hi], empty when the bounds cross. */
  function Window(ls: seq<string>, lo: nat, hi: nat): seq<string>
    requires lo <= |ls| && hi <= |ls|
  {
    if lo <= hi then ls[lo..hi] else []
  }

  /**
   * A ranged read gives the slice of lines numbered start..end, with an
   * absent bound meaning the start or the end of the file, and nothing
   * when the range is empty or crossed.
   */
  lemma {:induction false} PickedIsSlice(ls: seq<string>, startLine: int, endLine: int)
    ensures Picked(ls, startLine, endLine) == Window(ls, Lo(startLine, |ls|), Hi(endLine, |ls|))
  {
    if |ls| > 0 {
      PickedIsSlice(ls[..|ls| - 1], startLine, endLine);
      if InWindow(|ls|, startLine, endLine) {
        WindowGrows(ls, startLine, endLine);
      } else {
        WindowStays(ls, startLine, endLine);
      }
    }
  }

  /** A last line inside the range extends the window by that line. */
  lemma WindowGrows(ls: seq<string>, startLine: int, endLine: int)
    requires |ls| > 0 && InWindow(|ls|, startLine, endLine)
    ensures Window(ls, Lo(startLine, |ls|), Hi(endLine, |ls|))
            == Window(ls[..|ls| - 1], Lo(startLine, |ls| - 1), Hi(endLine, |ls| - 1)) + [ls[|ls| - 1]]
  {
    var n := |ls|;
    var lo := Lo(startLine, n);
    assert Lo(startLine, n - 1) == lo < n && Hi(endLine, n) == n && Hi(endLine, n - 1) == n - 1;
    assert ls[..n - 1][lo..n - 1] == ls[lo..n - 1];
    assert ls[lo..n] == ls[lo..n - 1] + [ls[n - 1]];
  }

  /** A last line outside the range leaves the window as it was. */
  lemma WindowStays(ls: seq<string>, startLine: int, endLine: int)
    requires |ls| > 0 && !InWindow(|ls|, startLine, endLine)
    ensures Window(ls, Lo(startLine, |ls|), Hi(endLine, |ls|))
            == Window(ls[..|ls| - 1], Lo(startLine, |ls| - 1), Hi(endLine, |ls| - 1))
  {
    var n := |ls|;
    var lo, hi := Lo(startLine, n), Hi(endLine, n);
    if endLine > 0 && n > endLine {
      assert Hi(endLine, n - 1) == hi;
      if lo == Lo(startLine, n - 1) && lo <= hi {
        assert ls[..n - 1][lo..hi] == ls[lo..hi];
      }
    } else {
      assert lo == n && hi == n && Lo(startLine, n - 1) == n - 1 && Hi(endLine, n - 1) == n - 1;
    }
  }

  /** Once past the end line, no later line is read: the scanning loop may stop there. */
  lemma {:induction false} PickedStops(ls: seq<string>, startLine: int, endLine: int, i: nat)
    requires 0 < endLine <= i <= |ls|
    ensures Picked(ls, startLine, endLine) == Picked(ls[..i], startLine, endLine)
    decreases |ls| - i
  {
    if i < |ls| {
      PickedStops(ls[..|ls| - 1], startLine, endLine, i);
      assert ls[..|ls| - 1][..i] == ls[..i];
    } else {
      assert ls[..i] == ls;
    }
  }

  function ReadSpec(files: map<string, string>, openError: string -> string, path: string, startLine: int, endLine: int)
    : (r: LegacyReply)
    ensures path == "" ==> r == Refusal(LegacyPathRequired)
    ensures path != "" && path !in files ==> r == Refusal("无法打开文件: " + openError(path))
    ensures path != "" && path in files && startLine == 0 && endLine == 0 ==> r == LegacyReply(files[path], "", "")
    ensures path != "" && path in files && !(startLine == 0 && endLine == 0) ==>
              var ls := ScanLines(files[path]);
              r == LegacyReply(Join(Window(ls, Lo(startLine, |ls|), Hi(endLine, |ls|)), '\n'), "", "")
  {
    if path == "" then Refusal(LegacyPathRequired)
    else if path !in files then Refusal("无法打开文件: " + openError(path))
    else if startLine == 0 && endLine == 0 then LegacyReply(files[path], "", "")
    else
      PickedIsSlice(ScanLines(files[path]), startLine, endLine);
      LegacyReply(Join(Picked(ScanLines(files[path]), startLine, endLine), '\n'), "", "")
  }

  function LegacyModify(files: map<string, string>, openError: string -> string, path: string, startLine: int,
                        endLine: int, newContent: string, writeErr: Option<string>): (s: Step<LegacyReply>)
    ensures !s.ok ==> s.files == files && s.reply.message == ""
    ensures s.ok <==> path != "" && 1 <= startLine <= endLine && path in files
                      && startLine <= |ScanLines(files[path])| && writeErr.None?
    ensures s.ok ==>
              var result := Splice(ScanLines(files[path]), startLine, endLine, [newContent]);
              s.files == files[path := Join(result, '\n')] && result[startLine - 1] == newContent
  {
    if path == "" then Step(files, Refusal(LegacyPathRequired), false)
    else if startLine < 1 || endLine < startLine then
      Step(files, Refusal("行号无效: start_line=" + Itoa(startLine) + ", end_line=" + Itoa(endLine)), false)
    else if path !in files then Step(files, Refusal("无法打开文件: " + openError(path)), false)
    else
      var lines := ScanLines(files[path]);
      if startLine > |lines| then
        Step(files, Refusal("起始行号 " + Itoa(startLine) + " 超出文件总行数 " + Itoa(|lines|)), false)
      else if writeErr.Some? then Step(files, Refusal("写入文件失败: " + writeErr.value), false)
      else
        var result := Splice(lines, startLine, endLine, [newContent]);
        assert result[startLine - 1] == result[startLine - 1..startLine][0];
        Step(files[path := Join(result, '\n')],
             LegacyReply("", "成功修改文件 " + path + " 的第 " + Itoa(startLine) + "-" + Itoa(endLine) + " 行", ""), true)
  }

  function LegacyInsert(files: map<string, string>, openError: string -> string, path: string, lineNumber: int,
                        content: string, writeErr: Option<string>): (s: Step<LegacyReply>)
    ensures !s.ok ==> s.files == files && s.reply.message == ""
    ensures s.ok <==> path != "" && 0 <= lineNumber && path in files && lineNumber <= |ScanLines(files[path])|
                      && writeErr.None?
    ensures s.ok ==>
              var result := InsertAfter(ScanLines(files[path]), lineNumber, [content]);
              s.files == files[path := Join(result, '\n')] && result[lineNumber] == content
  {
    if path == "" then Step(files, Refusal(LegacyPathRequired), false)
    else if lineNumber < 0 then Step(files, Refusal("行号无效: line_number=" + Itoa(lineNumber)), false)
    else if path !in files then Step(files, Refusal("无法打开文件: " + openError(path)), false)
    else
      var lines := ScanLines(files[path]);
      if lineNumber > |lines| then
        Step(files, Refusal("行号 " + Itoa(lineNumber) + " 超出文件总行数 " + Itoa(|lines|)), false)
      else if writeErr.Some? then Step(files, Refusal("写入文件失败: " + writeErr.value), false)
      else
        var result := InsertAfter(lines, lineNumber, [content]);
        assert result[lineNumber] == result[lineNumber..lineNumber + 1][0];
        var position := if lineNumber > 0 then "第 " + Itoa(lineNumber) + " 行之后" else "开头";
        Step(files[path := Join(result, '\n')], LegacyReply("", "成功在文件 " + path + " 的" + position + "插入内容", ""), true)
  }

  class OsFiles {
    /** The files of the process's file system, by path. */
    var files: map<string, string>
    const openError: string -> string

    constructor (disk: map<string, string>, openError: string -> string)
      ensures files == disk && this.openError == openError
    {
      files := disk;
      this.openError := openError;
    }

    /** FileRead: the whole text, or the scanning loop over the requested lines. */
    method FileRead(path: string, startLine: int, endLine: int) returns (reply: LegacyReply)
      ensures reply == ReadSpec(files, openError, path, startLine, endLine)
    {
      if path == "" {
        return Refusal(LegacyPathRequired);
      }
      if path !in files {
        return Refusal("无法打开文件: " + openError(path));
      }
      if startLine == 0 && endLine == 0 {
        return LegacyReply(files[path], "", "");
      }
      var tokens := ScanLines(files[path]);
      var lines: seq<string> := [];
      var i := 0;
      while i < |tokens|
        invariant 0 <= i <= |tokens| && lines == Picked(tokens[..i], startLine, endLine)
      {
        var currentLine := i + 1;
        assert tokens[..i + 1][..i] == tokens[..i];
        if startLine > 0 && currentLine < startLine {
          i := i + 1;
          continue;
        }
        if endLine > 0 && currentLine > endLine {
          PickedStops(tokens, startLine, endLine, i);
          break;
        }
        lines := lines + [tokens[i]];
        i := i + 1;
      }
      if i == |tokens| {
        assert tokens[..i] == tokens;
      }
      PickedIsSlice(tokens, startLine, endLine);
      reply := LegacyReply(Join(lines, '\n'), "", "");
    }

    method FileModify(path: string, startLine: int, endLine: int, newContent: string, writeErr: Option<string>)
      returns (reply: LegacyReply)
      modifies this
      ensures var s := LegacyModify(old(files), openError, path, startLine, endLine, newContent, writeErr);
              files == s.files && reply == s.reply
    {
      if path == "" {
        return Refusal(LegacyPathRequired);
      }
      if startLine < 1 || endLine < startLine {
        return Refusal("行号无效: start_line=" + Itoa(startLine) + ", end_line=" + Itoa(endLine));
      }
      if path !in files {
        return Refusal("无法打开文件: " + openError(path));
      }
      var lines := ScanLines(files[path]);
      if startLine > |lines| {
        return Refusal("起始行号 " + Itoa(startLine) + " 超出文件总行数 " + Itoa(|lines|));
      }
      var result := lines[..startLine - 1] + [newContent];
      if endLine < |lines| {
        result := result + lines[endLine..];
      }
      if writeErr.Some? {
        return Refusal("写入文件失败: " + writeErr.value);
      }
      assert result == Splice(lines, startLine, endLine, [newContent]);
      files := files[path := Join(result, '\n')];
      reply := LegacyReply("", "成功修改文件 " + path + " 的第 " + Itoa(startLine) + "-" + Itoa(endLine) + " 行", "");
    }

    method FileInsert(path: string, lineNumber: int, content: string, writeErr: Option<string>) returns (reply: LegacyReply)
      modifies this
      ensures var s := LegacyInsert(old(files), openError, path, lineNumber, content, writeErr);
              files == s.files && reply == s.reply
    {
      if path == "" {
        return Refusal(LegacyPathRequired);
      }
      if lineNumber < 0 {
        return Refusal("行号无效: line_number=" + Itoa(lineNumber));
      }
      if path !in files {
        return Refusal("无法打开文件: " + openError(path));
      }
      var lines := ScanLines(files[path]);
      if lineNumber > |lines| {
        return Refusal("行号 " + Itoa(lineNumber) + " 超出文件总行数 " + Itoa(|lines|));
      }
      var result: seq<string>;
      if lineNumber == 0 {
        result := [content] + lines;
        assert lines[..0] == [] && lines[0..] == lines;
      } else {
        result := lines[..lineNumber] + [content] + lines[lineNumber..];
      }
      if writeErr.Some? {
        return Refusal("写入文件失败: " + writeErr.value);
      }
      assert result == InsertAfter(lines, lineNumber, [content]);
      files := files[path := Join(result, '\n')];
      var position := "开头";
      if lineNumber > 0 {
        position := "第 " + Itoa(lineNumber) + " 行之后";
      }
      reply := LegacyReply("", "成功在文件 " + path + " 的" + position + "插入内容", "");
    }
  }
}
