/**
 * tools/file/func.go: the file tools an agent uses inside its workspace.
 * A FileTools value owns a sandboxed file system; here that is the map
 * `files` from relative path to text. validatePath and the text of the
 * error a failed read reports are fixed when the tools are made and are
 * given as the constants `validate` and `readError`; whether a write
 * fails is given to each writing call as `writeErr`.
 */
module ToolsFile {
  import opened GoStrings
  import opened FileLines

  /** The outcome of validatePath: the relative path inside the workspace, or the reason it is refused. */
  datatype PathCheck = Allowed(rel: string) | Denied(reason: string)

  /** The state the tools read: the files and the two fixed oracles. */
  datatype Fs = Fs(files: map<string, string>, validate: string -> PathCheck, readError: string -> string)

  datatype Reply = Reply(message: string, totalLines: int, errorMessage: string)

  datatype ReplaceReply = ReplaceReply(message: string, replacedCount: int, totalLines: int, errorMessage: string)

  datatype SearchReply = SearchReply(matches: seq<SearchMatch>, totalMatches: int, errorMessage: string)

  /** The files after a call, its reply, and whether it succeeded. */
  datatype Step<R> = Step(files: map<string, string>, reply: R, ok: bool)

  const PathRequired := "filepath 参数是必需的"

  function Failure(message: string): Reply {
    Reply("", 0, message)
  }

  /** A located file: its relative path and text, or the error to report. */
  datatype Located = Refused(message: string) | Found(rel: string, text: string)

  /** validatePath, then the read; a read fails on a path with no file. */
  function Locate(fs: Fs, path: string, readPrefix: string): Located {
    match fs.validate(path)
    case Denied(reason) => Refused(reason)
    case Allowed(rel) => if rel in fs.files then Found(rel, fs.files[rel]) else Refused(readPrefix + fs.readError(rel))
  }

  // ---------------------------------------------------------------------
  // Line splicing

  /** The result lines of FileModify: lines start..end replaced by repl. */
  function Splice(lines: seq<string>, startLine: int, endLine: int, repl: seq<string>): (r: seq<string>)
    requires 1 <= startLine <= |lines| && startLine <= endLine
    ensures var cut := Min(endLine, |lines|);
            && |r| == |lines| - (cut - startLine + 1) + |repl|
            && r[..startLine - 1] == lines[..startLine - 1]
            && r[startLine - 1..startLine - 1 + |repl|] == repl
            && r[startLine - 1 + |repl|..] == lines[cut..]
  {
    var r := lines[..startLine - 1] + repl + (if endLine < |lines| then lines[endLine..] else []);
    assert r[..startLine - 1] == lines[..startLine - 1];
    assert r[startLine - 1..startLine - 1 + |repl|] == repl;
    r
  }

  /** The result lines of FileInsert: repl after the first n lines. */
  function InsertAfter(lines: seq<string>, n: int, repl: seq<string>): (r: seq<string>)
    requires 0 <= n <= |lines|
    ensures |r| == |lines| + |repl|
    ensures r[..n] == lines[..n] && r[n..n + |repl|] == repl && r[n + |repl|..] == lines[n..]
  {
    var r := lines[..n] + repl + lines[n..];
    assert r[..n] == lines[..n];
    assert r[n..n + |repl|] == repl;
    r
  }

  // ---------------------------------------------------------------------
  // FileRead

  function ReadFailure(message: string): ReadReply {
    ReadReply("", 0, "", false, message)
  }

  function FileReadSpec(fs: Fs, path: string, startLine: int, endLine: int): (r: ReadReply)
    ensures path != "" && Locate(fs, path, "读取文件失败: ").Found? ==>
              r == Read(ReadLines(Locate(fs, path, "读取文件失败: ").text).lines, startLine, endLine)
    ensures path == "" ==> r == ReadFailure(PathRequired)
    ensures path != "" && fs.validate(path).Denied? ==> r == ReadFailure(fs.validate(path).reason)
    ensures path != "" && fs.validate(path).Allowed? && fs.validate(path).rel !in fs.files ==>
              r == ReadFailure("读取文件失败: " + fs.readError(fs.validate(path).rel))
  {
    if path == "" then ReadFailure(PathRequired)
    else match Locate(fs, path, "读取文件失败: ")
      case Refused(m) => ReadFailure(m)
      case Found(_, text) => Read(ReadLines(text).lines, startLine, endLine)
  }

  // ---------------------------------------------------------------------
  // FileModify

  function ModifyMessage(path: string, startLine: int, endLine: int, replaced: int): string {
    "成功修改文件 " + path + " 的第 " + Itoa(startLine) + "-" + Itoa(endLine) + " 行（替换了 "
    + Itoa(endLine - startLine + 1) + " 行为 " + Itoa(replaced) + " 行）"
  }

  function Modify(fs: Fs, path: string, startLine: int, endLine: int, newContent: string, writeErr: Option<string>)
    : (s: Step<Reply>)
    ensures !s.ok ==> s.files == fs.files && s.reply.message == ""
    ensures s.ok <==> path != "" && 1 <= startLine <= endLine && Locate(fs, path, "读取文件失败: ").Found?
                      && startLine <= |ReadLines(Locate(fs, path, "读取文件失败: ").text).lines| && writeErr.None?
    ensures s.ok ==>
              var at := Locate(fs, path, "读取文件失败: ");
              var t := ReadLines(at.text);
              var result := Splice(t.lines, startLine, endLine, Split(newContent, '\n'));
              s.files == fs.files[at.rel := JoinLines(result, t.trailingNewline)] && s.reply.totalLines == |result|
  {
    if path == "" then Step(fs.files, Failure(PathRequired), false)
    else if startLine < 1 || endLine < startLine then
      Step(fs.files, Failure("行号无效: start_line=" + Itoa(startLine) + ", end_line=" + Itoa(endLine)), false)
    else match Locate(fs, path, "读取文件失败: ")
      case Refused(m) => Step(fs.files, Failure(m), false)
      case Found(rel, text) =>
        var t := ReadLines(text);
        if startLine > |t.lines| then
          Step(fs.files, Failure("起始行号 " + Itoa(startLine) + " 超出文件总行数 " + Itoa(|t.lines|)), false)
        else if writeErr.Some? then Step(fs.files, Failure("写入文件失败: " + writeErr.value), false)
        else
          var newLines := Split(newContent, '\n');
          var result := Splice(t.lines, startLine, endLine, newLines);
          Step(fs.files[rel := JoinLines(result, t.trailingNewline)],
               Reply(ModifyMessage(path, startLine, endLine, |newLines|), |result|, ""), true)
  }

  /**
   * After a modify, reading the file gives the spliced lines and the old
   * trailing newline, unless the splice ends in a blank line (which
   * readFileLines drops).
   */
  lemma ModifyReadsBack(fs: Fs, path: string, startLine: int, endLine: int, newContent: string, writeErr: Option<string>)
    requires Modify(fs, path, startLine, endLine, newContent, writeErr).ok
    ensures var at := Locate(fs, path, "读取文件失败: ");
            var t := ReadLines(at.text);
            var result := Splice(t.lines, startLine, endLine, Split(newContent, '\n'));
            result[|result| - 1] != "" ==>
              ReadLines(Modify(fs, path, startLine, endLine, newContent, writeErr).files[at.rel]) == Text(result, t.trailingNewline)
  {
    var at := Locate(fs, path, "读取文件失败: ");
    var t := ReadLines(at.text);
    var repl := Split(newContent, '\n');
    SplitNoSeparator(newContent, '\n');
    SpliceWithoutNewlines(t.lines, startLine, endLine, repl);
    var result := Splice(t.lines, startLine, endLine, repl);
    if result[|result| - 1] != "" {
      LinesRoundTrip(result, t.trailingNewline);
    }
  }

  /** Splicing lines without newlines into lines without newlines gives lines without newlines. */
  lemma SpliceWithoutNewlines(lines: seq<string>, startLine: int, endLine: int, repl: seq<string>)
    requires 1 <= startLine <= |lines| && startLine <= endLine
    requires forall i | 0 <= i < |lines| :: '\n' !in lines[i]
    requires forall i | 0 <= i < |repl| :: '\n' !in repl[i]
    ensures forall i | 0 <= i < |Splice(lines, startLine, endLine, repl)| :: '\n' !in Splice(lines, startLine, endLine, repl)[i]
  {
    var r := lines[..startLine - 1] + repl + (if endLine < |lines| then lines[endLine..] else []);
    assert r == Splice(lines, startLine, endLine, repl);
    forall x | x in r ensures '\n' !in x {
      if x in lines[..startLine - 1] || (endLine < |lines| && x in lines[endLine..]) {
        var k :| 0 <= k < |lines| && lines[k] == x;
      } else {
        var k :| 0 <= k < |repl| && repl[k] == x;
      }
    }
  }

  // ---------------------------------------------------------------------
  // FileInsert

  function InsertMessage(path: string, lineNumber: int, inserted: int): string {
    var position := if lineNumber > 0 then "第 " + Itoa(lineNumber) + " 行之后" else "开头";
    "成功在文件 " + path + " 的" + position + "插入 " + Itoa(inserted) + " 行内容"
  }

  function Insert(fs: Fs, path: string, lineNumber: int, content: string, writeErr: Option<string>): (s: Step<Reply>)
    ensures !s.ok ==> s.files == fs.files && s.reply.message == ""
    ensures s.ok <==> path != "" && 0 <= lineNumber && Locate(fs, path, "读取文件失败: ").Found?
                      && lineNumber <= |ReadLines(Locate(fs, path, "读取文件失败: ").text).lines| && writeErr.None?
    ensures s.ok ==>
              var at := Locate(fs, path, "读取文件失败: ");
              var t := ReadLines(at.text);
              var result := InsertAfter(t.lines, lineNumber, Split(content, '\n'));
              s.files == fs.files[at.rel := JoinLines(result, t.trailingNewline)] && s.reply.totalLines == |result|
  {
    if path == "" then Step(fs.files, Failure(PathRequired), false)
    else if lineNumber < 0 then Step(fs.files, Failure("行号无效: line_number=" + Itoa(lineNumber)), false)
    else match Locate(fs, path, "读取文件失败: ")
      case Refused(m) => Step(fs.files, Failure(m), false)
      case Found(rel, text) =>
        var t := ReadLines(text);
        if lineNumber > |t.lines| then
          Step(fs.files, Failure("行号 " + Itoa(lineNumber) + " 超出文件总行数 " + Itoa(|t.lines|)), false)
        else if writeErr.Some? then Step(fs.files, Failure("写入文件失败: " + writeErr.value), false)
        else
          var newLines := Split(content, '\n');
          var result := InsertAfter(t.lines, lineNumber, newLines);
          Step(fs.files[rel := JoinLines(result, t.trailingNewline)],
               Reply(InsertMessage(path, lineNumber, |newLines|), |result|, ""), true)
  }

  // ---------------------------------------------------------------------
  // FileSearch (plain-text mode)

  /** The number of matches FileSearch stops at: max_count, or 100 when it is not positive. */
  function SearchLimit(maxCount: int): nat {
    if maxCount <= 0 then 100 else maxCount
  }

  /** Whether FileSearch gets to scan the file. */
  predicate Searched(fs: Fs, path: string, pattern: string) {
    path != "" && pattern != "" && Locate(fs, path, "无法打开文件: ").Found?
  }

  function SearchSpec(fs: Fs, path: string, pattern: string, maxCount: int): (r: SearchReply)
    ensures Searched(fs, path, pattern) ==>
              var all := Hits(ScanLines(Locate(fs, path, "无法打开文件: ").text), pattern);
              && r.errorMessage == "" && r.matches == all[..Min(SearchLimit(maxCount), |all|)]
              && r.totalMatches == |r.matches| <= SearchLimit(maxCount)
    ensures !Searched(fs, path, pattern) ==> r.matches == [] && r.totalMatches == 0
  {
    if path == "" then SearchReply([], 0, PathRequired)
    else if pattern == "" then SearchReply([], 0, "pattern 参数是必需的")
    else match Locate(fs, path, "无法打开文件: ")
      case Refused(m) => SearchReply([], 0, m)
      case Found(_, text) =>
        var all := Hits(ScanLines(text), pattern);
        var found := all[..Min(SearchLimit(maxCount), |all|)];
        SearchReply(found, |found|, "")
  }

  /** Every reported match is a line holding the pattern, and fewer than the limit means all of them. */
  lemma SearchMeaning(fs: Fs, path: string, pattern: string, maxCount: int)
    requires Searched(fs, path, pattern)
    ensures var ls := ScanLines(Locate(fs, path, "无法打开文件: ").text);
            var r := SearchSpec(fs, path, pattern, maxCount);
            && (forall m | m in r.matches :: 1 <= m.lineNumber <= |ls| && ls[m.lineNumber - 1] == m.lineText
                                             && Contains(m.lineText, pattern))
            && (|r.matches| < SearchLimit(maxCount) ==>
                  forall j | 0 <= j < |ls| && Contains(ls[j], pattern) :: SearchMatch(j + 1, ls[j]) in r.matches)
  {
    var ls := ScanLines(Locate(fs, path, "无法打开文件: ").text);
    HitsMeaning(ls, pattern);
  }

  // ---------------------------------------------------------------------
  // FileReplace (plain-text mode)

  function ReplaceFailure(message: string): ReplaceReply {
    ReplaceReply("", 0, 0, message)
  }

  /** The text after FileReplace's replacement and the number of replacements. */
  function Replaced(text: string, oldPattern: string, newText: string, maxCount: int): (r: (string, nat))
    requires |oldPattern| > 0
    ensures maxCount <= 0 || maxCount >= Count(text, oldPattern) ==> r.0 == ReplaceAll(text, oldPattern, newText)
    ensures r.1 == if maxCount > 0 then Min(maxCount, Count(text, oldPattern)) else Count(text, oldPattern)
  {
    if maxCount > 0 then
      ReplaceFirstCount(text, oldPattern, newText, maxCount);
      (ReplaceFirst(text, oldPattern, newText, maxCount).0, ReplacedCount(text, oldPattern, newText, maxCount))
    else (ReplaceAll(text, oldPattern, newText), Count(text, oldPattern))
  }

  function Replace(fs: Fs, path: string, oldPattern: string, newText: string, maxCount: int, writeErr: Option<string>)
    : (s: Step<ReplaceReply>)
    ensures !s.ok ==> s.files == fs.files
    ensures s.ok <==> path != "" && oldPattern != "" && Locate(fs, path, "读取文件失败: ").Found?
                      && (Replaced(Locate(fs, path, "读取文件失败: ").text, oldPattern, newText, maxCount).0
                            == Locate(fs, path, "读取文件失败: ").text || writeErr.None?)
    ensures s.ok ==>
              var at := Locate(fs, path, "读取文件失败: ");
              var r := Replaced(at.text, oldPattern, newText, maxCount);
              if r.0 == at.text then s.files == fs.files && s.reply.replacedCount == 0
              else s.files == fs.files[at.rel := r.0] && s.reply.replacedCount == r.1
                   && s.reply.totalLines == CountLines(r.0)
  {
    if path == "" then Step(fs.files, ReplaceFailure(PathRequired), false)
    else if oldPattern == "" then Step(fs.files, ReplaceFailure("old_pattern 参数是必需的"), false)
    else match Locate(fs, path, "读取文件失败: ")
      case Refused(m) => Step(fs.files, ReplaceFailure(m), false)
      case Found(rel, text) =>
        var r := Replaced(text, oldPattern, newText, maxCount);
        if r.0 == text then Step(fs.files, ReplaceReply("未找到匹配的内容,文件未修改", 0, CountLines(text), ""), true)
        else if writeErr.Some? then Step(fs.files, ReplaceFailure("写入文件失败: " + writeErr.value), false)
        else Step(fs.files[rel := r.0],
                  ReplaceReply("成功在文件 " + path + " 中替换了 " + Itoa(r.1) + " 处内容", r.1, CountLines(r.0), ""), true)
  }

  // ---------------------------------------------------------------------
  // FileEdit

  function EditReplace(fs: Fs, path: string, rel: string, content: string, oldText: string, writeErr: Option<string>)
    : (s: Step<Reply>)
    ensures !s.ok ==> s.files == fs.files
    ensures s.ok <==> oldText != "" && rel in fs.files && Count(fs.files[rel], oldText) == 1 && writeErr.None?
    ensures s.ok ==> |oldText| > 0 && s.files == fs.files[rel := ReplaceFirst(fs.files[rel], oldText, content, 1).0]
  {
    if oldText == "" then Step(fs.files, Failure("replace mode requires old_text parameter"), false)
    else if rel !in fs.files then Step(fs.files, Failure("failed to read file: " + fs.readError(rel)), false)
    else
      var original := fs.files[rel];
      var matchCount := Count(original, oldText);
      if matchCount == 0 then
        Step(fs.files, Reply("", CountLines(original),
                             "未找到匹配的文本，请检查 old_text 是否完全正确 (文件共 " + Itoa(CountLines(original)) + " 行)"), false)
      else if matchCount > 1 then
        Step(fs.files, Reply("", CountLines(original),
                             "找到 " + Itoa(matchCount) + " 处匹配，请在 old_text 中包含更多上下文以确保唯一匹配 (文件共 "
                             + Itoa(CountLines(original)) + " 行)"), false)
      else
        var updated := ReplaceFirst(original, oldText, content, 1).0;
        if writeErr.Some? then Step(fs.files, Failure("failed to write file: " + writeErr.value), false)
        else Step(fs.files[rel := updated], Reply("成功替换文件 " + path + " 中的内容", CountLines(updated), ""), true)
  }

  function Edit(fs: Fs, path: string, action: string, content: string, oldText: string, writeErr: Option<string>)
    : (s: Step<Reply>)
    ensures !s.ok ==> s.files == fs.files
    ensures s.ok ==> path != "" && fs.validate(path).Allowed? && writeErr.None?
    ensures s.ok <==> path != "" && fs.validate(path).Allowed?
                      && (((action == "write" || action == "append") && writeErr.None?)
                          || (action == "replace" && EditReplace(fs, path, fs.validate(path).rel, content, oldText, writeErr).ok))
    ensures s.ok && action == "write" ==>
              s.files == fs.files[fs.validate(path).rel := content] && s.reply.totalLines == CountLines(content)
    ensures s.ok && action == "append" ==>
              var rel := fs.validate(path).rel;
              var appended := (if rel in fs.files then fs.files[rel] else "") + content;
              s.files == fs.files[rel := appended] && s.reply.totalLines == |ReadLines(appended).lines|
    ensures s.ok ==> action == "write" || action == "append" || action == "replace"
  {
    if path == "" then Step(fs.files, Failure("filepath is required"), false)
    else match fs.validate(path)
      case Denied(reason) => Step(fs.files, Failure(reason), false)
      case Allowed(rel) =>
        if action == "write" then
          if writeErr.Some? then Step(fs.files, Failure("failed to write file: " + writeErr.value), false)
          else Step(fs.files[rel := content],
                    Reply("成功写入文件 " + path + " (" + Itoa(|content|) + " 字节)", CountLines(content), ""), true)
        else if action == "append" then
          if writeErr.Some? then Step(fs.files, Failure("failed to append: " + writeErr.value), false)
          else
            var appended := (if rel in fs.files then fs.files[rel] else "") + content;
            Step(fs.files[rel := appended], Reply("成功追加内容到文件 " + path, |ReadLines(appended).lines|, ""), true)
        else if action == "replace" then EditReplace(fs, path, rel, content, oldText, writeErr)
        else Step(fs.files, Failure("unsupported action: " + action + ", use write/append/replace"), false)
  }

  /** A successful replace edit puts the content where the only occurrence of old_text was. */
  lemma EditReplacesOnce(fs: Fs, path: string, content: string, oldText: string, writeErr: Option<string>)
    requires Edit(fs, path, "replace", content, oldText, writeErr).ok
    ensures var rel := fs.validate(path).rel;
            var original := fs.files[rel];
            var i := Index(original, oldText);
            && 0 <= i && original == original[..i] + oldText + original[i + |oldText|..]
            && Edit(fs, path, "replace", content, oldText, writeErr).files[rel] == original[..i] + content + original[i + |oldText|..]
  {
    var rel := fs.validate(path).rel;
    var original := fs.files[rel];
    ReplaceOnce(original, oldText, content);
    var i := Index(original, oldText);
    assert original == original[..i] + original[i..i + |oldText|] + original[i + |oldText|..];
  }

  /** Writing a text reports as many lines as reading it back would give. */
  lemma EditWriteCountsLines(fs: Fs, path: string, content: string, writeErr: Option<string>)
    requires Edit(fs, path, "write", content, "", writeErr).ok
    ensures Edit(fs, path, "write", content, "", writeErr).reply.totalLines
            == |ReadLines(Edit(fs, path, "write", content, "", writeErr).files[fs.validate(path).rel]).lines|
  {
    CountLinesIsLineCount(content);
  }

  // ---------------------------------------------------------------------
  // The tools

  class FileTools {
    /** The workspace's files by path relative to the allowed base directory. */
    var files: map<string, string>
    const validate: string -> PathCheck
    const readError: string -> string

    function State(): Fs
      reads this
    {
      Fs(files, validate, readError)
    }

    /** NewFileTools over a workspace holding these files. */
    constructor (workspace: map<string, string>, validate: string -> PathCheck, readError: string -> string)
      ensures State() == Fs(workspace, validate, readError)
    {
      files := workspace;
      this.validate := validate;
      this.readError := readError;
    }

    method FileRead(path: string, startLine: int, endLine: int) returns (reply: ReadReply)
      ensures reply == FileReadSpec(State(), path, startLine, endLine)
    {
      if path == "" {
        return ReadFailure(PathRequired);
      }
      var at := Locate(State(), path, "读取文件失败: ");
      if at.Refused? {
        return ReadFailure(at.message);
      }
      var lines := ReadLines(at.text).lines;
      var total := |lines|;
      if startLine == 0 && endLine == 0 {
        if total > MaxDefaultLines {
          return ReadReply(Join(lines[..MaxDefaultLines], '\n'), total, Range(1, MaxDefaultLines), true, "");
        }
        return ReadReply(Join(lines, '\n'), total, Range(1, total), false, "");
      }
      var startIdx := startLine - 1;
      if startIdx < 0 {
        startIdx := 0;
      }
      if startIdx >= total {
        return StartTooLarge(startLine, total);
      }
      if 0 < endLine < startLine - 1 {
        return ReadReply("", total, "", false, "行号无效: start_line=" + Itoa(startLine) + ", end_line=" + Itoa(endLine));
      }
      var endIdx := total;
      if endLine > 0 && endLine < total {
        endIdx := endLine;
      }
      return ReadReply(Join(lines[startIdx..endIdx], '\n'), total, Range(startIdx + 1, endIdx), false, "");
    }

    method FileModify(path: string, startLine: int, endLine: int, newContent: string, writeErr: Option<string>)
      returns (reply: Reply)
      modifies this
      ensures var s := Modify(old(State()), path, startLine, endLine, newContent, writeErr);
              files == s.files && reply == s.reply
    {
      if path == "" {
        return Failure(PathRequired);
      }
      if startLine < 1 || endLine < startLine {
        return Failure("行号无效: start_line=" + Itoa(startLine) + ", end_line=" + Itoa(endLine));
      }
      var at := Locate(State(), path, "读取文件失败: ");
      if at.Refused? {
        return Failure(at.message);
      }
      var t := ReadLines(at.text);
      var lines := t.lines;
      if startLine > |lines| {
        return Failure("起始行号 " + Itoa(startLine) + " 超出文件总行数 " + Itoa(|lines|));
      }
      var newLines := Split(newContent, '\n');
      var result := lines[..startLine - 1] + newLines;
      if endLine < |lines| {
        result := result + lines[endLine..];
      }
      if writeErr.Some? {
        return Failure("写入文件失败: " + writeErr.value);
      }
      assert result == Splice(lines, startLine, endLine, newLines);
      files := files[at.rel := JoinLines(result, t.trailingNewline)];
      reply := Reply(ModifyMessage(path, startLine, endLine, |newLines|), |result|, "");
    }

    method FileInsert(path: string, lineNumber: int, content: string, writeErr: Option<string>) returns (reply: Reply)
      modifies this
      ensures var s := Insert(old(State()), path, lineNumber, content, writeErr);
              files == s.files && reply == s.reply
    {
      if path == "" {
        return Failure(PathRequired);
      }
      if lineNumber < 0 {
        return Failure("行号无效: line_number=" + Itoa(lineNumber));
      }
      var at := Locate(State(), path, "读取文件失败: ");
      if at.Refused? {
        return Failure(at.message);
      }
      var t := ReadLines(at.text);
      var lines := t.lines;
      if lineNumber > |lines| {
        return Failure("行号 " + Itoa(lineNumber) + " 超出文件总行数 " + Itoa(|lines|));
      }
      var newLines := Split(content, '\n');
      var result: seq<string>;
      if lineNumber == 0 {
        result := newLines + lines;
        assert lines[..0] == [] && lines[0..] == lines;
      } else {
        result := lines[..lineNumber] + newLines + lines[lineNumber..];
      }
      if writeErr.Some? {
        return Failure("写入文件失败: " + writeErr.value);
      }
      assert result == InsertAfter(lines, lineNumber, newLines);
      files := files[at.rel := JoinLines(result, t.trailingNewline)];
      reply := Reply(InsertMessage(path, lineNumber, |newLines|), |result|, "");
    }

    /** FileSearch's scanning loop, stopping at the limit. */
    method FileSearch(path: string, pattern: string, maxCount: int) returns (reply: SearchReply)
      ensures reply == SearchSpec(State(), path, pattern, maxCount)
    {
      if path == "" {
        return SearchReply([], 0, PathRequired);
      }
      if pattern == "" {
        return SearchReply([], 0, "pattern 参数是必需的");
      }
      var at := Locate(State(), path, "无法打开文件: ");
      if at.Refused? {
        return SearchReply([], 0, at.message);
      }
      var ls := ScanLines(at.text);
      var limit := SearchLimit(maxCount);
      var matches: seq<SearchMatch> := [];
      var i := 0;
      while i < |ls| && |matches| < limit
        invariant 0 <= i <= |ls| && matches == Hits(ls[..i], pattern) && |matches| <= limit
      {
        assert ls[..i + 1][..i] == ls[..i];
        if Contains(ls[i], pattern) {
          matches := matches + [SearchMatch(i + 1, ls[i])];
        }
        i := i + 1;
      }
      HitsPrefix(ls, pattern, i);
      if i == |ls| {
        assert ls[..i] == ls;
      }
      reply := SearchReply(matches, |matches|, "");
    }

    method FileReplace(path: string, oldPattern: string, newText: string, maxCount: int, writeErr: Option<string>)
      returns (reply: ReplaceReply)
      modifies this
      ensures var s := Replace(old(State()), path, oldPattern, newText, maxCount, writeErr);
              files == s.files && reply == s.reply
    {
      if path == "" {
        return ReplaceFailure(PathRequired);
      }
      if oldPattern == "" {
        return ReplaceFailure("old_pattern 参数是必需的");
      }
      var at := Locate(State(), path, "读取文件失败: ");
      if at.Refused? {
        return ReplaceFailure(at.message);
      }
      var original := at.text;
      var newContent := original;
      var replacedCount := 0;
      if maxCount > 0 {
        newContent := ReplaceFirst(original, oldPattern, newText, maxCount).0;
        replacedCount := ReplacedCount(original, oldPattern, newText, maxCount);
      } else {
        replacedCount := Count(original, oldPattern);
        newContent := ReplaceAll(original, oldPattern, newText);
      }
      if newContent == original {
        return ReplaceReply("未找到匹配的内容,文件未修改", 0, CountLines(original), "");
      }
      if writeErr.Some? {
        return ReplaceFailure("写入文件失败: " + writeErr.value);
      }
      files := files[at.rel := newContent];
      reply := ReplaceReply("成功在文件 " + path + " 中替换了 " + Itoa(replacedCount) + " 处内容", replacedCount,
                            CountLines(newContent), "");
    }

    method FileEdit(path: string, action: string, content: string, oldText: string, writeErr: Option<string>)
      returns (reply: Reply)
      modifies this
      ensures var s := Edit(old(State()), path, action, content, oldText, writeErr);
              files == s.files && reply == s.reply
    {
      if path == "" {
        return Failure("filepath is required");
      }
      var check := validate(path);
      if check.Denied? {
        return Failure(check.reason);
      }
      var rel := check.rel;
      if action == "write" {
        if writeErr.Some? {
          return Failure("failed to write file: " + writeErr.value);
        }
        files := files[rel := content];
        return Reply("成功写入文件 " + path + " (" + Itoa(|content|) + " 字节)", CountLines(content), "");
      } else if action == "append" {
        if writeErr.Some? {
          return Failure("failed to append: " + writeErr.value);
        }
        var before := if rel in files then files[rel] else "";
        files := files[rel := before + content];
        return Reply("成功追加内容到文件 " + path, |ReadLines(before + content).lines|, "");
      } else if action == "replace" {
        if oldText == "" {
          return Failure("replace mode requires old_text parameter");
        }
        if rel !in files {
          return Failure("failed to read file: " + readError(rel));
        }
        var original := files[rel];
        var matchCount := Count(original, oldText);
        if matchCount == 0 {
          return Reply("", CountLines(original),
                       "未找到匹配的文本，请检查 old_text 是否完全正确 (文件共 " + Itoa(CountLines(original)) + " 行)");
        }
        if matchCount > 1 {
          return Reply("", CountLines(original),
                       "找到 " + Itoa(matchCount) + " 处匹配，请在 old_text 中包含更多上下文以确保唯一匹配 (文件共 "
                       + Itoa(CountLines(original)) + " 行)");
        }
        var updated := ReplaceFirst(original, oldText, content, 1).0;
        if writeErr.Some? {
          return Failure("failed to write file: " + writeErr.value);
        }
        files := files[rel := updated];
        return Reply("成功替换文件 " + path + " 中的内容", CountLines(updated), "");
      }
      return Failure("unsupported action: " + action + ", use write/append/replace");
    }
  }
}
