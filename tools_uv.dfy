/**
 * tools/script/uv/func.go: the Python tools run inside a uv virtual
 * environment. Modelled here: the request checks, the timeout clamps and
 * argument lists of RunScript and RunCode, the exit-code verdict, and
 * CheckSyntax, which runs a small checking script and parses the lines it
 * prints. The file system and the process are parameters.
 */
module ToolsUv {
  import opened GoStrings

  const NoVenvMessage := "虚拟环境不存在，请先调用 uv_init_env 初始化环境"

  /** How a child process ended: exec's error value, as far as the tools look at it. */
  datatype ProcessError =
    | NoError
    | ExitError(code: int, text: string)    // *exec.ExitError, with its Error() text; -1 when killed
    | OtherError(text: string)              // could not start, or a failed pipe copy

  /** What CombinedOutput returns. */
  datatype ProcessResult = ProcessResult(output: string, err: ProcessError)

  /** filepath.IsAbs on a Unix host. */
  predicate IsAbs(p: string) {
    HasPrefix(p, "/")
  }

  /** A relative request path is taken relative to the working directory. */
  function ResolvePath(workDir: string, p: string, join: (string, string) -> string): string {
    if IsAbs(p) then p else join(workDir, p)
  }

  // ---------------------------------------------------------------------
  // Timeouts (seconds)

  /** RunScript: 300 s unless the request sets a positive timeout, at most 600 s. */
  function ScriptTimeout(requested: int): (t: int)
    ensures 0 < t <= 600
    ensures requested <= 0 ==> t == 300
    ensures 0 < requested <= 600 ==> t == requested
    ensures requested > 600 ==> t == 600
  {
    if requested > 0 then (if requested > 600 then 600 else requested) else 300
  }

  /** RunCode: 60 s unless the request sets a positive timeout, at most 300 s. */
  function CodeTimeout(requested: int): (t: int)
    ensures 0 < t <= 300
    ensures requested <= 0 ==> t == 60
    ensures 0 < requested <= 300 ==> t == requested
    ensures requested > 300 ==> t == 300
  {
    if requested > 0 then (if requested > 300 then 300 else requested) else 60
  }

  /** Clamping an already clamped timeout changes nothing. */
  lemma TimeoutsIdempotent(requested: int)
    ensures ScriptTimeout(ScriptTimeout(requested)) == ScriptTimeout(requested)
    ensures CodeTimeout(CodeTimeout(requested)) == CodeTimeout(requested)
  {
  }

  // ---------------------------------------------------------------------
  // RunScript and RunCode

  /** RunScriptResponse / RunCodeResponse. */
  datatype RunResponse = RunResponse(success: bool, output: string, exitCode: int,
                                     duration: string, errorMessage: string)

  function Refused(message: string): RunResponse {
    RunResponse(false, "", 0, "", message)
  }

  /**
   * The verdict on a finished process shared by RunScript and RunCode: an
   * exit error is an unsuccessful run with its code, any other error is
   * reported as such, and the run succeeds exactly when the code is 0.
   */
  function Verdict(res: ProcessResult, duration: string, failure: string): (r: RunResponse)
    ensures r.output == res.output && r.duration == duration
    ensures r.success <==> res.err.NoError? || (res.err.ExitError? && res.err.code == 0)
    ensures res.err.OtherError? ==> r.exitCode == 0 && r.errorMessage == failure + ": " + res.err.text
    ensures !res.err.OtherError? ==> r.exitCode == (if res.err.ExitError? then res.err.code else 0)
    ensures !res.err.OtherError? ==> (r.errorMessage == "" <==> r.success)
    ensures !res.err.OtherError? && !r.success ==> r.errorMessage == failure + "，退出码: " + Itoa(r.exitCode)
  {
    match res.err
    case OtherError(text) => RunResponse(false, res.output, 0, duration, failure + ": " + text)
    case ExitError(code, _) => Exited(res.output, code, duration, failure)
    case NoError => Exited(res.output, 0, duration, failure)
  }

  /** A process that ran to its end: success is exit code 0. */
  function Exited(output: string, code: int, duration: string, failure: string): RunResponse {
    var success := code == 0;
    RunResponse(success, output, code, duration, if success then "" else failure + "，退出码: " + Itoa(code))
  }

  /** Where the script to run comes from. */
  datatype TempFile = TempCreated(path: string) | CreateFailed(err: string) | WriteFailed(err: string)

  /** The script RunScript runs, or the refusal. */
  datatype ScriptChoice = UseScript(path: string) | NoScript(message: string)

  /**
   * The script path: the request's path resolved against the working
   * directory (it must exist), else a temporary file holding the request's
   * content, else a refusal.
   */
  function ChooseScript(scriptPath: string, scriptContent: string, workDir: string,
                        join: (string, string) -> string, exists_: string -> bool,
                        temp: TempFile): (c: ScriptChoice)
    ensures scriptPath != "" ==>
      (c.UseScript? <==> exists_(ResolvePath(workDir, scriptPath, join)))
    ensures scriptPath != "" && c.UseScript? ==> c.path == ResolvePath(workDir, scriptPath, join)
    ensures scriptPath == "" && scriptContent != "" ==> (c.UseScript? <==> temp.TempCreated?)
    ensures scriptPath == "" && scriptContent != "" && c.UseScript? ==> c.path == temp.path
    ensures scriptPath == "" && scriptContent == "" ==> c == NoScript("script_path 和 script_content 必须提供其中一个")
  {
    if scriptPath != "" then
      var p := ResolvePath(workDir, scriptPath, join);
      if exists_(p) then UseScript(p)
      else NoScript("脚本文件不存在: " + p + "，请检查文件路径或使用 file_list 查看可用文件")
    else if scriptContent != "" then
      match temp
      case TempCreated(p) => UseScript(p)
      case CreateFailed(e) => NoScript("创建临时脚本失败: " + e)
      case WriteFailed(e) => NoScript("写入脚本内容失败: " + e)
    else NoScript("script_path 和 script_content 必须提供其中一个")
  }

  /** The interpreter's arguments for RunScript: the script, then the request's arguments. */
  function ScriptArgs(scriptPath: string, args: seq<string>): (a: seq<string>)
    ensures |a| == |args| + 1 && a[0] == scriptPath && a[1..] == args
  {
    [scriptPath] + args
  }

  /** The interpreter's arguments for RunCode: `-c`, the code, then the request's arguments. */
  function CodeArgs(code: string, args: seq<string>): (a: seq<string>)
    ensures |a| == |args| + 2 && a[0] == "-c" && a[1] == code && a[2..] == args
  {
    ["-c", code] + args
  }

  /**
   * RunScript: without the virtual environment or a script nothing runs;
   * otherwise the interpreter runs the script with the request's arguments
   * under the clamped timeout, and the verdict follows the exit code.
   */
  function RunScript(venvExists: bool, scriptPath: string, scriptContent: string, args: seq<string>,
                     timeout: int, workDir: string, join: (string, string) -> string,
                     exists_: string -> bool, temp: TempFile,
                     run: (seq<string>, int) -> ProcessResult, duration: string): (r: RunResponse)
    ensures !venvExists ==> r == Refused(NoVenvMessage)
    ensures venvExists && ChooseScript(scriptPath, scriptContent, workDir, join, exists_, temp).NoScript? ==>
      r == Refused(ChooseScript(scriptPath, scriptContent, workDir, join, exists_, temp).message)
    ensures venvExists && ChooseScript(scriptPath, scriptContent, workDir, join, exists_, temp).UseScript? ==>
      r == Verdict(run(ScriptArgs(ChooseScript(scriptPath, scriptContent, workDir, join, exists_, temp).path, args),
                       ScriptTimeout(timeout)), duration, "脚本执行失败")
  {
    if !venvExists then Refused(NoVenvMessage)
    else match ChooseScript(scriptPath, scriptContent, workDir, join, exists_, temp)
      case NoScript(m) => Refused(m)
      case UseScript(p) => Verdict(run(ScriptArgs(p, args), ScriptTimeout(timeout)), duration, "脚本执行失败")
  }

  /**
   * RunCode: empty code is refused before the environment is looked at;
   * otherwise `python -c code args...` runs under the clamped timeout.
   */
  function RunCode(venvExists: bool, code: string, args: seq<string>, timeout: int,
                   run: (seq<string>, int) -> ProcessResult, duration: string): (r: RunResponse)
    ensures code == "" ==> r == Refused("code 参数是必需的")
    ensures code != "" && !venvExists ==> r == Refused(NoVenvMessage)
    ensures code != "" && venvExists ==>
      r == Verdict(run(CodeArgs(code, args), CodeTimeout(timeout)), duration, "代码执行失败")
  {
    if code == "" then Refused("code 参数是必需的")
    else if !venvExists then Refused(NoVenvMessage)
    else Verdict(run(CodeArgs(code, args), CodeTimeout(timeout)), duration, "代码执行失败")
  }

  /** A run that exits with status 0 is a success with no error message. */
  lemma CleanExitSucceeds(venvExists: bool, code: string, args: seq<string>, timeout: int,
                          run: (seq<string>, int) -> ProcessResult, duration: string)
    requires code != "" && venvExists
    requires run(CodeArgs(code, args), CodeTimeout(timeout)).err == NoError
    ensures RunCode(venvExists, code, args, timeout, run, duration).success
    ensures RunCode(venvExists, code, args, timeout, run, duration).errorMessage == ""
  {
  }

  // ---------------------------------------------------------------------
  // CheckSyntax

  /** SyntaxError: one problem the checking script reported. */
  datatype SyntaxError = SyntaxError(line: int, offset: int, message: string, text: string)

  /** CheckSyntaxResponse. */
  datatype SyntaxResponse = SyntaxResponse(valid: bool, errors: seq<SyntaxError>, errorMessage: string)

  /** The text is a decimal integer as strconv understands it: an optional sign and digits. */
  predicate IntSyntax(s: string) {
    var body := if |s| > 0 && (s[0] == '-' || s[0] == '+') then s[1..] else s;
    |body| > 0 && AllDigits(body)
  }

  /**
   * The value strconv.Atoi returns when its error is ignored: the number,
   * the nearest 64-bit bound when it is out of range, and 0 when the text
   * is not a number.
   */
  function AtoiValue(s: string): (v: int)
    ensures Int64Min <= v <= Int64Max
    ensures Atoi(s).Some? ==> v == Atoi(s).value
    ensures !IntSyntax(s) ==> v == 0
  {
    match Atoi(s)
    case Some(n) => n
    case None => if !IntSyntax(s) then 0 else if s[0] == '-' then Int64Min else Int64Max
  }

  const SyntaxErrorTag := "SYNTAX_ERROR:"
  const ErrorTag := "ERROR:"

  /**
   * One output line: a SYNTAX_ERROR line split into at most four fields
   * (it needs three), an ERROR line taken whole with line 0, nothing for
   * any other line.
   */
  function ParseLine(l: string): (r: Option<SyntaxError>)
    ensures r.Some? ==> HasPrefix(l, SyntaxErrorTag) || HasPrefix(l, ErrorTag)
    ensures !HasPrefix(l, SyntaxErrorTag) && HasPrefix(l, ErrorTag) ==>
      r == Some(SyntaxError(0, 0, l[|ErrorTag|..], ""))
    ensures HasPrefix(l, SyntaxErrorTag) ==>
      (r.Some? <==> |SplitN(l[|SyntaxErrorTag|..], ':', 4)| >= 3)
  {
    if HasPrefix(l, SyntaxErrorTag) then
      var parts := SplitN(l[|SyntaxErrorTag|..], ':', 4);
      if |parts| >= 3 then
        Some(SyntaxError(AtoiValue(parts[0]), AtoiValue(parts[1]), parts[2],
                         if |parts| >= 4 then parts[3] else ""))
      else None
    else if HasPrefix(l, ErrorTag) then Some(SyntaxError(0, 0, l[|ErrorTag|..], ""))
    else None
  }

  /** The errors of a list of lines, in order. */
  function ParsedErrors(ls: seq<string>): (r: seq<SyntaxError>)
    ensures |r| <= |ls|
  {
    if |ls| == 0 then []
    else
      var init := ParsedErrors(ls[..|ls| - 1]);
      match ParseLine(ls[|ls| - 1])
      case Some(e) => init + [e]
      case None => init
  }

  /** Every reported error comes from some line, and lines that parse to nothing add nothing. */
  lemma {:induction false} ParsedErrorsFromLines(ls: seq<string>)
    ensures forall e | e in ParsedErrors(ls) :: exists i | 0 <= i < |ls| :: ParseLine(ls[i]) == Some(e)
    ensures (forall i | 0 <= i < |ls| :: ParseLine(ls[i]).None?) ==> ParsedErrors(ls) == []
  {
    if |ls| > 0 {
      var init := ls[..|ls| - 1];
      ParsedErrorsFromLines(init);
      forall e | e in ParsedErrors(ls)
        ensures exists i | 0 <= i < |ls| :: ParseLine(ls[i]) == Some(e)
      {
        if e in ParsedErrors(init) {
          var i :| 0 <= i < |init| && ParseLine(init[i]) == Some(e);
          assert ls[i] == init[i];
        } else {
          assert ParseLine(ls[|ls| - 1]) == Some(e);
        }
      }
      if forall i | 0 <= i < |ls| :: ParseLine(ls[i]).None? {
        assert forall i | 0 <= i < |init| :: init[i] == ls[i];
      }
    }
  }

  /** The error-parsing loop over the lines of the trimmed output. */
  method ParseOutput(result: string) returns (errors: seq<SyntaxError>)
    ensures errors == ParsedErrors(Split(result, '\n'))
  {
    var ls := Split(result, '\n');
    errors := [];
    var i := 0;
    while i < |ls|
      invariant 0 <= i <= |ls|
      invariant errors == ParsedErrors(ls[..i])
    {
      assert ls[..i + 1][..i] == ls[..i];
      match ParseLine(ls[i]) {
        case Some(e) => errors := errors + [e];
        case None =>
      }
      i := i + 1;
    }
    assert ls[..i] == ls;
  }

  /**
   * CheckSyntax: nothing to check and a missing environment are refused
   * before anything runs; a failed run is reported with its output; SYNTAX_OK
   * is valid; any other output is invalid with the errors parsed from it.
   */
  method CheckSyntax(script: string, code: string, filepath: string, venvExists: bool, workDir: string,
                     join: (string, string) -> string, run: seq<string> -> ProcessResult)
    returns (r: SyntaxResponse)
    ensures code == "" && filepath == "" ==> r == SyntaxResponse(false, [], "code 和 filepath 必须提供其中一个")
    ensures (code != "" || filepath != "") && !venvExists ==> r == SyntaxResponse(false, [], NoVenvMessage)
    ensures (code != "" || filepath != "") && venvExists ==>
      r == Checked(run(CheckArgs(script, code, filepath, workDir, join)))
  {
    if code == "" && filepath == "" {
      return SyntaxResponse(false, [], "code 和 filepath 必须提供其中一个");
    }
    if !venvExists {
      return SyntaxResponse(false, [], NoVenvMessage);
    }
    var res := run(CheckArgs(script, code, filepath, workDir, join));
    var result := TrimSpace(res.output);
    if !res.err.NoError? {
      return SyntaxResponse(false, [], "语法检查失败: " + res.err.text + ", 输出: " + result);
    }
    if result == "SYNTAX_OK" {
      return SyntaxResponse(true, [], "");
    }
    var errors := ParseOutput(result);
    r := SyntaxResponse(false, errors, "");
  }

  /**
   * The checking script's arguments: the file (resolved) and "file", else
   * the code and "code". The script parses the code and prints SYNTAX_OK,
   * SYNTAX_ERROR:line:offset:message:text or ERROR:message.
   */
  function CheckArgs(script: string, code: string, filepath: string, workDir: string,
                     join: (string, string) -> string): (a: seq<string>)
    ensures |a| == 4 && a[0] == "-c" && a[1] == script
    ensures filepath != "" ==> a[2] == ResolvePath(workDir, filepath, join) && a[3] == "file"
    ensures filepath == "" ==> a[2] == code && a[3] == "code"
  {
    if filepath != "" then ["-c", script, ResolvePath(workDir, filepath, join), "file"]
    else ["-c", script, code, "code"]
  }

  /** The verdict on the checking script's run. */
  function Checked(res: ProcessResult): (r: SyntaxResponse)
    ensures r.valid <==> res.err.NoError? && TrimSpace(res.output) == "SYNTAX_OK"
    ensures r.errors != [] ==> res.err.NoError?
    ensures !res.err.NoError? ==> r.errorMessage == "语法检查失败: " + res.err.text + ", 输出: " + TrimSpace(res.output)
    ensures res.err.NoError? && TrimSpace(res.output) != "SYNTAX_OK" ==>
      r.errors == ParsedErrors(Split(TrimSpace(res.output), '\n'))
  {
    var result := TrimSpace(res.output);
    if !res.err.NoError? then SyntaxResponse(false, [], "语法检查失败: " + res.err.text + ", 输出: " + result)
    else if result == "SYNTAX_OK" then SyntaxResponse(true, [], "")
    else SyntaxResponse(false, ParsedErrors(Split(result, '\n')), "")
  }

  // ---------------------------------------------------------------------
  // Properties of the line parser

  /** A printed error line, regrouped from its last field outwards. */
  lemma ColonJoined(a: string, b: string, message: string, text: string)
    ensures a + ":" + b + ":" + message + ":" + text == a + [':'] + (b + [':'] + (message + [':'] + text))
  {
  }

  /** Three colon-free fields and a remainder are split apart at the first three colons. */
  lemma {:induction false} SplitFields(a: string, b: string, message: string, text: string)
    requires ':' !in a && ':' !in b && ':' !in message
    ensures SplitN(a + ":" + b + ":" + message + ":" + text, ':', 4) == [a, b, message, text]
  {
    var t3 := message + [':'] + text;
    var t2 := b + [':'] + t3;
    ColonJoined(a, b, message, text);
    SplitNAfter(message, ':', text, 2);
    assert SplitN(text, ':', 1) == [text];
    SplitNAfter(b, ':', t3, 3);
    SplitNAfter(a, ':', t2, 4);
  }

  /** A SYNTAX_ERROR line whose first three fields hold no colon is cut into exactly those fields. */
  lemma FieldsRead(a: string, b: string, message: string, text: string)
    requires ':' !in a && ':' !in b && ':' !in message
    ensures ParseLine(SyntaxErrorTag + a + ":" + b + ":" + message + ":" + text)
         == Some(SyntaxError(AtoiValue(a), AtoiValue(b), message, text))
  {
    var body := a + ":" + b + ":" + message + ":" + text;
    var l := SyntaxErrorTag + body;
    assert SyntaxErrorTag + a + ":" + b + ":" + message + ":" + text == l;
    assert l[..|SyntaxErrorTag|] == SyntaxErrorTag;
    assert l[|SyntaxErrorTag|..] == body;
    SplitFields(a, b, message, text);
  }

  /** The line the checking script prints for a syntax error is read back field by field. */
  lemma SyntaxErrorLineRoundTrip(line: int, offset: int, message: string, text: string)
    requires Int64Min <= line <= Int64Max && Int64Min <= offset <= Int64Max
    requires ':' !in message
    ensures ParseLine(SyntaxErrorTag + Itoa(line) + ":" + Itoa(offset) + ":" + message + ":" + text)
         == Some(SyntaxError(line, offset, message, text))
  {
    ItoaNoChar(line, ':');
    ItoaNoChar(offset, ':');
    FieldsRead(Itoa(line), Itoa(offset), message, text);
    AtoiItoa(line);
    AtoiItoa(offset);
  }

  /**
   * The fields are cut at the first three colons, so a message that holds
   * a colon loses its tail to the text field.
   */
  lemma ColonInMessageSplits(a: string, b: string, m1: string, m2: string, text: string)
    requires ':' !in a && ':' !in b && ':' !in m1
    ensures ParseLine(SyntaxErrorTag + a + ":" + b + ":" + m1 + ":" + m2 + ":" + text)
         == Some(SyntaxError(AtoiValue(a), AtoiValue(b), m1, m2 + ":" + text))
  {
    FieldsRead(a, b, m1, m2 + ":" + text);
    TailRegrouped(SyntaxErrorTag + a + ":" + b + ":" + m1 + ":", m2, text);
  }

  /** Regrouping the two last fields of a line. */
  lemma TailRegrouped(front: string, m2: string, text: string)
    ensures front + m2 + ":" + text == front + (m2 + ":" + text)
  {
  }

  /** A SYNTAX_ERROR line with fewer than three fields is dropped. */
  lemma ShortSyntaxErrorDropped(a: string, b: string)
    requires ':' !in a && ':' !in b
    ensures ParseLine(SyntaxErrorTag + a + ":" + b) == None
  {
    var l := SyntaxErrorTag + a + ":" + b;
    var body := a + [':'] + b;
    assert l == SyntaxErrorTag + body;
    assert l[..|SyntaxErrorTag|] == SyntaxErrorTag;
    assert l[|SyntaxErrorTag|..] == body;
    SplitNAfter(a, ':', b, 4);
    IndexCharSpec(b, ':');
  }

  /** Numbers the script could not print (None) become 0. */
  lemma NonNumericFieldsAreZero(message: string, text: string)
    requires ':' !in message
    ensures ParseLine(SyntaxErrorTag + "None:None:" + message + ":" + text)
         == Some(SyntaxError(0, 0, message, text))
  {
    assert SyntaxErrorTag + "None:None:" + message + ":" + text
        == SyntaxErrorTag + "None" + ":" + "None" + ":" + message + ":" + text;
    FieldsRead("None", "None", message, text);
    assert !IntSyntax("None") by { assert !IsDigit("None"[0]); }
  }

  /** An ERROR line gives an error at line 0 carrying the rest of the line. */
  lemma ErrorLineParsed(message: string)
    ensures ParseLine(ErrorTag + message) == Some(SyntaxError(0, 0, message, ""))
  {
    var l := ErrorTag + message;
    assert l[..|ErrorTag|] == ErrorTag;
    assert l[|ErrorTag|..] == message;
    assert l[0] == 'E';
  }

  /** Output that is one reportable line makes the check invalid with exactly that line's error. */
  lemma SingleLineReported(output: string, e: SyntaxError)
    requires '\n' !in TrimSpace(output) && TrimSpace(output) != "SYNTAX_OK"
    requires ParseLine(TrimSpace(output)) == Some(e)
    ensures Checked(ProcessResult(output, NoError)) == SyntaxResponse(false, [e], "")
  {
    var l := TrimSpace(output);
    IndexCharSpec(l, '\n');
    assert Split(l, '\n') == [l];
    var ls: seq<string> := [l];
    assert ls[..0] == [];
  }

  /** No field of a printed error line holds a newline, so neither does the line. */
  lemma NoNewlineInFields(a: string, b: string, message: string, text: string)
    requires '\n' !in a && '\n' !in b && '\n' !in message && '\n' !in text
    ensures '\n' !in SyntaxErrorTag + a + ":" + b + ":" + message + ":" + text
  {
    var sep := ":";
    assert '\n' !in SyntaxErrorTag by {
      forall k | 0 <= k < |SyntaxErrorTag| ensures SyntaxErrorTag[k] != '\n' { }
    }
    assert '\n' !in sep;
    assert SyntaxErrorTag + a + ":" + b + ":" + message + ":" + text
        == SyntaxErrorTag + a + sep + b + sep + message + sep + text;
  }

  /** One syntax-error line of output makes the check invalid with exactly that error. */
  lemma SingleSyntaxErrorReported(line: int, offset: int, message: string, text: string, output: string)
    requires Int64Min <= line <= Int64Max && Int64Min <= offset <= Int64Max
    requires ':' !in message && '\n' !in message && '\n' !in text
    requires TrimSpace(output) == SyntaxErrorTag + Itoa(line) + ":" + Itoa(offset) + ":" + message + ":" + text
    ensures Checked(ProcessResult(output, NoError)) == SyntaxResponse(false, [SyntaxError(line, offset, message, text)], "")
  {
    var a, b := Itoa(line), Itoa(offset);
    var l := TrimSpace(output);
    assert l == SyntaxErrorTag + a + ":" + b + ":" + message + ":" + text;
    SyntaxErrorLineRoundTrip(line, offset, message, text);
    ItoaNoChar(line, '\n');
    ItoaNoChar(offset, '\n');
    NoNewlineInFields(a, b, message, text);
    assert |l| > 9;
    SingleLineReported(output, SyntaxError(line, offset, message, text));
  }
}
