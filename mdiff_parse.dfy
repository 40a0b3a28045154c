/**
 * Parsing of unified diff text in the mdiff package (mdiff/parse.go).
 *
 * The text is split into lines and trailing empty lines are dropped. A
 * file diff starts at a `--- ` line directly followed by a `+++ ` line;
 * its hunks start at `@@` lines and run for as many lines as the header's
 * counts ask for. Lines outside these shapes are skipped. The only error
 * is a hunk header that does not parse.
 */
module MdiffParse {
  import opened GoStrings
  import opened MdiffDiff
  import opened MdiffHunks
  import opened Seqs

  datatype Result<T, E> = Ok(value: T) | Err(error: E)

  /** A range `start,count` read by parseRange. */
  datatype RangeResult = Range(start: int, count: int) | RangeErr(error: RangeError)

  /** The four numbers of a hunk header read by parseHunkHeader. */
  datatype HeaderResult =
    | Header(oldStart: int, oldLines: int, newStart: int, newLines: int)
    | HeaderErr(error: HeaderError)

  /**
   * A hunk read by parseHunk, with the index of the line after it; the
   * count of lines parseHunk reports as consumed is that index minus the
   * header's index.
   */
  datatype HunkResult = HunkOk(hunk: Hunk, end: int) | HunkErr(error: ParseError)

  /** The hunks of a file diff and the index of the line after them. */
  datatype HunksResult = HunksOk(hunks: seq<Hunk>, end: int) | HunksErr(error: ParseError)

  /**
   * A file diff read by parseOneFileDiff, with the index of the line after
   * it (the start index plus the count parseOneFileDiff reports as consumed).
   */
  datatype FileResult = FileOk(fd: FileDiff, end: int) | FileErr(error: ParseError)

  /** Which part of a `start,count` range failed strconv.Atoi. */
  datatype RangeError = BadStart | BadCount

  /** Why a hunk header was rejected. */
  datatype HeaderError = BadFormat | BadOldRange(range: RangeError) | BadNewRange(range: RangeError)

  /** Parse errors, with the 1-based line numbers the messages carry. */
  datatype ParseError =
    | UnexpectedEnd
    | InvalidHunkHeader(line: nat, cause: HeaderError)
    | AtLine(line: nat, inner: ParseError)

  // ---------------------------------------------------------------------
  // File names

  /** The file name of a `--- ` or `+++ ` line, up to a tab, as parseFileName writes it. */
  function NameField(line: string, prefix: string): string {
    var name := TrimPrefix(line, prefix);
    var idx := IndexChar(name, '\t');
    if idx >= 0 then name[..idx] else name
  }

  /** parseFileName as written: "a/" is removed, and then "b/" as well. */
  function ParseFileNameAsWritten(line: string, prefix: string): string {
    TrimPrefix(TrimPrefix(NameField(line, prefix), "a/"), "b/")
  }

  /** A name that starts with b/ under an a/ prefix loses both. */
  lemma {:induction false} ParseFileNameAsWrittenStripsTwice(prefix: string, name: string)
    requires '\t' !in name
    ensures ParseFileNameAsWritten(prefix + "a/b/" + name, prefix) == name
  {
    var line := prefix + "a/b/" + name;
    assert line[..|prefix|] == prefix;
    var field := TrimPrefix(line, prefix);
    assert field == "a/b/" + name;
    assert '\t' !in field;
    IndexCharSpec(field, '\t');
    assert NameField(line, prefix) == field;
    assert field[..2] == "a/";
    var rest := TrimPrefix(field, "a/");
    assert rest == "b/" + name;
    assert rest[..2] == "b/";
  }

  /** The input of the mdiff test for git prefixes: the as-written parse drops "b/" too. */
  lemma ParseFileNameAsWrittenConfig()
    ensures ParseFileNameAsWritten("--- a/b/config.go", "--- ") == "config.go"
  {
    assert "--- a/b/config.go" == "--- " + "a/b/" + "config.go";
    ParseFileNameAsWrittenStripsTwice("--- ", "config.go");
  }

  /** parseFileName as intended: one git prefix, "a/" or "b/", is removed. */
  function ParseFileName(line: string, prefix: string): string {
    var field := NameField(line, prefix);
    if HasPrefix(field, "a/") then field[2..] else TrimPrefix(field, "b/")
  }

  /** Exactly one git prefix comes off a name without a tab. */
  lemma {:induction false} ParseFileNameStripsOne(prefix: string, p: string, name: string)
    requires p == "a/" || p == "b/"
    requires '\t' !in name
    ensures ParseFileName(prefix + p + name, prefix) == name
  {
    var line := prefix + p + name;
    assert line[..|prefix|] == prefix;
    var field := TrimPrefix(line, prefix);
    assert field == p + name;
    assert '\t' !in field;
    IndexCharSpec(field, '\t');
    assert field[..2] == p;
  }

  /** The input of the mdiff test for git prefixes: one prefix comes off, as the test expects. */
  lemma ParseFileNameConfig()
    ensures ParseFileName("--- a/b/config.go", "--- ") == "b/config.go"
  {
    assert "--- a/b/config.go" == "--- " + "a/" + "b/config.go";
    ParseFileNameStripsOne("--- ", "a/", "b/config.go");
  }

  /** A name without prefix and tab comes back unchanged. */
  lemma {:induction false} ParseFileNamePlain(prefix: string, name: string)
    requires '\t' !in name && !HasPrefix(name, "a/") && !HasPrefix(name, "b/")
    ensures ParseFileName(prefix + name, prefix) == name
  {
    var line := prefix + name;
    assert line[..|prefix|] == prefix;
    assert TrimPrefix(line, prefix) == name;
    IndexCharSpec(name, '\t');
  }

  /** A timestamp after a tab is ignored. */
  lemma {:induction false} ParseFileNameTimestamp(prefix: string, name: string, stamp: string)
    requires '\t' !in name
    ensures ParseFileName(prefix + name + "\t" + stamp, prefix) == ParseFileName(prefix + name, prefix)
  {
    var line := prefix + name + "\t" + stamp;
    assert line[..|prefix|] == prefix;
    assert TrimPrefix(line, prefix) == name + "\t" + stamp;
    assert (prefix + name)[..|prefix|] == prefix;
    assert TrimPrefix(prefix + name, prefix) == name;
    var f := name + "\t" + stamp;
    IndexCharSpec(f, '\t');
    IndexCharSpec(name, '\t');
    assert f[|name|] == '\t';
    assert forall k :: 0 <= k < |name| ==> f[k] == name[k];
    assert IndexChar(f, '\t') == |name|;
    assert f[..|name|] == name;
  }

  // ---------------------------------------------------------------------
  // Hunk headers

  /** parseRange: `start,count`, or `start` alone with count 1. */
  function ParseRange(s: string): RangeResult {
    var parts := SplitTwo(s, ',');
    match Atoi(parts[0])
    case None => RangeErr(BadStart)
    case Some(start) =>
      if |parts| == 2 then
        match Atoi(parts[1])
        case None => RangeErr(BadCount)
        case Some(count) => Range(start, count)
      else Range(start, 1)
  }

  /** A range without a comma is a start alone, with count 1. */
  lemma {:induction false} ParseRangeNoComma(s: string)
    requires ',' !in s
    ensures ParseRange(s).Range? <==> Atoi(s).Some?
    ensures ParseRange(s).Range? ==> ParseRange(s) == Range(Atoi(s).value, 1)
  {
    SplitTwoSpec(s, ',');
  }

  predicate InInt64(n: int) {
    Int64Min <= n <= Int64Max
  }

  /** A written range parses back to its two numbers. */
  lemma {:induction false} ParseRangeItoa(a: int, b: int)
    requires InInt64(a) && InInt64(b)
    ensures ParseRange(Itoa(a) + "," + Itoa(b)) == Range(a, b)
  {
    var s := Itoa(a) + "," + Itoa(b);
    IndexCharSpec(s, ',');
    ItoaNoChar(a, ',');
    ItoaNoChar(b, ',');
    assert s[|Itoa(a)|] == ',';
    assert forall k :: 0 <= k < |Itoa(a)| ==> s[k] == Itoa(a)[k];
    assert IndexChar(s, ',') == |Itoa(a)|;
    assert s[..|Itoa(a)|] == Itoa(a);
    assert s[|Itoa(a)| + 1..] == Itoa(b);
    AtoiItoa(a);
    AtoiItoa(b);
  }

  function HeaderFields(header: string): string {
    var h := TrimPrefix(header, "@@");
    var idx := Index(h, "@@");
    TrimSpace(if idx >= 0 then h[..idx] else h)
  }

  /** parseHunkHeader: `@@ -a,b +c,d @@`, each range as parseRange reads it. */
  function ParseHunkHeader(header: string): HeaderResult {
    var parts := SplitTwo(HeaderFields(header), ' ');
    if |parts| != 2 then HeaderErr(BadFormat)
    else
      match ParseRange(TrimPrefix(parts[0], "-"))
      case RangeErr(e) => HeaderErr(BadOldRange(e))
      case Range(oldStart, oldLines) =>
        match ParseRange(TrimPrefix(parts[1], "+"))
        case RangeErr(e) => HeaderErr(BadNewRange(e))
        case Range(newStart, newLines) => Header(oldStart, oldLines, newStart, newLines)
  }

  // ---------------------------------------------------------------------
  // Hunk bodies

  function Prepend(l: DiffLine, r: (seq<DiffLine>, int)): (seq<DiffLine>, int) {
    ([l] + r.0, r.1)
  }

  /**
   * The body loop of parseHunk from line i with the counts still expected:
   * the diff lines read and the index of the first line not consumed.
   */
  function HunkBody(lines: seq<string>, i: nat, oldRem: int, newRem: int): (r: (seq<DiffLine>, int))
    requires i <= |lines|
    ensures i <= r.1 <= |lines|
    decreases |lines| - i
  {
    if i == |lines| || !(oldRem > 0 || newRem > 0) then ([], i)
    else
      var line := lines[i];
      if |line| == 0 then
        if oldRem > 0 && newRem > 0 then
          Prepend(DiffLine(Equal, ""), HunkBody(lines, i + 1, oldRem - 1, newRem - 1))
        else ([], i)
      else if line[0] == ' ' then
        Prepend(DiffLine(Equal, line[1..]), HunkBody(lines, i + 1, oldRem - 1, newRem - 1))
      else if line[0] == '-' then
        Prepend(DiffLine(Delete, line[1..]), HunkBody(lines, i + 1, oldRem - 1, newRem))
      else if line[0] == '+' then
        Prepend(DiffLine(Insert, line[1..]), HunkBody(lines, i + 1, oldRem, newRem - 1))
      else if line[0] == '\\' then
        HunkBody(lines, i + 1, oldRem, newRem)
      else ([], i)
  }

  /** parseHunk at line `start`: the hunk and the index of the line after it. */
  function ParseHunkAt(lines: seq<string>, start: nat): (r: HunkResult)
    requires start < |lines|
    ensures r.HunkOk? ==> start < r.end <= |lines|
  {
    match ParseHunkHeader(lines[start])
    case HeaderErr(e) => HunkErr(InvalidHunkHeader(start + 1, e))
    case Header(oldStart, oldLines, newStart, newLines) =>
      var body := HunkBody(lines, start + 1, oldLines, newLines);
      HunkOk(Hunk(oldStart, oldLines, newStart, newLines, body.0), body.1)
  }

  // ---------------------------------------------------------------------
  // File diffs

  /** Lines i and i+1 open a file diff. */
  predicate StartsFile(lines: seq<string>, i: nat)
    requires i < |lines|
  {
    HasPrefix(lines[i], "--- ") && i + 1 < |lines| && HasPrefix(lines[i + 1], "+++ ")
  }

  function PrependHunk(h: Hunk, r: HunksResult): HunksResult {
    match r
    case HunksErr(e) => HunksErr(e)
    case HunksOk(hs, end) => HunksOk([h] + hs, end)
  }

  /** The hunk loop of parseOneFileDiff from line i: the hunks and where the file diff ends. */
  function FileBody(lines: seq<string>, i: nat): (r: HunksResult)
    requires i <= |lines|
    ensures r.HunksOk? ==> i <= r.end <= |lines|
    decreases |lines| - i
  {
    if i == |lines| || StartsFile(lines, i) then HunksOk([], i)
    else if !HasPrefix(lines[i], "@@") then FileBody(lines, i + 1)
    else
      match ParseHunkAt(lines, i)
      case HunkErr(e) => HunksErr(e)
      case HunkOk(h, end) => PrependHunk(h, FileBody(lines, end))
  }

  /** parseOneFileDiff at line `start`: the file diff and the index of the line after it. */
  function ParseOneAt(lines: seq<string>, start: nat): (r: FileResult)
    requires start <= |lines|
    ensures r.FileOk? ==> start + 2 <= r.end <= |lines|
  {
    if start + 1 >= |lines| then FileErr(UnexpectedEnd)
    else
      var oldName := ParseFileName(lines[start], "--- ");
      var newName := ParseFileName(lines[start + 1], "+++ ");
      match FileBody(lines, start + 2)
      case HunksErr(e) => FileErr(e)
      case HunksOk(hunks, end) => FileOk(FileDiff(oldName, newName, hunks), end)
  }

  function PrependFile(fd: FileDiff, r: Result<seq<FileDiff>, ParseError>): Result<seq<FileDiff>, ParseError> {
    match r
    case Err(e) => Err(e)
    case Ok(fs) => Ok([fd] + fs)
  }

  /** The file loop of ParseMultiFileDiff from line i. */
  function FilesFrom(lines: seq<string>, i: nat): Result<seq<FileDiff>, ParseError>
    requires i <= |lines|
    decreases |lines| - i
  {
    if i == |lines| then Ok([])
    else if TrimSpace(lines[i]) == "" || !StartsFile(lines, i) then FilesFrom(lines, i + 1)
    else
      match ParseOneAt(lines, i)
      case FileErr(e) => Err(AtLine(i + 1, e))
      case FileOk(fd, end) => PrependFile(fd, FilesFrom(lines, end))
  }

  /** The lines without the trailing empty ones. */
  function DropTrailingEmpty(ls: seq<string>): (r: seq<string>)
    ensures |r| <= |ls| && r == ls[..|r|]
    ensures |r| == 0 || r[|r| - 1] != ""
    ensures forall k :: |r| <= k < |ls| ==> ls[k] == ""
  {
    if |ls| > 0 && ls[|ls| - 1] == "" then DropTrailingEmpty(ls[..|ls| - 1]) else ls
  }

  /** The lines ParseMultiFileDiff works on. */
  function TextLines(text: string): seq<string> {
    DropTrailingEmpty(Split(text, '\n'))
  }

  /** ParseMultiFileDiff */
  function ParseMulti(text: string): Result<MultiFileDiff, ParseError> {
    if TrimSpace(text) == "" then Ok(MultiFileDiff([]))
    else
      match FilesFrom(TextLines(text), 0)
      case Err(e) => Err(e)
      case Ok(fs) => Ok(MultiFileDiff(fs))
  }

  /** ParseFileDiff: the first file diff, or an empty one when there is none. */
  function ParseFile(text: string): Result<FileDiff, ParseError> {
    match ParseMulti(text)
    case Err(e) => Err(e)
    case Ok(m) => if |m.files| == 0 then Ok(FileDiff("", "", [])) else Ok(m.files[0])
  }

  // ---------------------------------------------------------------------
  // The parsing loops

  function Extend(acc: seq<DiffLine>, b: (seq<DiffLine>, int)): (seq<DiffLine>, int) {
    (acc + b.0, b.1)
  }

  /** One step of the body loop of parseHunk: the line read is appended. */
  lemma {:induction false} ExtendStep(acc: seq<DiffLine>, l: DiffLine, b: (seq<DiffLine>, int))
    ensures Extend(acc + [l], b) == Extend(acc, Prepend(l, b))
  {
    AppendAssoc(acc, [l], b.0);
  }

  lemma {:induction false} ExtendNil(b: (seq<DiffLine>, int))
    ensures Extend([], b) == b
  {
    assert [] + b.0 == b.0;
  }

  /** The body loop of parseHunk from line i with the header's two counts. */
  method ReadHunkBody(lines: seq<string>, first: nat, oldLines: int, newLines: int)
    returns (hunkLines: seq<DiffLine>, i: int)
    requires first <= |lines|
    ensures hunkLines == HunkBody(lines, first, oldLines, newLines).0
    ensures i == HunkBody(lines, first, oldLines, newLines).1
  {
    hunkLines := [];
    i := first;
    var oldRemaining, newRemaining := oldLines, newLines;
    ExtendNil(HunkBody(lines, first, oldLines, newLines));
    while i < |lines| && (oldRemaining > 0 || newRemaining > 0)
      invariant first <= i <= |lines|
      invariant Extend(hunkLines, HunkBody(lines, i, oldRemaining, newRemaining))
             == HunkBody(lines, first, oldLines, newLines)
      decreases |lines| - i
    {
      var line := lines[i];
      if |line| == 0 {
        if oldRemaining > 0 && newRemaining > 0 {
          ExtendStep(hunkLines, DiffLine(Equal, ""), HunkBody(lines, i + 1, oldRemaining - 1, newRemaining - 1));
          hunkLines := hunkLines + [DiffLine(Equal, "")];
          oldRemaining, newRemaining := oldRemaining - 1, newRemaining - 1;
          i := i + 1;
          continue;
        }
        break;
      }
      var prefix := line[0];
      var content := line[1..];
      var done := false;
      if prefix == ' ' {
        ExtendStep(hunkLines, DiffLine(Equal, content), HunkBody(lines, i + 1, oldRemaining - 1, newRemaining - 1));
        hunkLines := hunkLines + [DiffLine(Equal, content)];
        oldRemaining, newRemaining := oldRemaining - 1, newRemaining - 1;
      } else if prefix == '-' {
        ExtendStep(hunkLines, DiffLine(Delete, content), HunkBody(lines, i + 1, oldRemaining - 1, newRemaining));
        hunkLines := hunkLines + [DiffLine(Delete, content)];
        oldRemaining := oldRemaining - 1;
      } else if prefix == '+' {
        ExtendStep(hunkLines, DiffLine(Insert, content), HunkBody(lines, i + 1, oldRemaining, newRemaining - 1));
        hunkLines := hunkLines + [DiffLine(Insert, content)];
        newRemaining := newRemaining - 1;
      } else if prefix == '\\' {
        i := i + 1;
        continue;
      } else {
        done := true;
      }
      if done {
        break;
      }
      i := i + 1;
    }
    assert hunkLines + [] == hunkLines;
  }

  lemma {:induction false} HunkAtOk(lines: seq<string>, start: nat, v: HeaderResult,
                                    hunkLines: seq<DiffLine>, i: int)
    requires start < |lines| && ParseHunkHeader(lines[start]) == v && v.Header?
    requires hunkLines == HunkBody(lines, start + 1, v.oldLines, v.newLines).0
    requires i == HunkBody(lines, start + 1, v.oldLines, v.newLines).1
    ensures ParseHunkAt(lines, start) == HunkOk(Hunk(v.oldStart, v.oldLines, v.newStart, v.newLines, hunkLines), i)
  {
  }

  /** parseHunk */
  method ParseHunk(lines: seq<string>, start: nat) returns (r: HunkResult)
    requires start < |lines|
    ensures r == ParseHunkAt(lines, start)
  {
    var hd := ParseHunkHeader(lines[start]);
    if hd.HeaderErr? {
      return HunkErr(InvalidHunkHeader(start + 1, hd.error));
    }
    var hunkLines, i := ReadHunkBody(lines, start + 1, hd.oldLines, hd.newLines);
    HunkAtOk(lines, start, hd, hunkLines, i);
    return HunkOk(Hunk(hd.oldStart, hd.oldLines, hd.newStart, hd.newLines, hunkLines), i);
  }

  function AddHunks(hs: seq<Hunk>, r: HunksResult): HunksResult {
    match r
    case HunksErr(e) => HunksErr(e)
    case HunksOk(rest, end) => HunksOk(hs + rest, end)
  }

  lemma {:induction false} AddHunksStep(hs: seq<Hunk>, h: Hunk, r: HunksResult)
    ensures AddHunks(hs + [h], r) == AddHunks(hs, PrependHunk(h, r))
  {
    if r.HunksOk? {
      AppendAssoc(hs, [h], r.hunks);
    }
  }

  /** A hunk read at line i is the first of the hunks from i on. */
  lemma {:induction false} FileBodyStep(lines: seq<string>, i: nat)
    requires i < |lines| && !StartsFile(lines, i) && HasPrefix(lines[i], "@@")
    requires ParseHunkAt(lines, i).HunkOk?
    ensures FileBody(lines, i) == PrependHunk(ParseHunkAt(lines, i).hunk, FileBody(lines, ParseHunkAt(lines, i).end))
  {
  }

  /** One hunk read by the loop of parseOneFileDiff keeps its invariant. */
  lemma {:induction false} HunkLoopStep(lines: seq<string>, i: nat, hunks: seq<Hunk>, body: HunksResult, res: HunkResult)
    requires i < |lines| && !StartsFile(lines, i) && HasPrefix(lines[i], "@@")
    requires res == ParseHunkAt(lines, i) && res.HunkOk?
    requires AddHunks(hunks, FileBody(lines, i)) == body
    ensures AddHunks(hunks + [res.hunk], FileBody(lines, res.end)) == body
  {
    FileBodyStep(lines, i);
    AddHunksStep(hunks, res.hunk, FileBody(lines, res.end));
  }

  /** Lines before a hunk header are skipped. */
  lemma {:induction false} FileBodySkip(lines: seq<string>, i: nat)
    requires i < |lines| && !StartsFile(lines, i) && !HasPrefix(lines[i], "@@")
    ensures FileBody(lines, i) == FileBody(lines, i + 1)
  {
  }

  /** The hunks end at the end of the text or where the next file diff opens. */
  lemma {:induction false} FileBodyEnd(lines: seq<string>, i: nat)
    requires i <= |lines| && (i == |lines| || StartsFile(lines, i))
    ensures FileBody(lines, i) == HunksOk([], i)
  {
  }

  lemma {:induction false} FileBodyErr(lines: seq<string>, i: nat, e: ParseError)
    requires i < |lines| && !StartsFile(lines, i) && HasPrefix(lines[i], "@@")
    requires ParseHunkAt(lines, i) == HunkErr(e)
    ensures FileBody(lines, i) == HunksErr(e)
  {
  }

  /** One parseHunk call of the hunk loop, with what it means for the loop's invariant. */
  method ReadHunkAt(lines: seq<string>, i: nat, ghost hunks: seq<Hunk>, ghost body: HunksResult)
    returns (res: HunkResult)
    requires i < |lines| && !StartsFile(lines, i) && HasPrefix(lines[i], "@@")
    requires AddHunks(hunks, FileBody(lines, i)) == body
    ensures res.HunkErr? ==> body == HunksErr(res.error)
    ensures res.HunkOk? ==> i < res.end <= |lines|
    ensures res.HunkOk? ==> AddHunks(hunks + [res.hunk], FileBody(lines, res.end)) == body
  {
    res := ParseHunk(lines, i);
    if res.HunkErr? {
      FileBodyErr(lines, i, res.error);
    } else {
      HunkLoopStep(lines, i, hunks, body, res);
    }
  }

  /** The hunk loop of parseOneFileDiff, from line `first`. */
  method ReadHunks(lines: seq<string>, first: nat) returns (r: HunksResult)
    requires first <= |lines|
    ensures r == FileBody(lines, first)
  {
    var hunks: seq<Hunk> := [];
    var i := first;
    ghost var body := FileBody(lines, first);
    assert AddHunks(hunks, FileBody(lines, i)) == body by {
      if body.HunksOk? {
        assert [] + body.hunks == body.hunks;
      }
    }
    while i < |lines|
      invariant first <= i <= |lines|
      invariant AddHunks(hunks, FileBody(lines, i)) == body
      decreases |lines| - i
    {
      if HasPrefix(lines[i], "--- ") && i + 1 < |lines| && HasPrefix(lines[i + 1], "+++ ") {
        break;
      }
      if !HasPrefix(lines[i], "@@") {
        FileBodySkip(lines, i);
        i := i + 1;
        continue;
      }
      var res := ReadHunkAt(lines, i, hunks, body);
      if res.HunkErr? {
        return HunksErr(res.error);
      }
      hunks := hunks + [res.hunk];
      i := res.end;
    }
    FileBodyEnd(lines, i);
    assert hunks + [] == hunks;
    return HunksOk(hunks, i);
  }

  /** parseOneFileDiff */
  method ParseOneFileDiff(lines: seq<string>, start: nat) returns (r: FileResult)
    requires start <= |lines|
    ensures r == ParseOneAt(lines, start)
  {
    if start + 1 >= |lines| {
      return FileErr(UnexpectedEnd);
    }
    var oldName := ParseFileName(lines[start], "--- ");
    var newName := ParseFileName(lines[start + 1], "+++ ");
    var body := ReadHunks(lines, start + 2);
    if body.HunksErr? {
      return FileErr(body.error);
    }
    return FileOk(FileDiff(oldName, newName, body.hunks), body.end);
  }

  function AddFiles(fs: seq<FileDiff>, r: Result<seq<FileDiff>, ParseError>): Result<seq<FileDiff>, ParseError> {
    match r
    case Err(e) => Err(e)
    case Ok(v) => Ok(fs + v)
  }

  lemma {:induction false} AddFilesStep(fs: seq<FileDiff>, fd: FileDiff, r: Result<seq<FileDiff>, ParseError>)
    ensures AddFiles(fs + [fd], r) == AddFiles(fs, PrependFile(fd, r))
  {
    if r.Ok? {
      AppendAssoc(fs, [fd], r.value);
    }
  }

  /** ParseMultiFileDiff */
  method ParseMultiFileDiff(text: string) returns (r: Result<MultiFileDiff, ParseError>)
    ensures r == ParseMulti(text)
  {
    if TrimSpace(text) == "" {
      return Ok(MultiFileDiff([]));
    }
    var lines := Split(text, '\n');
    while |lines| > 0 && lines[|lines| - 1] == ""
      invariant DropTrailingEmpty(lines) == TextLines(text)
    {
      lines := lines[..|lines| - 1];
    }
    var files := ReadFiles(lines);
    if files.Err? {
      return Err(files.error);
    }
    return Ok(MultiFileDiff(files.value));
  }

  /** One parseOneFileDiff call of the file loop, with what it means for the loop's invariant. */
  method ReadFileAt(lines: seq<string>, i: nat, ghost files: seq<FileDiff>, ghost all: Result<seq<FileDiff>, ParseError>)
    returns (res: FileResult)
    requires i < |lines| && TrimSpace(lines[i]) != "" && StartsFile(lines, i)
    requires AddFiles(files, FilesFrom(lines, i)) == all
    ensures res.FileErr? ==> all == Err(AtLine(i + 1, res.error))
    ensures res.FileOk? ==> i + 2 <= res.end <= |lines|
    ensures res.FileOk? ==> AddFiles(files + [res.fd], FilesFrom(lines, res.end)) == all
  {
    res := ParseOneFileDiff(lines, i);
    if res.FileErr? {
      FilesFromErr(lines, i);
    } else {
      FileLoopStep(lines, i, files, all, res);
    }
  }

  /** The file loop of ParseMultiFileDiff. */
  method ReadFiles(lines: seq<string>) returns (r: Result<seq<FileDiff>, ParseError>)
    ensures r == FilesFrom(lines, 0)
  {
    var files: seq<FileDiff> := [];
    var i := 0;
    ghost var all := FilesFrom(lines, 0);
    assert AddFiles(files, FilesFrom(lines, 0)) == all by {
      if all.Ok? {
        assert [] + all.value == all.value;
      }
    }
    while i < |lines|
      invariant 0 <= i <= |lines|
      invariant AddFiles(files, FilesFrom(lines, i)) == all
      decreases |lines| - i
    {
      if TrimSpace(lines[i]) == "" {
        FilesFromSkip(lines, i);
        i := i + 1;
        continue;
      }
      if !HasPrefix(lines[i], "--- ") {
        FilesFromSkip(lines, i);
        i := i + 1;
        continue;
      }
      if i + 1 >= |lines| || !HasPrefix(lines[i + 1], "+++ ") {
        FilesFromSkip(lines, i);
        i := i + 1;
        continue;
      }
      var res := ReadFileAt(lines, i, files, all);
      if res.FileErr? {
        return Err(AtLine(i + 1, res.error));
      }
      files := files + [res.fd];
      i := res.end;
    }
    assert files + [] == files;
    return Ok(files);
  }

  /** Blank lines and lines that do not open a file diff are skipped. */
  lemma {:induction false} FilesFromSkip(lines: seq<string>, i: nat)
    requires i < |lines| && (TrimSpace(lines[i]) == "" || !StartsFile(lines, i))
    ensures FilesFrom(lines, i) == FilesFrom(lines, i + 1)
  {
  }

  /** A file diff that fails to parse fails the whole text, at its line. */
  lemma {:induction false} FilesFromErr(lines: seq<string>, i: nat)
    requires i < |lines| && TrimSpace(lines[i]) != "" && StartsFile(lines, i)
    requires ParseOneAt(lines, i).FileErr?
    ensures FilesFrom(lines, i) == Err(AtLine(i + 1, ParseOneAt(lines, i).error))
  {
  }

  /** One file diff read by the loop of ParseMultiFileDiff keeps its invariant. */
  lemma {:induction false} FileLoopStep(lines: seq<string>, i: nat, files: seq<FileDiff>,
                                        all: Result<seq<FileDiff>, ParseError>, res: FileResult)
    requires i < |lines| && TrimSpace(lines[i]) != "" && StartsFile(lines, i)
    requires res == ParseOneAt(lines, i) && res.FileOk?
    requires AddFiles(files, FilesFrom(lines, i)) == all
    ensures AddFiles(files + [res.fd], FilesFrom(lines, res.end)) == all
  {
    assert FilesFrom(lines, i) == PrependFile(res.fd, FilesFrom(lines, res.end));
    AddFilesStep(files, res.fd, FilesFrom(lines, res.end));
  }


  /** ParseFileDiff */
  method ParseFileDiff(text: string) returns (r: Result<FileDiff, ParseError>)
    ensures r == ParseFile(text)
  {
    var mfd := ParseMultiFileDiff(text);
    if mfd.Err? {
      return Err(mfd.error);
    }
    if |mfd.value.files| == 0 {
      return Ok(FileDiff("", "", []));
    }
    return Ok(mfd.value.files[0]);
  }
}
