/**
 * server/handler/history.go: the chat-history file endpoints. The history
 * directory is a value, a map from file names to contents. Decoding the
 * stored JSON and the failures of the operating system's calls are
 * parameters.
 * Status codes are the HTTP codes the handlers answer with.
 */
module ServerHistory {
  import opened GoStrings

  const HistoryPrefix := "fkteams_chat_history_"

  /** extractSessionID: the name without the history prefix and without an extension after its first character. */
  function ExtractSessionID(filename: string): (r: string)
    ensures !HasPrefix(filename, HistoryPrefix) ==> r == filename
    ensures HasPrefix(filename, HistoryPrefix) ==>
      var rest := filename[|HistoryPrefix|..];
      r == rest || (|r| > 0 && exists ext :: rest == r + "." + ext && '.' !in ext)
  {
    if HasPrefix(filename, HistoryPrefix) then
      var sid := filename[|HistoryPrefix|..];
      var idx := LastIndexChar(sid, '.');
      if idx > 0 then
        LastIndexCharSpec(sid, '.');
        assert sid == sid[..idx] + "." + sid[idx + 1..];
        var ext := sid[idx + 1..];
        assert '.' !in ext by {
          forall k | 0 <= k < |ext| ensures ext[k] != '.' {
            assert ext[k] == sid[idx + 1 + k];
          }
        }
        sid[..idx]
      else sid
    else filename
  }

  /** A saved session file `prefix + id + ext` gives back its id. */
  lemma SessionIDOfSavedFile(sid: string, ext: string)
    requires |sid| > 0 && '.' !in ext
    ensures ExtractSessionID(HistoryPrefix + sid + "." + ext) == sid
  {
    var f := HistoryPrefix + sid + "." + ext;
    assert f[..|HistoryPrefix|] == HistoryPrefix;
    var rest := f[|HistoryPrefix|..];
    assert rest == sid + "." + ext;
    var i := LastIndexChar(rest, '.');
    LastIndexCharSpec(rest, '.');
    assert rest[|sid|] == '.';
    assert forall k :: |sid| < k < |rest| ==> rest[k] == ext[k - |sid| - 1];
    assert i == |sid|;
    assert rest[..i] == sid;
  }

  /** A file name without any dot gives the whole remainder after the prefix. */
  lemma SessionIDWithoutExtension(sid: string)
    requires '.' !in sid
    ensures ExtractSessionID(HistoryPrefix + sid) == sid
  {
    var f := HistoryPrefix + sid;
    assert f[..|HistoryPrefix|] == HistoryPrefix;
    assert f[|HistoryPrefix|..] == sid;
    LastIndexCharSpec(sid, '.');
  }

  /** A calendar time with the fields of the layout 20060102_150405. */
  datatype Stamp = Stamp(year: int, month: int, day: int, hour: int, minute: int, second: int)

  predicate IsLeap(y: int) {
    y % 4 == 0 && (y % 100 != 0 || y % 400 == 0)
  }

  function DaysIn(month: int, year: int): int {
    if month == 2 then (if IsLeap(year) then 29 else 28)
    else if month == 4 || month == 6 || month == 9 || month == 11 then 30
    else 31
  }

  /** The ranges time.Parse enforces. */
  predicate ValidStamp(st: Stamp) {
    0 <= st.year <= 9999 && 1 <= st.month <= 12 && 1 <= st.day <= DaysIn(st.month, st.year)
    && 0 <= st.hour < 24 && 0 <= st.minute < 60 && 0 <= st.second < 60
  }

  function Digits(s: string, i: nat, n: nat): (v: Option<int>)
    requires i + n <= |s|
    ensures v.Some? ==> 0 <= v.value
    decreases n
  {
    if n == 0 then Some(0)
    else if !IsDigit(s[i + n - 1]) then None
    else match Digits(s, i, n - 1)
      case None => None
      case Some(hi) => Some(hi * 10 + DigitValue(s[i + n - 1]))
  }

  /** time.Parse("20060102_150405", s). */
  function ParseStamp(s: string): (r: Option<Stamp>)
    ensures r.Some? ==> ValidStamp(r.value) && |s| == 15
  {
    if |s| != 15 || s[8] != '_' then None
    else
      var y := Digits(s, 0, 4);
      var mo := Digits(s, 4, 2);
      var d := Digits(s, 6, 2);
      var h := Digits(s, 9, 2);
      var mi := Digits(s, 11, 2);
      var se := Digits(s, 13, 2);
      if y.None? || mo.None? || d.None? || h.None? || mi.None? || se.None? then None
      else
        var st := Stamp(y.value, mo.value, d.value, h.value, mi.value, se.value);
        if ValidStamp(st) then Some(st) else None
  }

  /** Two decimal digits, zero padded. */
  function Pad2(n: int): string
    requires 0 <= n < 100
  {
    [DigitChar(n / 10), DigitChar(n % 10)]
  }

  function Pad4(n: int): string
    requires 0 <= n < 10000
  {
    Pad2(n / 100) + Pad2(n % 100)
  }

  /** The session id of a stamp, in the layout 20060102_150405. */
  function StampID(st: Stamp): string
    requires ValidStamp(st)
  {
    Pad4(st.year) + Pad2(st.month) + Pad2(st.day) + "_" + Pad2(st.hour) + Pad2(st.minute) + Pad2(st.second)
  }

  /** The display form 2006-01-02 15:04:05. */
  function StampDisplay(st: Stamp): string
    requires ValidStamp(st)
  {
    Pad4(st.year) + "-" + Pad2(st.month) + "-" + Pad2(st.day) + " "
    + Pad2(st.hour) + ":" + Pad2(st.minute) + ":" + Pad2(st.second)
  }

  /** formatDisplayName: a time-stamp session id in display form, any other id as it is. */
  function FormatDisplayName(filename: string): (r: string)
    ensures ParseStamp(ExtractSessionID(filename)).None? ==> r == ExtractSessionID(filename)
    ensures ParseStamp(ExtractSessionID(filename)).Some? ==> r == StampDisplay(ParseStamp(ExtractSessionID(filename)).value)
  {
    var sid := ExtractSessionID(filename);
    if |sid| == 15 && sid[8] == '_' then
      match ParseStamp(sid)
      case Some(st) => StampDisplay(st)
      case None => sid
    else sid
  }

  lemma Pad2Digits(s: string, i: nat, n: int)
    requires 0 <= n < 100 && i + 2 <= |s| && s[i..i + 2] == Pad2(n)
    ensures Digits(s, i, 2) == Some(n)
  {
    assert s[i] == DigitChar(n / 10) && s[i + 1] == DigitChar(n % 10);
    DigitCharValue(n / 10);
    DigitCharValue(n % 10);
    assert Digits(s, i, 1) == Some(n / 10);
  }

  lemma DigitCharValue(d: nat)
    requires d < 10
    ensures IsDigit(DigitChar(d)) && DigitValue(DigitChar(d)) == d
  {
  }

  lemma Pad4Digits(s: string, i: nat, n: int)
    requires 0 <= n < 10000 && i + 4 <= |s| && s[i..i + 4] == Pad4(n)
    ensures Digits(s, i, 4) == Some(n)
  {
    assert s[i..i + 2] == s[i..i + 4][..2];
    assert s[i + 2..i + 4] == s[i..i + 4][2..];
    Pad2Digits(s, i, n / 100);
    Pad2Digits(s, i + 2, n % 100);
    DigitsSplit(s, i, n / 100, n % 100);
  }

  lemma DigitsSplit(s: string, i: nat, hi: int, lo: int)
    requires i + 4 <= |s| && Digits(s, i, 2) == Some(hi) && Digits(s, i + 2, 2) == Some(lo)
    ensures Digits(s, i, 4) == Some(hi * 100 + lo)
  {
    assert Digits(s, i + 2, 1) == Some(DigitValue(s[i + 2]));
    assert Digits(s, i, 3) == Some(hi * 10 + DigitValue(s[i + 2]));
  }

  /** Every valid stamp id parses back to its stamp, and is displayed as the stamp's display form. */
  lemma StampRoundTrip(st: Stamp)
    requires ValidStamp(st)
    ensures ParseStamp(StampID(st)) == Some(st)
    ensures FormatDisplayName(HistoryPrefix + StampID(st)) == StampDisplay(st)
  {
    var s := StampID(st);
    StampFields(st);
    assert '.' !in s by {
      StampIDDigits(st);
    }
    SessionIDWithoutExtension(s);
  }

  /** The six digit fields of a stamp id read back as the stamp's fields. */
  lemma StampFields(st: Stamp)
    requires ValidStamp(st)
    ensures var s := StampID(st);
            |s| == 15 && s[8] == '_'
            && Digits(s, 0, 4) == Some(st.year) && Digits(s, 4, 2) == Some(st.month)
            && Digits(s, 6, 2) == Some(st.day) && Digits(s, 9, 2) == Some(st.hour)
            && Digits(s, 11, 2) == Some(st.minute) && Digits(s, 13, 2) == Some(st.second)
  {
    var s := StampID(st);
    var date := Pad4(st.year) + Pad2(st.month) + Pad2(st.day);
    var time := Pad2(st.hour) + Pad2(st.minute) + Pad2(st.second);
    assert s == date + "_" + time;
    assert |date| == 8 && |time| == 6;
    assert s[..8] == date && s[9..] == time;
    Pad4Digits(s, 0, st.year);
    assert s[4..6] == Pad2(st.month);
    Pad2Digits(s, 4, st.month);
    assert s[6..8] == Pad2(st.day);
    Pad2Digits(s, 6, st.day);
    assert s[9..11] == Pad2(st.hour);
    Pad2Digits(s, 9, st.hour);
    assert s[11..13] == Pad2(st.minute);
    Pad2Digits(s, 11, st.minute);
    assert s[13..15] == Pad2(st.second);
    Pad2Digits(s, 13, st.second);
  }

  /** A stamp id is digits apart from the underscore. */
  lemma StampIDDigits(st: Stamp)
    requires ValidStamp(st)
    ensures forall k | 0 <= k < |StampID(st)| :: StampID(st)[k] == '_' || IsDigit(StampID(st)[k])
  {
    var s := StampID(st);
    DigitCharsAreDigits(st.year / 100 / 10);
    DigitCharsAreDigits(st.year / 100 % 10);
    DigitCharsAreDigits(st.year % 100 / 10);
    DigitCharsAreDigits(st.year % 100 % 10);
    DigitCharsAreDigits(st.month / 10);
    DigitCharsAreDigits(st.month % 10);
    DigitCharsAreDigits(st.day / 10);
    DigitCharsAreDigits(st.day % 10);
    DigitCharsAreDigits(st.hour / 10);
    DigitCharsAreDigits(st.hour % 10);
    DigitCharsAreDigits(st.minute / 10);
    DigitCharsAreDigits(st.minute % 10);
    DigitCharsAreDigits(st.second / 10);
    DigitCharsAreDigits(st.second % 10);
  }

  lemma DigitCharsAreDigits(d: int)
    requires 0 <= d < 10
    ensures IsDigit(DigitChar(d))
  {
    DigitCharValue(d);
  }

  /** The name check of load, delete and rename: no `..` and no `/`. */
  predicate SafeName(filename: string) {
    !Contains(filename, "..") && '/' !in filename
  }

  /** A history directory: file name to contents. */
  type Dir = map<string, string>

  datatype LoadResponse =
    | LoadError(status: int)
    | Loaded(filename: string, sessionID: string, data: string)

  /**
   * The name "." passes the name check and joins to the history directory
   * itself, which exists but is not a file.
   */
  const DirItself := "."

  /**
   * LoadHistoryFileHandler. `decodes` says whether a file's contents read
   * and parse as a list of agent messages; reading the directory itself
   * fails.
   */
  function LoadHistoryFile(dir: Dir, filename: string, decodes: string -> bool): (r: LoadResponse)
    ensures r == LoadError(400) <==> filename == "" || !SafeName(filename)
    ensures r.Loaded? ==> (SafeName(filename) && filename in dir && r.data == dir[filename]
      && r.sessionID == ExtractSessionID(filename) && r.filename == filename)
    ensures r.Loaded? <==> filename != "" && SafeName(filename) && filename != DirItself && filename in dir
                           && decodes(dir[filename])
    ensures r == LoadError(404) <==> SafeName(filename) && filename != "" && filename != DirItself && filename !in dir
    ensures filename == DirItself ==> r == LoadError(500)
  {
    ContainsSlash(filename);
    if filename == "" then LoadError(400)
    else if Contains(filename, "..") || Contains(filename, "/") then LoadError(400)
    else if filename == DirItself then LoadError(500)
    else if filename !in dir then LoadError(404)
    else if !decodes(dir[filename]) then LoadError(500)
    else Loaded(filename, ExtractSessionID(filename), dir[filename])
  }

  /** `/` is a one-character substring. */
  lemma ContainsSlash(s: string)
    ensures Contains(s, "/") <==> '/' in s
  {
    ContainsIff(s, "/");
    if Contains(s, "/") {
      var k :| MatchesAt(s, "/", k);
      assert s[k..k + 1][0] == s[k];
    }
    if '/' in s {
      var k :| 0 <= k < |s| && s[k] == '/';
      assert s[k..k + 1] == "/";
      ContainsAt(s, "/", k);
    }
  }

  datatype Change = Change(status: int, dir: Dir)

  /**
   * DeleteHistoryFileHandler. `removeFails` says whether os.Remove fails on
   * an existing file for a reason other than its absence (permissions, I/O);
   * removing the directory itself fails as it does for a directory that
   * holds files.
   */
  function DeleteHistoryFile(dir: Dir, filename: string, removeFails: bool): (r: Change)
    ensures r.status == 400 <==> filename == "" || !SafeName(filename)
    ensures r.status == 200 <==>
      filename != "" && SafeName(filename) && filename != DirItself && filename in dir && !removeFails
    ensures r.status == 404 <==> filename != "" && SafeName(filename) && filename != DirItself && filename !in dir
    ensures r.status == 500 <==>
      SafeName(filename) && (filename == DirItself || (filename != "" && filename in dir && removeFails))
    ensures r.status == 200 ==> r.dir == dir - {filename}
    ensures r.status != 200 ==> r.dir == dir
  {
    ContainsSlash(filename);
    if filename == "" then Change(400, dir)
    else if Contains(filename, "..") || Contains(filename, "/") then Change(400, dir)
    else if filename == DirItself then Change(500, dir)
    else if filename !in dir then Change(404, dir)
    else if removeFails then Change(500, dir)
    else Change(200, dir - {filename})
  }

  /** The name exists for os.Stat: a file of the directory, or the directory itself. */
  predicate Exists(dir: Dir, name: string) {
    name == DirItself || name in dir
  }

  /**
   * RenameHistoryFileHandler: both names are required and checked; the old
   * name must exist and the new one must not. `renameFails` says whether
   * os.Rename fails for another reason; moving the directory into itself
   * always fails.
   */
  function RenameHistoryFile(dir: Dir, oldName: string, newName: string, renameFails: bool): (r: Change)
    ensures r.status == 400 <==>
      oldName == "" || newName == "" || !SafeName(oldName) || !SafeName(newName)
    ensures r.status == 200 <==>
      oldName != "" && newName != "" && SafeName(oldName) && SafeName(newName)
      && oldName != DirItself && oldName in dir && !Exists(dir, newName) && !renameFails
    ensures r.status == 404 <==>
      oldName != "" && newName != "" && SafeName(oldName) && SafeName(newName) && !Exists(dir, oldName)
    ensures r.status == 409 <==>
      oldName != "" && newName != "" && SafeName(oldName) && SafeName(newName)
      && Exists(dir, oldName) && Exists(dir, newName)
    ensures r.status == 500 <==>
      oldName != "" && newName != "" && SafeName(oldName) && SafeName(newName)
      && Exists(dir, oldName) && !Exists(dir, newName) && (oldName == DirItself || renameFails)
    ensures r.status == 200 ==> r.dir == (dir - {oldName})[newName := dir[oldName]]
    ensures r.status != 200 ==> r.dir == dir
  {
    ContainsSlash(oldName);
    ContainsSlash(newName);
    if oldName == "" || newName == "" then Change(400, dir)
    else if Contains(oldName, "..") || Contains(oldName, "/")
         || Contains(newName, "..") || Contains(newName, "/") then Change(400, dir)
    else if !Exists(dir, oldName) then Change(404, dir)
    else if Exists(dir, newName) then Change(409, dir)
    else if oldName == DirItself || renameFails then Change(500, dir)
    else Change(200, (dir - {oldName})[newName := dir[oldName]])
  }

  /** A successful rename keeps the number of files and moves the contents to the new name. */
  lemma RenameKeepsFiles(dir: Dir, oldName: string, newName: string, renameFails: bool)
    requires RenameHistoryFile(dir, oldName, newName, renameFails).status == 200
    ensures |RenameHistoryFile(dir, oldName, newName, renameFails).dir| == |dir|
    ensures RenameHistoryFile(dir, oldName, newName, renameFails).dir[newName] == dir[oldName]
    ensures oldName !in RenameHistoryFile(dir, oldName, newName, renameFails).dir
  {
    var d := (dir - {oldName})[newName := dir[oldName]];
    assert d.Keys == dir.Keys - {oldName} + {newName};
    assert |dir.Keys - {oldName}| == |dir.Keys| - 1;
  }

  /** A directory entry as os.ReadDir gives it; `infoOk` says whether entry.Info() succeeds. */
  datatype DirEntry = DirEntry(name: string, isDir: bool, infoOk: bool, size: int, modTime: int)

  /** What the handler finds at the history directory. */
  datatype Listing = Missing | Unreadable | Listed(entries: seq<DirEntry>)

  datatype HistoryFileInfo = HistoryFileInfo(filename: string, displayName: string, sessionID: string, size: int, modTime: int)

  function InfoOf(e: DirEntry): HistoryFileInfo {
    HistoryFileInfo(e.name, FormatDisplayName(e.name), ExtractSessionID(e.name), e.size, e.modTime)
  }

  /** The entry is listed: a file whose information can be read. */
  predicate Listable(e: DirEntry) {
    !e.isDir && e.infoOk
  }

  /** The listable entries, in directory order. */
  function FileEntries(entries: seq<DirEntry>): seq<DirEntry>
    decreases |entries|
  {
    if |entries| == 0 then []
    else
      var n := |entries| - 1;
      FileEntries(entries[..n]) + (if Listable(entries[n]) then [entries[n]] else [])
  }

  lemma {:induction false} FileEntriesSpec(entries: seq<DirEntry>)
    ensures forall e :: e in FileEntries(entries) <==> e in entries && Listable(e)
    decreases |entries|
  {
    if |entries| > 0 {
      var n := |entries| - 1;
      FileEntriesSpec(entries[..n]);
      assert entries == entries[..n] + [entries[n]];
    }
  }

  /**
   * ListHistoryFilesHandler: a missing directory lists nothing, an
   * unreadable one is 500; otherwise one record per file entry, skipping
   * directories and entries whose information cannot be read.
   */
  method ListHistoryFiles(listing: Listing) returns (status: int, files: seq<HistoryFileInfo>)
    ensures status == 500 <==> listing.Unreadable?
    ensures status != 500 ==> status == 200
    ensures !listing.Listed? ==> files == []
    ensures listing.Listed? ==>
      |files| == |FileEntries(listing.entries)|
      && forall k :: 0 <= k < |files| ==> files[k] == InfoOf(FileEntries(listing.entries)[k])
  {
    if listing.Missing? {
      return 200, [];
    }
    if listing.Unreadable? {
      return 500, [];
    }
    var es := listing.entries;
    files := [];
    var i := 0;
    while i < |es|
      invariant 0 <= i <= |es|
      invariant |files| == |FileEntries(es[..i])|
      invariant forall k :: 0 <= k < |files| ==> files[k] == InfoOf(FileEntries(es[..i])[k])
    {
      assert es[..i + 1][..i] == es[..i];
      if !es[i].isDir && es[i].infoOk {
        files := files + [InfoOf(es[i])];
      }
      i := i + 1;
    }
    assert es[..i] == es;
    status := 200;
  }
}
