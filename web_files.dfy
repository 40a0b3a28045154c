/**
 * File references in the web client (web/js/files.js): the `#path`
 * mentions a message carries, the suggestion list that browses the work
 * directory while a `#partial` is typed, its keyboard navigation over an
 * optional parent row, and the completion that writes the chosen path.
 * The directory listing (`loadFiles`, an HTTP request) is a parameter:
 * the entries the server returned for the directory, empty on failure.
 */
module WebFiles {
  import opened GoStrings
  import opened JsStrings
  import opened WebAgents

  // ---------------------------------------------------------------------
  // extractFilePaths

  /** The captures of `/#([^\s]+)/g`, matched left to right: each `#` followed by a non-blank run. */
  function HashPaths(s: string): (r: seq<string>)
    decreases |s|
  {
    if |s| == 0 then []
    else if s[0] == '#' && |s| > 1 && NotJsSpace(s[1]) then
      var e := RunEnd(s, 1, NotJsSpace);
      [s[1..e]] + HashPaths(s[e..])
    else HashPaths(s[1..])
  }

  /** Every path found is non-empty and free of blanks. */
  lemma {:induction false} HashPathsShape(s: string)
    ensures forall i :: 0 <= i < |HashPaths(s)| ==>
      |HashPaths(s)[i]| > 0 && forall k :: 0 <= k < |HashPaths(s)[i]| ==> NotJsSpace(HashPaths(s)[i][k])
    decreases |s|
  {
    if |s| > 0 {
      if s[0] == '#' && |s| > 1 && NotJsSpace(s[1]) {
        var e := RunEnd(s, 1, NotJsSpace);
        HashPathsShape(s[e..]);
        assert forall k :: 0 <= k < e - 1 ==> s[1..e][k] == s[k + 1];
      } else {
        HashPathsShape(s[1..]);
      }
    }
  }

  /** extractFilePaths: the regular expression's exec loop, resuming where each match ended. */
  method ExtractFilePaths(input: string) returns (paths: seq<string>)
    ensures paths == HashPaths(input)
  {
    paths := [];
    var i := 0;
    while i < |input|
      invariant 0 <= i <= |input|
      invariant paths + HashPaths(input[i..]) == HashPaths(input)
    {
      if input[i] == '#' && i + 1 < |input| && NotJsSpace(input[i + 1]) {
        var e := i + 2;
        while e < |input| && NotJsSpace(input[e])
          invariant i + 2 <= e <= |input|
          invariant forall k :: i + 1 <= k < e ==> NotJsSpace(input[k])
        {
          e := e + 1;
        }
        MatchAt(input, i, e);
        paths := paths + [input[i + 1..e]];
        i := e;
      } else {
        assert input[i..][1..] == input[i + 1..];
        i := i + 1;
      }
    }
  }

  /** One match found at i and ending at e, stated on the suffix from i. */
  lemma MatchAt(s: string, i: nat, e: nat)
    requires i + 2 <= e <= |s| && s[i] == '#'
    requires forall k :: i + 1 <= k < e ==> NotJsSpace(s[k])
    requires e == |s| || !NotJsSpace(s[e])
    ensures HashPaths(s[i..]) == [s[i + 1..e]] + HashPaths(s[e..])
  {
    var t := s[i..];
    RunEndUnique(t, 1, e - i, NotJsSpace);
    assert t[1..e - i] == s[i + 1..e];
    assert t[e - i..] == s[e..];
  }

  /** Text without `#` contributes no path. */
  lemma {:induction false} NoHashSkipped(a: string, b: string)
    requires '#' !in a
    ensures HashPaths(a + b) == HashPaths(b)
    decreases |a|
  {
    if |a| > 0 {
      assert (a + b)[0] == a[0] && a[0] != '#';
      assert (a + b)[1..] == a[1..] + b;
      assert '#' !in a[1..];
      NoHashSkipped(a[1..], b);
    } else {
      assert a + b == b;
    }
  }

  /** `#path` ending at a blank or at the end yields `path`, and the scan goes on after it. */
  lemma HashPathFirst(p: string, rest: string)
    requires |p| > 0 && forall k :: 0 <= k < |p| ==> NotJsSpace(p[k])
    requires rest == "" || IsJsSpace(rest[0])
    ensures HashPaths("#" + p + rest) == [p] + HashPaths(rest)
  {
    var s := "#" + p + rest;
    assert s[1] == p[0];
    assert forall k :: 1 <= k < |p| + 1 ==> s[k] == p[k - 1];
    RunEndUnique(s, 1, |p| + 1, NotJsSpace);
    assert s[1..|p| + 1] == p;
    assert s[|p| + 1..] == rest;
  }

  /** The text of mentions `#p ` for each path, in order. */
  function Mentions(ps: seq<string>): string {
    if |ps| == 0 then "" else "#" + ps[0] + " " + Mentions(ps[1..])
  }

  /** Paths written as mentions are extracted again, in order and with repeats. */
  lemma {:induction false} MentionsRoundTrip(ps: seq<string>)
    requires forall i :: 0 <= i < |ps| ==> |ps[i]| > 0 && forall k :: 0 <= k < |ps[i]| ==> NotJsSpace(ps[i][k])
    ensures HashPaths(Mentions(ps)) == ps
    decreases |ps|
  {
    if |ps| > 0 {
      MentionsRoundTrip(ps[1..]);
      var rest := " " + Mentions(ps[1..]);
      assert Mentions(ps) == "#" + ps[0] + rest;
      HashPathFirst(ps[0], rest);
      assert rest == [' '] + Mentions(ps[1..]);
      NoHashSkipped(" ", Mentions(ps[1..]));
    }
  }

  /** Two mentions in running text: the text before each has no `#` and a blank follows the first. */
  lemma TwoMentions(s: string, pre: string, p1: string, mid: string, p2: string)
    requires s == pre + ("#" + p1 + (mid + ("#" + p2 + "")))
    requires '#' !in pre && '#' !in mid && |mid| > 0 && IsJsSpace(mid[0])
    requires |p1| > 0 && forall k :: 0 <= k < |p1| ==> NotJsSpace(p1[k])
    requires |p2| > 0 && forall k :: 0 <= k < |p2| ==> NotJsSpace(p2[k])
    ensures HashPaths(s) == [p1, p2]
  {
    var tail := mid + ("#" + p2 + "");
    NoHashSkipped(pre, "#" + p1 + tail);
    HashPathFirst(p1, tail);
    NoHashSkipped(mid, "#" + p2 + "");
    HashPathFirst(p2, "");
    assert HashPaths("") == [];
  }

  /** `"check #a/b.txt and #c.txt"` mentions `a/b.txt` and then `c.txt`. */
  lemma ExtractTwoPaths()
    ensures HashPaths("check #a/b.txt and #c.txt") == ["a/b.txt", "c.txt"]
  {
    TwoMentions("check #a/b.txt and #c.txt", "check ", "a/b.txt", " and ", "c.txt");
  }

  // ---------------------------------------------------------------------
  // The search text

  /** Join(parts) ends with the separator and the last part. */
  lemma {:induction false} JoinSnoc(parts: seq<string>, c: char)
    requires |parts| >= 2
    ensures Join(parts, c) == Join(parts[..|parts| - 1], c) + [c] + parts[|parts| - 1]
    decreases |parts|
  {
    if |parts| > 2 {
      var tl := parts[1..];
      JoinSnoc(tl, c);
      assert tl[..|tl| - 1] == parts[..|parts| - 1][1..];
      assert parts[..|parts| - 1][0] == parts[0];
    }
  }

  /** The last separator of `a + [c] + b` is the one after a, when b has none. */
  lemma {:induction false} LastSeparator(a: string, c: char, b: string)
    requires c !in b
    ensures LastIndexChar(a + [c] + b, c) == |a|
    decreases |b|
  {
    var s := a + [c] + b;
    if |b| > 0 {
      assert s[|s| - 1] == b[|b| - 1];
      assert s[..|s| - 1] == a + [c] + b[..|b| - 1];
      LastSeparator(a, c, b[..|b| - 1]);
    }
  }

  /**
   * showFileSuggestions' split of the search text: the parts of
   * `split('/')` without the last, joined again, are the directory, and
   * the last part is the file-name filter.
   */
  function SearchSplit(search: string): (string, string) {
    var parts := Split(search, '/');
    (Join(parts[..|parts| - 1], '/'), parts[|parts| - 1])
  }

  /** The directory one level up: the directory path without its final segment. */
  function ParentPath(dir: string): string {
    SearchSplit(dir).0
  }

  /**
   * The split is at the last `/`: the directory is the text before it and
   * the filter the text after it; without a `/` the directory is empty
   * and the filter the whole text.
   */
  lemma SearchSplitAtLastSlash(search: string)
    ensures var p := LastIndexChar(search, '/');
      (p < 0 ==> SearchSplit(search) == ("", search))
      && (p >= 0 ==> SearchSplit(search) == (search[..p], search[p + 1..]))
  {
    var parts := Split(search, '/');
    JoinSplit(search, '/');
    SplitNoSeparator(search, '/');
    LastIndexCharSpec(search, '/');
    if |parts| == 1 {
      assert search == parts[0];
    } else {
      JoinSnoc(parts, '/');
      var dir := Join(parts[..|parts| - 1], '/');
      var name := parts[|parts| - 1];
      assert '/' !in name;
      LastSeparator(dir, '/', name);
      assert search == dir + ['/'] + name;
      assert search[..|dir|] == dir;
      assert search[|dir| + 1..] == name;
    }
  }

  // ---------------------------------------------------------------------
  // The suggestion list

  /** One entry of the directory listing. */
  datatype FileEntry = FileEntry(name: string, path: string, isDir: bool)

  predicate FileMatches(f: FileEntry, search: string) {
    Contains(ToLower(f.name), ToLower(search))
  }

  /** The entries whose name contains the filter, ignoring case, in listing order. */
  function FilterFiles(files: seq<FileEntry>, search: string): (r: seq<FileEntry>)
    ensures |r| <= |files|
    ensures forall f :: f in r <==> f in files && FileMatches(f, search)
  {
    if |files| == 0 then []
    else
      var init := files[..|files| - 1];
      var last := files[|files| - 1];
      assert files == init + [last];
      FilterFiles(init, search) + (if FileMatches(last, search) then [last] else [])
  }

  /**
   * The file suggestion list: shown or not, the parent row's path when
   * browsing inside a directory, the entries, and `selectedFileIndex`
   * (-1 is the parent row).
   */
  datatype FilePopup = FilePopup(shown: bool, parent: Option<string>, entries: seq<FileEntry>, selected: int)

  /** A row of the list: the parent row or an entry. */
  datatype FileRow = ParentRow(path: string) | EntryRow(entry: FileEntry)

  /** The rows in display order: the parent row first when there is one. */
  function Rows(p: FilePopup): (r: seq<FileRow>)
    ensures |r| == |p.entries| + (if p.parent.Some? then 1 else 0)
  {
    (if p.parent.Some? then [ParentRow(p.parent.value)] else [])
    + seq(|p.entries|, k requires 0 <= k < |p.entries| => EntryRow(p.entries[k]))
  }

  /**
   * A shown list selects the parent row or an entry when it has a parent
   * row, and an entry otherwise; a hidden list selects nothing.
   */
  predicate FilePopupValid(p: FilePopup) {
    (p.shown && p.parent.Some? ==> -1 <= p.selected < |p.entries|)
    && (p.shown && p.parent.None? ==> 0 <= p.selected < |p.entries|)
    && (!p.shown ==> p.selected == -1)
  }

  /** hideFileSuggestions */
  function HideFiles(p: FilePopup): FilePopup {
    p.(shown := false, selected := -1)
  }

  /**
   * showFileSuggestions for a search text and the listing of its
   * directory: nothing to show at the top level hides the list; inside a
   * directory the parent row is shown and selected, otherwise the first entry.
   */
  function ShowFiles(p: FilePopup, listing: seq<FileEntry>, search: string): (r: FilePopup)
    ensures FilePopupValid(r)
  {
    var (dir, name) := SearchSplit(search);
    var found := FilterFiles(listing, name);
    if |found| == 0 && dir == "" then HideFiles(p)
    else if dir != "" then FilePopup(true, Some(ParentPath(dir)), found, -1)
    else FilePopup(true, None, found, 0)
  }

  /**
   * The list is hidden exactly when the search is at the top level and no
   * entry matches; inside a directory the parent row leads and is
   * selected; at the top level the first match is selected.
   */
  lemma ShowFilesRule(p: FilePopup, listing: seq<FileEntry>, search: string)
    ensures var r := ShowFiles(p, listing, search);
      var (dir, name) := SearchSplit(search);
      (!r.shown <==> dir == "" && forall f :: f in listing ==> !FileMatches(f, name))
      && (r.shown ==> r.entries == FilterFiles(listing, name))
      && (r.shown && dir != "" ==> r.parent == Some(ParentPath(dir)) && r.selected == -1 && Rows(r)[0] == ParentRow(ParentPath(dir)))
      && (r.shown && dir == "" ==> r.parent.None? && r.selected == 0)
  {
    var (dir, name) := SearchSplit(search);
    var found := FilterFiles(listing, name);
    if |found| > 0 {
      assert found[0] in found;
    }
  }

  /** The row a selection index stands for: -1 is the parent row, i the entry i. */
  function Selected(p: FilePopup): Option<FileRow> {
    if p.parent.Some? && p.selected == -1 then Some(ParentRow(p.parent.value))
    else if 0 <= p.selected < |p.entries| then Some(EntryRow(p.entries[p.selected]))
    else None
  }

  /** updateFileSuggestionSelection: row idx is marked when idx, less one with a parent row, is the selection. */
  function Marks(p: FilePopup): (r: seq<bool>)
    ensures |r| == |Rows(p)|
  {
    var offset := if p.parent.Some? then 1 else 0;
    seq(|Rows(p)|, idx requires 0 <= idx < |Rows(p)| => idx - offset == p.selected)
  }

  /**
   * The marked row and the row Enter acts on agree: in a shown list
   * exactly one row is marked, the one at the selection plus the parent
   * offset, and it is the selected row.
   */
  lemma MarkedIsSelected(p: FilePopup)
    requires FilePopupValid(p) && p.shown
    ensures var offset := if p.parent.Some? then 1 else 0;
      0 <= p.selected + offset < |Rows(p)|
      && (forall idx :: 0 <= idx < |Rows(p)| ==> (Marks(p)[idx] <==> idx == p.selected + offset))
      && Selected(p) == Some(Rows(p)[p.selected + offset])
  {
  }

  /** What a key asks the client to do next. */
  datatype FileAction = NoAction | InsertPath(path: string) | Browse(search: string)

  datatype FileKey = FileKey(handled: bool, popup: FilePopup, action: FileAction)

  /** The search text that browses a directory: its path and `/`, or the top level for the empty path. */
  function BrowseSearch(path: string): string {
    if path != "" then path + "/" else ""
  }

  /** handleFileSuggestionKeyDown */
  function FileKeyDown(p: FilePopup, key: Key): FileKey {
    var n := |Rows(p)|;
    var hasParent := p.parent.Some?;
    var maxIndex := |p.entries| - 1;
    if !p.shown || n == 0 then FileKey(false, p, NoAction)
    else if key == ArrowDown then
      FileKey(true, p.(selected := if hasParent then (if p.selected >= maxIndex then -1 else p.selected + 1)
                                    else JsRem(p.selected + 1, n)), NoAction)
    else if key == ArrowUp then
      FileKey(true, p.(selected := if hasParent then (if p.selected <= -1 then maxIndex else p.selected - 1)
                                    else JsRem(p.selected - 1 + n, n)), NoAction)
    else if key == Enter || key == Tab then
      if -1 <= p.selected <= maxIndex then
        match Selected(p)
        case None => FileKey(false, p, NoAction)
        case Some(ParentRow(path)) => FileKey(true, p, Browse(BrowseSearch(path)))
        case Some(EntryRow(f)) =>
          if key == Enter then FileKey(true, HideFiles(p), InsertPath(f.path))
          else if f.isDir then FileKey(true, p, Browse(f.path + "/"))
          else FileKey(true, p, NoAction)
      else FileKey(false, p, NoAction)
    else if key == Escape then FileKey(true, HideFiles(p), NoAction)
    else FileKey(false, p, NoAction)
  }

  /**
   * Keys keep the list valid and do nothing while it is hidden. With a
   * parent row the selection cycles over -1 .. entries - 1, otherwise it
   * wraps over the entries, and Down then Up comes back to the same row.
   * Enter on an entry inserts its path and hides the list, on the parent
   * row it browses one level up; Tab enters a directory and leaves a file alone.
   */
  lemma FileKeysValid(p: FilePopup, key: Key)
    requires FilePopupValid(p)
    ensures FilePopupValid(FileKeyDown(p, key).popup)
    ensures !p.shown ==> FileKeyDown(p, key) == FileKey(false, p, NoAction)
    ensures p.shown && p.parent.Some? && key == ArrowDown ==>
      FileKeyDown(p, key).popup.selected == if p.selected == |p.entries| - 1 then -1 else p.selected + 1
    ensures p.shown && p.parent.Some? && key == ArrowUp ==>
      FileKeyDown(p, key).popup.selected == if p.selected == -1 then |p.entries| - 1 else p.selected - 1
    ensures p.shown && p.parent.None? && key == ArrowDown ==>
      FileKeyDown(p, key).popup.selected == if p.selected + 1 == |p.entries| then 0 else p.selected + 1
    ensures p.shown ==> FileKeyDown(FileKeyDown(p, ArrowDown).popup, ArrowUp).popup == p
    ensures p.shown && key == Enter && Selected(p).Some? && Selected(p).value.EntryRow? ==>
      FileKeyDown(p, key) == FileKey(true, HideFiles(p), InsertPath(Selected(p).value.entry.path))
    ensures p.shown && (key == Enter || key == Tab) && Selected(p).Some? && Selected(p).value.ParentRow? ==>
      FileKeyDown(p, key) == FileKey(true, p, Browse(BrowseSearch(p.parent.value)))
    ensures p.shown && key == Tab && Selected(p).Some? && Selected(p).value.EntryRow? ==>
      FileKeyDown(p, key).action == (if Selected(p).value.entry.isDir then Browse(Selected(p).value.entry.path + "/") else NoAction)
  {
    if p.shown && p.parent.None? {
      var n := |p.entries|;
      WrapSteps(p.selected, n);
      var d := FileKeyDown(p, ArrowDown).popup;
      WrapSteps(d.selected, n);
    }
  }

  // ---------------------------------------------------------------------
  // insertFileMention

  /**
   * The `#partial` the text before the cursor ends with, `/#([^\s]*)$/`:
   * the position of its `#`, after which nothing is blank.
   */
  function HashMatch(before: string): (r: Option<nat>)
    ensures r.Some? ==> r.value < |before| && before[r.value] == '#'
                        && forall k :: r.value < k < |before| ==> NotJsSpace(before[k])
  {
    var q := RunStart(before, |before|, NotJsSpace);
    var tail := before[q..];
    var i := IndexChar(tail, '#');
    IndexCharSpec(tail, '#');
    if i >= 0 then
      assert before[q + i] == tail[i];
      Some(q + i)
    else
      None
  }

  /**
   * The match is the leftmost `#` after which nothing is blank: every
   * earlier `#`, and without a match every `#`, has a blank after it.
   */
  lemma HashMatchLeftmost(before: string)
    ensures var r := HashMatch(before);
      (r.Some? ==> forall q :: 0 <= q < r.value && before[q] == '#' ==>
                     exists k :: q < k < |before| && IsJsSpace(before[k]))
      && (r.None? ==> forall q :: 0 <= q < |before| && before[q] == '#' ==>
                     exists k :: q < k < |before| && IsJsSpace(before[k]))
  {
    var q := RunStart(before, |before|, NotJsSpace);
    var tail := before[q..];
    var i := IndexChar(tail, '#');
    IndexCharSpec(tail, '#');
    assert forall k :: 0 <= k < i ==> before[q + k] == tail[k];
    assert forall q' :: 0 <= q' < q && before[q'] == '#' ==> q' < q - 1 && IsJsSpace(before[q - 1]);
    if i < 0 {
      assert forall k :: q <= k < |before| ==> before[k] == tail[k - q];
    }
  }

  /**
   * insertFileMention: the `#partial` before the cursor becomes `#path `
   * and the cursor moves past the blank; without a partial the text stays.
   */
  function InsertFileMention(area: TextArea, path: string): (r: TextArea)
    requires area.cursor <= |area.value|
    ensures r.cursor <= |r.value|
  {
    var before := area.value[..area.cursor];
    match HashMatch(before)
    case Some(at) =>
      TextArea(area.value[..at] + "#" + path + " " + area.value[area.cursor..], at + |path| + 2)
    case None => area
  }

  /**
   * After a completion the text before the cursor ends with `#path ` in
   * place of the partial, with the cursor at `hashPos + path.length + 2`,
   * and the text after the cursor is kept.
   */
  lemma InsertPathCompletes(area: TextArea, path: string)
    requires area.cursor <= |area.value|
    requires HashMatch(area.value[..area.cursor]).Some?
    ensures var at := HashMatch(area.value[..area.cursor]).value;
      var r := InsertFileMention(area, path);
      r.cursor == at + |path| + 2
      && r.value[..r.cursor] == area.value[..at] + "#" + path + " "
      && r.value[r.cursor..] == area.value[area.cursor..]
  {
    var at := HashMatch(area.value[..area.cursor]).value;
    var head := area.value[..at] + "#" + path + " ";
    var r := InsertFileMention(area, path);
    assert r.value == head + area.value[area.cursor..];
  }

  /** Completing a `#partial` typed alone yields a message whose one mentioned path is the chosen one. */
  lemma CompletionIsPath(partial: string, path: string)
    requires forall k :: 0 <= k < |partial| ==> NotJsSpace(partial[k])
    requires |path| > 0 && forall k :: 0 <= k < |path| ==> NotJsSpace(path[k])
    ensures var area := TextArea("#" + partial, 1 + |partial|);
      HashPaths(InsertFileMention(area, path).value) == [path]
  {
    var v := "#" + partial;
    assert v[..1 + |partial|] == v;
    var m := HashMatch(v);
    assert forall k :: 0 < k < |v| ==> NotJsSpace(v[k]) by {
      forall k | 0 < k < |v| ensures NotJsSpace(v[k]) { assert v[k] == partial[k - 1]; }
    }
    assert m.Some? && m.value == 0;
    assert v[..0] + "#" + path + " " + v[|v|..] == "#" + path + " ";
    HashPathFirst(path, " ");
    NoHashSkipped(" ", "");
    assert " " + "" == " ";
  }
}
